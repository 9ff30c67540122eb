/**
 * `observeVerbatimStream`: the upstream's chunks go to the client as they are, and
 * are read in passing for the usage and the response they report.
 */
module VerbatimStream {
  import opened Base
  import opened Json
  import opened Sse
  import SR = SseRecords
  import A = AnthropicStream
  import C = ChatStream
  import AC = AnthropicToChat
  import H = ChatHistory
  import T = ChatToAnthropic
  import TR = ChatToResponses
  import RP = ChatToResponsesPipeline
  import opened StreamCapture
  import opened StreamPipeline

  /** The upstream wire format, by which an observer is chosen. */
  datatype Protocol = Messages | Chat | Responses

  /** What an observer makes of an event: something for the log, or counts. */
  datatype Glance = Noticed(note: Note) | Counted(counts: Report)

  function Noticing(notes: seq<Note>): (glances: seq<Glance>)
    ensures |glances| == |notes|
  {
    seq(|notes|, i requires 0 <= i < |notes| => Noticed(notes[i]))
  }

  function AnthropicCounts(e: A.Upstream): seq<Glance> {
    match e
    case UpMessageStart(_, _, Some(u)) => [Counted(Report(u.input, u.output, u.cacheRead))]
    case UpMessageDelta(_, Some(u)) => [Counted(Report(u.input, u.output, u.cacheRead))]
    case _ => []
  }

  function AnthropicGlances(e: A.Upstream): seq<Glance> {
    Noticing(AnthropicNote(e)) + AnthropicCounts(e)
  }

  function ChatGlances(e: C.Upstream): seq<Glance> {
    match e
    case UpUsage(u) => [Counted(Report(Some(u.prompt), Some(u.completion), u.cached))]
    case _ => Noticing(ChatNote(e))
  }

  function ChatGlancesOf(es: seq<C.Upstream>): seq<Glance> {
    if es == [] then [] else ChatGlancesOf(es[..|es| - 1]) + ChatGlances(es[|es| - 1])
  }

  /** There is no decoder for this format: text and usage are read straight off the frame. */
  function ResponsesGlances(e: SR.StreamEvent): seq<Glance> {
    var delta := StrProp(Some(e.data), "delta");
    var usage := Prop(Prop(Some(e.data), "response"), "usage");
    (if e.event == "response.output_text.delta" && delta.Some? then [Noticed(TextNote(delta.value))] else [])
    + (if usage.Some?
       then [Counted(Report(NumProp(usage, "input_tokens"), NumProp(usage, "output_tokens"),
                            NumProp(Prop(usage, "input_tokens_details"), "cached_tokens")))]
       else [])
  }

  function Glances(p: Protocol, e: SR.StreamEvent): seq<Glance> {
    match p
    case Messages =>
      var decoded := A.Decode(e);
      if decoded.Some? then AnthropicGlances(decoded.value) else []
    case Chat => ChatGlancesOf(C.Decode(e))
    case Responses => ResponsesGlances(e)
  }

  function GlancesOf(p: Protocol, events: seq<SR.StreamEvent>): seq<Glance> {
    if events == [] then [] else Glances(p, events[0]) + GlancesOf(p, events[1..])
  }

  function MergeReport(total: Report, later: Report): Report {
    Report(later.input.OrElse(total.input), later.output.OrElse(total.output), later.cached.OrElse(total.cached))
  }

  /** The usage read: each count as it was last reported. */
  function UsageRead(glances: seq<Glance>): Report {
    if glances == [] then NO_REPORT
    else
      var before := UsageRead(glances[..|glances| - 1]);
      match glances[|glances| - 1]
      case Counted(counts) => MergeReport(before, counts)
      case Noticed(_) => before
  }

  function NotesRead(glances: seq<Glance>): seq<Note> {
    if glances == [] then []
    else
      NotesRead(glances[..|glances| - 1])
      + match glances[|glances| - 1] case Noticed(note) => [note] case Counted(_) => []
  }

  /** What the observation of some events comes to. */
  function Conclusion(glances: seq<Glance>): Completion {
    Completion(UsageRead(glances), Worth(NotedAll(NotesRead(glances))))
  }

  lemma Snoc(glances: seq<Glance>, g: Glance)
    ensures UsageRead(glances + [g]) ==
            if g.Counted? then MergeReport(UsageRead(glances), g.counts) else UsageRead(glances)
    ensures NotedAll(NotesRead(glances + [g])) ==
            if g.Noticed? then Noted(NotedAll(NotesRead(glances)), g.note) else NotedAll(NotesRead(glances))
  {
    assert (glances + [g])[..|glances|] == glances;
    var notes := NotesRead(glances);
    if g.Noticed? {
      assert (notes + [g.note])[..|notes|] == notes;
    } else {
      assert notes + [] == notes;
    }
  }

  class StreamObserver {
    const codec: Codec
    const protocol: Protocol
    var total: Report
    const captured: ResponseAccumulator

    /** The observer has taken in just these glances. */
    ghost predicate Read(glances: seq<Glance>)
      reads this, captured
    {
      && captured.Valid() && total == UsageRead(glances)
      && captured.Fields() == NotedAll(NotesRead(glances))
    }

    constructor (c: Codec, p: Protocol)
      ensures Read([]) && codec == c && protocol == p && fresh(captured)
    {
      var accumulator := new ResponseAccumulator();
      codec, protocol, total, captured := c, p, NO_REPORT, accumulator;
    }

    /** Feed the log. */
    method Note(notes: seq<Note>, ghost past: seq<Glance>)
      requires Read(past) && |notes| <= 1
      modifies captured
      ensures Read(past + Noticing(notes))
    {
      captured.Take(notes);
      if notes == [] {
        assert past + Noticing(notes) == past;
      } else {
        assert Noticing(notes) == [Noticed(notes[0])];
        Snoc(past, Noticed(notes[0]));
      }
    }

    /** Counts replace those read before where they are given. */
    method Count(counts: Report, ghost past: seq<Glance>)
      requires Read(past)
      modifies this`total
      ensures Read(past + [Counted(counts)])
    {
      Snoc(past, Counted(counts));
      total := Report(counts.input.OrElse(total.input), counts.output.OrElse(total.output),
                      counts.cached.OrElse(total.cached));
    }

    method ObserveAnthropic(e: A.Upstream, ghost past: seq<Glance>)
      requires Read(past)
      modifies this, captured
      ensures Read(past + AnthropicGlances(e))
    {
      ghost var noticed := Noticing(AnthropicNote(e));
      Note(AnthropicNote(e), past);
      match e {
        case UpMessageStart(_, _, Some(u)) => Count(Report(u.input, u.output, u.cacheRead), past + noticed);
        case UpMessageDelta(_, Some(u)) => Count(Report(u.input, u.output, u.cacheRead), past + noticed);
        case _ =>
      }
      Assoc(past, noticed, AnthropicCounts(e));
      assert past + noticed + [] == past + noticed;
    }

    method ObserveChat(es: seq<C.Upstream>, ghost past: seq<Glance>)
      requires Read(past)
      modifies this, captured
      ensures Read(past + ChatGlancesOf(es))
    {
      assert past + [] == past;
      for i := 0 to |es|
        invariant Read(past + ChatGlancesOf(es[..i]))
      {
        assert es[..i + 1][..i] == es[..i];
        ghost var sofar := past + ChatGlancesOf(es[..i]);
        match es[i] {
          case UpUsage(u) => Count(Report(Some(u.prompt), Some(u.completion), u.cached), sofar);
          case _ => Note(ChatNote(es[i]), sofar);
        }
        Assoc(past, ChatGlancesOf(es[..i]), ChatGlances(es[i]));
      }
      assert es[..|es|] == es;
    }

    method ObserveResponses(e: SR.StreamEvent, ghost past: seq<Glance>)
      requires Read(past)
      modifies this, captured
      ensures Read(past + ResponsesGlances(e))
    {
      ghost var sofar := past;
      if e.event == "response.output_text.delta" {
        var delta := StrProp(Some(e.data), "delta");
        if delta.Some? {
          Note([TextNote(delta.value)], sofar);
          assert Noticing([TextNote(delta.value)]) == [Noticed(TextNote(delta.value))];
          sofar := sofar + [Noticed(TextNote(delta.value))];
        }
      }
      var usage := Prop(Prop(Some(e.data), "response"), "usage");
      if usage.Some? {
        var counts := Report(NumProp(usage, "input_tokens"), NumProp(usage, "output_tokens"),
                             NumProp(Prop(usage, "input_tokens_details"), "cached_tokens"));
        Count(counts, sofar);
        sofar := sofar + [Counted(counts)];
      }
      assert sofar == past + ResponsesGlances(e);
    }

    /** `observe`, by the protocol. */
    method Observe(e: SR.StreamEvent, ghost past: seq<Glance>)
      requires Read(past)
      modifies this, captured
      ensures Read(past + Glances(protocol, e))
    {
      assert past + [] == past;
      match protocol {
        case Messages =>
          var decoded := A.Decode(e);
          if decoded.Some? {
            ObserveAnthropic(decoded.value, past);
          }
        case Chat => ObserveChat(C.Decode(e), past);
        case Responses => ObserveResponses(e, past);
      }
    }

    /** Read the events of a frame. */
    method ObserveAll(events: seq<SR.StreamEvent>, ghost past: seq<Glance>)
      requires Read(past)
      modifies this, captured
      ensures Read(past + GlancesOf(protocol, events))
    {
      assert events[0..] == events;
      ghost var seen := past;
      for i := 0 to |events|
        invariant Read(seen)
        invariant seen + GlancesOf(protocol, events[i..]) == past + GlancesOf(protocol, events)
      {
        assert events[i..][1..] == events[i + 1..];
        Observe(events[i], seen);
        Assoc(seen, Glances(protocol, events[i]), GlancesOf(protocol, events[i + 1..]));
        seen := seen + Glances(protocol, events[i]);
      }
      assert events[|events|..] == [] && seen + [] == seen;
    }

    /** `read`: each frame is parsed and its events observed. */
    method ReadFrames(d: SR.Dialect, frames: seq<string>, ghost past: seq<Glance>)
      requires Read(past)
      modifies this, captured
      ensures Read(past + FrameGlances(d, codec, protocol, frames))
    {
      assert frames[0..] == frames;
      ghost var seen := past;
      for i := 0 to |frames|
        invariant Read(seen)
        invariant seen + FrameGlances(d, codec, protocol, frames[i..]) ==
                  past + FrameGlances(d, codec, protocol, frames)
      {
        NextFrameGlances(d, codec, protocol, frames, i);
        var events := SR.ParseSse(d, codec, frames[i]);
        ObserveAll(events, seen);
        Assoc(seen, GlancesOf(protocol, events), FrameGlances(d, codec, protocol, frames[i + 1..]));
        seen := seen + GlancesOf(protocol, events);
      }
      assert frames[|frames|..] == [] && seen + [] == seen;
    }
  }

  /** What is observed of a list of frames. */
  ghost function FrameGlances(d: SR.Dialect, c: Codec, p: Protocol, frames: seq<string>): seq<Glance> {
    GlancesOf(p, SR.ParseFrames(d, c, frames))
  }

  lemma {:induction false} GlancesConcat(p: Protocol, a: seq<SR.StreamEvent>, b: seq<SR.StreamEvent>)
    ensures GlancesOf(p, a + b) == GlancesOf(p, a) + GlancesOf(p, b)
    decreases a
  {
    if a == [] {
      assert a + b == b;
    } else {
      assert (a + b)[1..] == a[1..] + b;
      GlancesConcat(p, a[1..], b);
      Assoc(Glances(p, a[0]), GlancesOf(p, a[1..]), GlancesOf(p, b));
    }
  }

  lemma NextFrameGlances(d: SR.Dialect, c: Codec, p: Protocol, frames: seq<string>, i: nat)
    requires i < |frames|
    ensures FrameGlances(d, c, p, frames[i..]) ==
            GlancesOf(p, SR.Parse(d, c, frames[i])) + FrameGlances(d, c, p, frames[i + 1..])
  {
    assert frames[i..][1..] == frames[i + 1..];
    GlancesConcat(p, SR.Parse(d, c, frames[i]), SR.ParseFrames(d, c, frames[i + 1..]));
  }

  lemma FramesConcat(d: SR.Dialect, c: Codec, p: Protocol, a: seq<string>, b: seq<string>)
    ensures FrameGlances(d, c, p, a + b) == FrameGlances(d, c, p, a) + FrameGlances(d, c, p, b)
  {
    ParseFramesConcat(d, c, a, b);
    GlancesConcat(p, SR.ParseFrames(d, c, a), SR.ParseFrames(d, c, b));
  }

  lemma {:induction false} ParseFramesConcat(d: SR.Dialect, c: Codec, a: seq<string>, b: seq<string>)
    ensures SR.ParseFrames(d, c, a + b) == SR.ParseFrames(d, c, a) + SR.ParseFrames(d, c, b)
    decreases a
  {
    if a == [] {
      assert a + b == b;
    } else {
      assert (a + b)[1..] == a[1..] + b;
      ParseFramesConcat(d, c, a[1..], b);
      Assoc(SR.Parse(d, c, a[0]), SR.ParseFrames(d, c, a[1..]), SR.ParseFrames(d, c, b));
    }
  }

  /** The splitter holds the open frame of what arrived, and the observer has read the complete ones. */
  ghost predicate Watching(splitter: SseFrameSplitter, observer: StreamObserver, d: SR.Dialect, body: string)
    reads splitter, observer, observer.captured
  {
    && splitter.buffer == OpenFrame(body) && Free(BlankLine, splitter.buffer)
    && observer.Read(FrameGlances(d, observer.codec, observer.protocol, CompleteFrames(body)))
  }

  /** One chunk is read in passing. */
  method Watch(splitter: SseFrameSplitter, observer: StreamObserver, d: SR.Dialect, chunk: string, ghost body: string)
    requires Watching(splitter, observer, d, body)
    modifies splitter, observer, observer.captured
    ensures Watching(splitter, observer, d, body + chunk)
  {
    var frames := splitter.Push(chunk);
    FramesArrive(body, chunk);
    FramesConcat(d, observer.codec, observer.protocol, CompleteFrames(body), frames);
    observer.ReadFrames(d, frames, FrameGlances(d, observer.codec, observer.protocol, CompleteFrames(body)));
  }

  /** The end of the body: the open frame is read too. */
  method WatchEnd(splitter: SseFrameSplitter, observer: StreamObserver, d: SR.Dialect, ghost body: string)
    requires Watching(splitter, observer, d, body)
    modifies splitter, observer, observer.captured
    ensures observer.Read(GlancesOf(observer.protocol, SR.Parse(d, observer.codec, body)))
  {
    var last := splitter.Flush();
    FramesConcat(d, observer.codec, observer.protocol, CompleteFrames(body), last);
    observer.ReadFrames(d, last, FrameGlances(d, observer.codec, observer.protocol, CompleteFrames(body)));
    WholeBody(d, observer.codec, observer.protocol, body, last);
  }

  lemma WholeBody(d: SR.Dialect, c: Codec, p: Protocol, body: string, last: seq<string>)
    requires last == NonBlank([OpenFrame(body)])
    ensures FrameGlances(d, c, p, CompleteFrames(body) + last) == GlancesOf(p, SR.Parse(d, c, body))
  {
    var pieces := Split(BlankLine, body);
    NonBlankAppend(Init(pieces), [Last(pieces)]);
    assert Init(pieces) + [Last(pieces)] == pieces;
    SR.FramesParse(d, c, body);
  }

  /** What an observer reports in the end. */
  method Conclude(observer: StreamObserver, ghost glances: seq<Glance>) returns (completion: Completion)
    requires observer.Read(glances)
    ensures completion == Conclusion(glances)
  {
    completion := Completion(observer.total, Worth(Capture(observer.captured.text, observer.captured.truncated,
                                                           observer.captured.toolCalls)));
  }

  /** The chunk loop: each chunk is read and passed on. */
  method WatchAll(splitter: SseFrameSplitter, observer: StreamObserver, d: SR.Dialect, chunks: seq<string>)
    returns (out: seq<string>)
    requires Watching(splitter, observer, d, "")
    modifies splitter, observer, observer.captured
    ensures out == chunks && Watching(splitter, observer, d, Flatten(chunks))
  {
    out := [];
    assert Flatten<char>([]) == "";
    for i := 0 to |chunks|
      invariant out == chunks[..i] && Watching(splitter, observer, d, Flatten(out))
    {
      Watch(splitter, observer, d, chunks[i], Flatten(out));
      FlattenSnoc(out, chunks[i]);
      PrefixGrows(chunks, i);
      out := out + [chunks[i]];
    }
    assert chunks[..|chunks|] == chunks;
  }

  /**
   * For every parser and protocol: the client gets the very chunks, and the report is that of the whole
   * body, wherever the chunks break.
   */
  method ObserveVerbatimStream(c: Codec, d: SR.Dialect, p: Protocol, chunks: seq<string>)
    returns (out: seq<string>, completion: Completion)
    ensures out == chunks
    ensures completion == Conclusion(GlancesOf(p, SR.Parse(d, c, Flatten(chunks))))
  {
    var splitter := new SseFrameSplitter();
    var observer := new StreamObserver(c, p);
    FreeSplit(BlankLine, "");
    out := WatchAll(splitter, observer, d, chunks);
    WatchEnd(splitter, observer, d, Flatten(chunks));
    completion := Conclude(observer, GlancesOf(p, SR.Parse(d, c, Flatten(chunks))));
  }

  // ----- The same usage, forwarded or translated -----

  lemma {:induction false} UsageConcat(a: seq<Glance>, b: seq<Glance>)
    ensures UsageRead(a + b) == MergeReport(UsageRead(a), UsageRead(b))
    decreases b
  {
    if b == [] {
      assert a + b == a;
    } else {
      var n := |b| - 1;
      UsageConcat(a, b[..n]);
      assert a + b == a + b[..n] + [b[n]] && b == b[..n] + [b[n]];
      Snoc(a + b[..n], b[n]);
      Snoc(b[..n], b[n]);
    }
  }

  /** Counts, in the order the events reported them. */
  function Counts(e: A.Upstream): Report {
    match e
    case UpMessageStart(_, _, Some(u)) => Report(u.input, u.output, u.cacheRead)
    case UpMessageDelta(_, Some(u)) => Report(u.input, u.output, u.cacheRead)
    case _ => NO_REPORT
  }

  lemma NoticedCounts(notes: seq<Note>)
    requires |notes| <= 1
    ensures UsageRead(Noticing(notes)) == NO_REPORT
  {
    if notes != [] {
      assert Noticing(notes) == [] + [Noticed(notes[0])];
      Snoc([], Noticed(notes[0]));
    }
  }

  lemma CountsHeld(e: A.Upstream)
    ensures AnthropicCounts(e) == [] ==> Counts(e) == NO_REPORT
    ensures AnthropicCounts(e) != [] ==> AnthropicCounts(e) == [Counted(Counts(e))]
  {
  }

  lemma CountsOnTop(noticed: seq<Glance>, counts: seq<Glance>, report: Report)
    requires UsageRead(noticed) == NO_REPORT && counts == [Counted(report)]
    ensures UsageRead(noticed + counts) == report
  {
    Snoc(noticed, Counted(report));
  }

  lemma GlanceCounts(e: A.Upstream)
    ensures UsageRead(AnthropicGlances(e)) == Counts(e)
  {
    CountsHeld(e);
    NoticedCounts(AnthropicNote(e));
    if AnthropicCounts(e) == [] {
      AppendNone(Noticing(AnthropicNote(e)));
    } else {
      CountsOnTop(Noticing(AnthropicNote(e)), AnthropicCounts(e), Counts(e));
    }
  }

  /** The usage a Messages observer reads is that of the decoded events. */
  function DecodedUsage(events: seq<A.Upstream>): Report {
    if events == [] then NO_REPORT else MergeReport(DecodedUsage(events[..|events| - 1]), Counts(events[|events| - 1]))
  }

  lemma {:induction false} DecodedConcat(a: seq<A.Upstream>, b: seq<A.Upstream>)
    ensures DecodedUsage(a + b) == MergeReport(DecodedUsage(a), DecodedUsage(b))
    decreases b
  {
    if b == [] {
      assert a + b == a;
    } else {
      var n := |b| - 1;
      DecodedConcat(a, b[..n]);
      assert (a + b)[..|a + b| - 1] == a + b[..n];
    }
  }

  lemma {:induction false} ObserverDecodes(events: seq<SR.StreamEvent>)
    ensures UsageRead(GlancesOf(Messages, events)) == DecodedUsage(A.DecodeAll(events))
  {
    if events != [] {
      ObserverDecodes(events[1..]);
      UsageConcat(Glances(Messages, events[0]), GlancesOf(Messages, events[1..]));
      var first := A.Decode(events[0]);
      if first.Some? {
        GlanceCounts(first.value);
        OneCounts(first.value);
        DecodedConcat([first.value], A.DecodeAll(events[1..]));
      } else {
        assert [] + A.DecodeAll(events[1..]) == A.DecodeAll(events[1..]);
      }
    }
  }

  lemma OneCounts(e: A.Upstream)
    ensures DecodedUsage([e]) == Counts(e)
  {
    assert [e][..0] == [];
  }

  lemma {:induction false} TranslatedUsage(live: seq<A.Upstream>)
    ensures var u := AC.UsageOf(live);
            DecodedUsage(live) == Report(u.input, u.output, u.cacheRead)
  {
    if live != [] {
      TranslatedUsage(AC.Before(live));
    }
  }

  predicate ReportsNothing(e: A.Upstream) {
    (e.UpMessageStart? || e.UpMessageDelta?) ==> e.usage.None?
  }

  lemma {:induction false} SilentTail(tail: seq<A.Upstream>)
    requires forall e :: e in tail ==> ReportsNothing(e)
    ensures DecodedUsage(tail) == NO_REPORT
    decreases tail
  {
    if tail != [] {
      SilentTail(tail[..|tail| - 1]);
      assert tail[|tail| - 1] in tail;
    }
  }

  /**
   * A Messages body whose stop is not followed by more usage is billed alike whether it is forwarded or
   * translated to chat, counts nobody reported being taken as 0.
   */
  lemma SameUsageEitherWay(events: seq<SR.StreamEvent>)
    requires var decoded := A.DecodeAll(events);
             |AC.Live(decoded)| <= |decoded| && forall e :: e in decoded[|AC.Live(decoded)|..] ==> ReportsNothing(e)
    ensures var seen := UsageRead(GlancesOf(Messages, events));
            var told := AC.ToChatUsage(AC.UsageOf(AC.Live(A.DecodeAll(events))));
            seen.input.GetOr(0) == told.prompt && seen.output.GetOr(0) == told.completion && seen.cached == told.cached
  {
    ObserverDecodes(events);
    var decoded := A.DecodeAll(events);
    AC.LiveSplits(decoded);
    LiveUsage(decoded, AC.Live(decoded));
    TranslatedUsage(AC.Live(decoded));
  }

  lemma LiveUsage(decoded: seq<A.Upstream>, live: seq<A.Upstream>)
    requires live <= decoded && forall e :: e in decoded[|live|..] ==> ReportsNothing(e)
    ensures DecodedUsage(decoded) == DecodedUsage(live)
  {
    SilentTail(decoded[|live|..]);
    DecodedConcat(live, decoded[|live|..]);
    assert decoded == live + decoded[|live|..];
  }

  // ----- Likewise for a chat body -----

  lemma {:induction false} ChatGlancesConcat(a: seq<C.Upstream>, b: seq<C.Upstream>)
    ensures ChatGlancesOf(a + b) == ChatGlancesOf(a) + ChatGlancesOf(b)
    decreases b
  {
    if b == [] {
      assert a + b == a;
    } else {
      var n := |b| - 1;
      ChatGlancesConcat(a, b[..n]);
      assert (a + b)[..|a + b| - 1] == a + b[..n];
      Assoc(ChatGlancesOf(a), ChatGlancesOf(b[..n]), ChatGlances(b[n]));
    }
  }

  lemma {:induction false} ChatObserverDecodes(events: seq<SR.StreamEvent>)
    ensures GlancesOf(Chat, events) == ChatGlancesOf(C.DecodeAll(events))
  {
    if events != [] {
      ChatObserverDecodes(events[1..]);
      ChatGlancesConcat(C.Decode(events[0]), C.DecodeAll(events[1..]));
    }
  }

  /** The input and output counts read are those of the last usage, the cached count the last one given at all. */
  lemma {:induction false} ChatCounts(es: seq<C.Upstream>)
    ensures var read, last := UsageRead(ChatGlancesOf(es)), H.Reported(es);
            && read.input == (if last.Some? then Some(last.value.prompt) else None)
            && read.output == (if last.Some? then Some(last.value.completion) else None)
            && read.cached == H.LastCached(es)
  {
    if es != [] {
      var n := |es| - 1;
      ChatCounts(es[..n]);
      OneChatGlance(ChatGlancesOf(es[..n]), es[n]);
    }
  }

  lemma OneChatGlance(past: seq<Glance>, e: C.Upstream)
    ensures UsageRead(past + ChatGlances(e)) ==
            if e.UpUsage?
            then MergeReport(UsageRead(past), Report(Some(e.usage.prompt), Some(e.usage.completion), e.usage.cached))
            else UsageRead(past)
  {
    if ChatGlances(e) == [] {
      assert past + ChatGlances(e) == past;
    } else {
      assert ChatGlances(e) == [ChatGlances(e)[0]];
      Snoc(past, ChatGlances(e)[0]);
    }
  }

  lemma {:induction false} QuietTail(live: seq<C.Upstream>, tail: seq<C.Upstream>)
    requires forall e :: e in tail ==> !e.UpUsage?
    ensures H.Reported(live + tail) == H.Reported(live) && H.LastCached(live + tail) == H.LastCached(live)
    decreases tail
  {
    if tail == [] {
      assert live + tail == live;
    } else {
      var n := |tail| - 1;
      QuietTail(live, tail[..n]);
      assert H.Before(live + tail) == live + tail[..n];
      assert tail[n] in tail;
    }
  }

  /** What both translators report for a chat body: its last usage, whole. */
  function Translated(live: seq<C.Upstream>): Report {
    var last := H.Reported(live);
    if last.Some? then Report(Some(last.value.prompt), Some(last.value.completion), last.value.cached) else NO_REPORT
  }

  lemma TranslatorsReport(live: seq<C.Upstream>)
    ensures var usage := T.ToUsage(H.Reported(live)).GetOr(A.NO_USAGE);
            Translated(live) == Report(usage.input, usage.output, usage.cacheRead)
    ensures Translated(live) == RP.ReportOf(TR.MapUsage(H.Reported(live)))
  {
  }

  /**
   * A chat body whose terminator is not followed by usage: forwarded or translated, it is reported with the
   * same input and output counts. The cached counts agree exactly when the last usage gives one or none does,
   * for an observer keeps an earlier count and a translator drops it.
   */
  lemma ChatUsageEitherWay(events: seq<SR.StreamEvent>)
    requires var decoded := C.DecodeAll(events);
             |H.Live(decoded)| <= |decoded| && forall e :: e in decoded[|H.Live(decoded)|..] ==> !e.UpUsage?
    ensures var live := H.Live(C.DecodeAll(events));
            var seen, told := UsageRead(GlancesOf(Chat, events)), Translated(live);
            && seen.input == told.input && seen.output == told.output && seen.cached == H.LastCached(live)
            && (seen.cached == told.cached <==>
                  (H.Reported(live).Some? && H.Reported(live).value.cached.Some?)
                  || forall e :: e in live && e.UpUsage? ==> e.usage.cached.None?)
  {
    var decoded := C.DecodeAll(events);
    var live := H.Live(decoded);
    ChatObserverDecodes(events);
    ChatCounts(decoded);
    H.LiveSplits(decoded);
    LiveReported(decoded, live);
    H.NeverCached(live);
    LastCachedIs(live);
  }

  /** A cached count in the last usage is the last cached count. */
  lemma {:induction false} LastCachedIs(live: seq<C.Upstream>)
    ensures H.Reported(live).Some? && H.Reported(live).value.cached.Some? ==>
              H.LastCached(live) == H.Reported(live).value.cached
    ensures H.Reported(live).None? ==> H.LastCached(live).None?
  {
    if live != [] {
      LastCachedIs(H.Before(live));
    }
  }

  lemma LiveReported(decoded: seq<C.Upstream>, live: seq<C.Upstream>)
    requires live <= decoded && forall e :: e in decoded[|live|..] ==> !e.UpUsage?
    ensures H.Reported(decoded) == H.Reported(live) && H.LastCached(decoded) == H.LastCached(live)
  {
    QuietTail(live, decoded[|live|..]);
    assert decoded == live + decoded[|live|..];
  }

  /** Two usage chunks, only the first of which gives a cached count, and the terminator. */
  function TwoUsages(stamp: C.Stamp, first: C.Usage, second: C.Usage): seq<SR.Record> {
    [C.UsageTrailer(stamp, first)] + [C.UsageTrailer(stamp, second)] + [SR.Terminator]
  }

  lemma TwoUsagesDecode(stamp: C.Stamp, first: C.Usage, second: C.Usage)
    ensures C.DecodeAll(SR.EventsOf(TwoUsages(stamp, first, second))) ==
            [C.UpUsage(first), C.UpUsage(second)] + [C.UpDone]
  {
    var one, two := [C.UsageTrailer(stamp, first)], [C.UsageTrailer(stamp, second)];
    C.TrailerReads(stamp, first);
    C.TrailerReads(stamp, second);
    C.OneReads(one[0]);
    C.OneReads(two[0]);
    C.OneReads(SR.Terminator);
    C.DecodeAppend(one, two);
    C.DecodeAppend(one + two, [SR.Terminator]);
    assert [C.UpUsage(first)] + [C.UpUsage(second)] == [C.UpUsage(first), C.UpUsage(second)];
  }

  lemma TwoUsagesReport(first: C.Usage, second: C.Usage)
    ensures var live := [C.UpUsage(first), C.UpUsage(second)];
            H.Reported(live) == Some(second) && H.LastCached(live) == second.cached.OrElse(first.cached)
  {
    var live := [C.UpUsage(first), C.UpUsage(second)];
    assert H.Before(live) == [C.UpUsage(first)] && H.Before([C.UpUsage(first)]) == [];
    assert H.LastCached([]) == None;
  }

  /** The cached counts of one body can differ: 5 when it is forwarded, none when it is translated. */
  lemma CachedCountsDiffer(stamp: C.Stamp)
    ensures var events := SR.EventsOf(TwoUsages(stamp, C.Usage(1, 1, Some(5), None), C.Usage(1, 1, None, None)));
            && UsageRead(GlancesOf(Chat, events)).cached == Some(5)
            && Translated(H.Live(C.DecodeAll(events))).cached == None
  {
    var first, second := C.Usage(1, 1, Some(5), None), C.Usage(1, 1, None, None);
    TwoUsagesDecode(stamp, first, second);
    H.LiveUntilDone([C.UpUsage(first), C.UpUsage(second)]);
    TwoUsagesReport(first, second);
    ChatUsageEitherWay(SR.EventsOf(TwoUsages(stamp, first, second)));
  }
}
