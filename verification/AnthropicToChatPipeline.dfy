/** `anthropicToChatStream`: an Anthropic body in chunks in, a chat transcript out. */
module AnthropicToChatPipeline {
  import opened Base
  import opened Json
  import SR = SseRecords
  import A = AnthropicStream
  import C = ChatStream
  import opened AnthropicToChat
  import opened StreamCapture
  import opened StreamPipeline

  /** Encode a run of events the encoder accepts, piece by piece. */
  method EncodeEvents(encoder: C.ChatChunkEncoder, script: seq<C.Event>) returns (out: seq<string>)
    requires Run(C.Step, encoder.State(), script).Ok?
    modifies encoder
    ensures encoder.State() == Run(C.Step, old(encoder.State()), script).value.state
    ensures Flatten(out) == SR.RenderAll(encoder.codec, Run(C.Step, old(encoder.State()), script).value.out)
  {
    out := [];
    ghost var s, total := encoder.State(), Run(C.Step, encoder.State(), script).value;
    ghost var done: seq<SR.Record> := [];
    assert script[0..] == script && [] + total.out == total.out;
    for i := 0 to |script|
      invariant Flatten(out) == SR.RenderAll(encoder.codec, done)
      invariant Writes(C.Step, encoder.State(), script[i..], done, total.out)
      invariant Run(C.Step, encoder.State(), script[i..]).value.state == total.state
    {
      ghost var first := C.Step(encoder.State(), script[i]);
      RunOne(C.Step, encoder.State(), script[i..]);
      assert script[i..][1..] == script[i + 1..];
      var text := encoder.Encode(script[i]);
      Assoc(done, first.value.out, Run(C.Step, first.value.state, script[i + 1..]).value.out);
      SR.RenderAppend(encoder.codec, done, first.value.out);
      FlattenSnoc(out, text.value);
      out, done := out + [text.value], done + first.value.out;
    }
    assert script[|script|..] == [] && done + [] == done;
  }

  /** A stop, and whatever follows it, reports no usage. */
  lemma StoppedUsage(model: string, live: seq<A.Upstream>, rest: seq<A.Upstream>, s: State)
    requires s == Feed(Push, Initial(model), live).state && !s.finished
    ensures Feed(Push, Initial(model), live + ([A.UpMessageStop] + rest)).state.usage == s.usage
  {
    var finish := Push(s, A.UpMessageStop);
    FinishedIsSilent(finish.state, rest);
    FeedStops(Push, Initial(model), live, A.UpMessageStop, rest);
  }

  lemma LiveUsage(model: string, live: seq<A.Upstream>)
    requires A.UpMessageStop !in live
    ensures var s := Feed(Push, Initial(model), live).state;
            s.usage == UsageOf(live) && !s.finished
  {
    LiveTracks(model, live);
  }

  /** The usage the translator ends up with is the last the upstream reported before its terminator. */
  lemma UsageIs(model: string, events: seq<A.Upstream>)
    ensures Feed(Push, Initial(model), events).state.usage == UsageOf(Live(events))
  {
    var live := Live(events);
    LiveSplits(events);
    LiveUsage(model, live);
    if A.UpMessageStop in events {
      var rest := events[|live| + 1..];
      assert events == live + ([A.UpMessageStop] + rest);
      StoppedUsage(model, live, rest, Feed(Push, Initial(model), live).state);
    }
  }

  /** What is still to come is accepted, and completes what is to be written. */
  ghost predicate Relays(t: State, e: C.EncoderState, events: seq<A.Upstream>, done: seq<SR.Record>,
                         total: seq<SR.Record>) {
    Writes(C.Step, e, Remaining(Push, End, t, events), done, total)
  }

  /** One event: noted, translated and encoded. */
  method Turn(translator: AnthropicToChatTranslator, encoder: C.ChatChunkEncoder,
              captured: ResponseAccumulator, events: seq<A.Upstream>, ghost done: seq<SR.Record>,
              ghost total: seq<SR.Record>)
    returns (texts: seq<string>, ghost now: seq<SR.Record>)
    requires events != [] && captured.Valid()
    requires Relays(translator.Fields(), encoder.State(), events, done, total)
    modifies translator, encoder, captured
    ensures captured.Valid()
    ensures captured.Fields() == if AnthropicNote(events[0]) == [] then old(captured.Fields())
                                 else Noted(old(captured.Fields()), AnthropicNote(events[0])[0])
    ensures translator.Fields() == Push(old(translator.Fields()), events[0]).state
    ensures Relays(translator.Fields(), encoder.State(), events[1..], now, total)
    ensures SR.RenderAll(encoder.codec, done) + Flatten(texts) == SR.RenderAll(encoder.codec, now)
  {
    RelayNext(Push, End, translator.Fields(), events, C.Step, encoder.State(), done, total);
    captured.Take(AnthropicNote(events[0]));
    var translated := translator.PushEvent(events[0]);
    ghost var written := Run(C.Step, encoder.State(), translated).value.out;
    texts := EncodeEvents(encoder, translated);
    SR.RenderAppend(encoder.codec, done, written);
    now := done + written;
  }

  lemma Silence(t: State, events: seq<A.Upstream>)
    requires t.finished || events == []
    ensures Remaining(Push, End, t, events) == End(t).out && Feed(Push, t, events).state == t
  {
    if t.finished {
      FinishedIsSilent(t, events);
    }
    RemainingSilent(Push, End, t, events);
  }

  lemma Stops(t: State, e: A.Upstream)
    requires !t.finished
    ensures Push(t, e).state.finished <==> e.UpMessageStop?
    ensures e.UpMessageStop? ==> AnthropicNote(e) == []
  {
  }

  /** The first `i` events were live; the next is live too unless it is the terminator. */
  lemma StillLive(events: seq<A.Upstream>, live: seq<A.Upstream>, i: nat)
    requires live == Live(events) && i <= |live| && i < |events|
    ensures if events[i].UpMessageStop? then i == |live| else i < |live| && live[i] == events[i]
  {
    LiveSplits(events);
  }

  /** The event loop: it stops at the terminator, or when the upstream does. */
  method Drain(translator: AnthropicToChatTranslator, encoder: C.ChatChunkEncoder,
               captured: ResponseAccumulator, events: seq<A.Upstream>, ghost total: seq<SR.Record>)
    returns (out: seq<string>, ghost done: seq<SR.Record>)
    requires captured.Valid() && captured.Fields() == NOTHING_YET && !translator.finished
    requires Relays(translator.Fields(), encoder.State(), events, [], total)
    modifies translator, encoder, captured
    ensures Relays(translator.Fields(), encoder.State(), [], done, total)
    ensures Flatten(out) == SR.RenderAll(encoder.codec, done)
    ensures captured.Fields() == NotedAll(NotesOf(AnthropicNote, Live(events)))
    ensures translator.Fields() == Feed(Push, old(translator.Fields()), events).state
  {
    ghost var live := Live(events);
    out, done := [], [];
    assert events[0..] == events;
    var i := 0;
    while i < |events|
      invariant 0 <= i <= |events| && !translator.finished && captured.Valid()
      invariant Relays(translator.Fields(), encoder.State(), events[i..], done, total)
      invariant Flatten(out) == SR.RenderAll(encoder.codec, done)
      invariant NotedUpTo(AnthropicNote, captured.Fields(), live, i)
      invariant Feed(Push, old(translator.Fields()), events).state == Feed(Push, translator.Fields(), events[i..]).state
    {
      assert events[i..][1..] == events[i + 1..] && events[i..][0] == events[i];
      ghost var held := captured.Fields();
      StillLive(events, live, i);
      Stops(translator.Fields(), events[i]);
      var texts;
      texts, done := Turn(translator, encoder, captured, events[i..], done, total);
      FlattenAppend(out, texts);
      out := out + texts;
      if translator.finished {
        Silence(translator.Fields(), events[i + 1..]);
        Silence(translator.Fields(), []);
        NotedWhole(AnthropicNote, captured.Fields(), live);
        return;
      }
      NotedNext(AnthropicNote, held, live, i, captured.Fields());
      i := i + 1;
    }
    assert events[i..] == [];
    AllLive(events, live);
    NotedWhole(AnthropicNote, captured.Fields(), live);
  }

  lemma AllLive(events: seq<A.Upstream>, live: seq<A.Upstream>)
    requires live == Live(events) && |events| <= |live|
    ensures live == events
  {
    LiveSplits(events);
  }

  lemma Starts(model: string, events: seq<A.Upstream>, chatId: string, nowSec: int, total: seq<SR.Record>)
    requires C.EncodeStream(Translate(model, events), chatId, nowSec) == Ok(total)
    ensures Relays(Initial(model), C.Initial(chatId, nowSec), events, [], total)
  {
    assert [] + total == total;
  }

  /** After the loop: the translator closes off whatever is open. */
  method Close(translator: AnthropicToChatTranslator, encoder: C.ChatChunkEncoder, ghost done: seq<SR.Record>,
               ghost total: seq<SR.Record>)
    returns (texts: seq<string>)
    requires Relays(translator.Fields(), encoder.State(), [], done, total)
    modifies translator, encoder
    ensures translator.usage == old(translator.usage)
    ensures SR.RenderAll(encoder.codec, done) + Flatten(texts) == SR.RenderAll(encoder.codec, total)
  {
    Silence(translator.Fields(), []);
    var last := translator.EndStream();
    ghost var written := Run(C.Step, encoder.State(), last).value.out;
    texts := EncodeEvents(encoder, last);
    SR.RenderAppend(encoder.codec, done, written);
  }

  /** What a client of `anthropicToChatStream` is sent for a whole body. */
  function RelayedAsChat(c: Codec, model: string, upstream: string, chatId: string, nowSec: int): string {
    match C.EncodeStream(Translate(model, A.DecodeAll(SR.Parse(SR.Anthropic, c, upstream))), chatId, nowSec)
    case Err(_) => ""
    case Ok(records) => SR.RenderAll(c, records)
  }

  /** The relay of decoded events, from a fresh translator and a fresh encoder. */
  method RelayEvents(c: Codec, events: seq<A.Upstream>, model: string, chatId: string, nowSec: int,
                     ghost total: seq<SR.Record>)
    returns (out: seq<string>, completion: Completion)
    requires Relays(Initial(model), C.Initial(chatId, nowSec), events, [], total)
    ensures Flatten(out) == SR.RenderAll(c, total)
    ensures var live := Live(events);
            var usage := ToChatUsage(UsageOf(live));
            completion == Completion(Report(Some(usage.prompt), Some(usage.completion), usage.cached),
                                     Worth(NotedAll(NotesOf(AnthropicNote, live))))
  {
    UsageIs(model, events);
    var translator := new AnthropicToChatTranslator(model);
    var encoder := new C.ChatChunkEncoder(c, chatId, nowSec);
    var captured := new ResponseAccumulator();
    ghost var done: seq<SR.Record>;
    out, done := Drain(translator, encoder, captured, events, total);
    var texts := Close(translator, encoder, done, total);
    FlattenAppend(out, texts);
    out := out + texts;
    var usage := ToChatUsage(translator.usage);
    completion := Completion(Report(Some(usage.prompt), Some(usage.completion), usage.cached),
                             Worth(Capture(captured.text, captured.truncated, captured.toolCalls)));
  }

  /**
   * Whatever the chunks hold and wherever they break, no event is rejected, and the client gets exactly
   * the transcript of the whole body's translation; the report is what the body said before its terminator.
   */
  method AnthropicToChatStream(c: Codec, chunks: seq<string>, model: string, chatId: string, nowSec: int)
    returns (out: seq<string>, completion: Completion)
    ensures Flatten(out) == RelayedAsChat(c, model, Flatten(chunks), chatId, nowSec)
    ensures var live := Live(A.DecodeAll(SR.Parse(SR.Anthropic, c, Flatten(chunks))));
            var usage := ToChatUsage(UsageOf(live));
            completion == Completion(Report(Some(usage.prompt), Some(usage.completion), usage.cached),
                                     Worth(NotedAll(NotesOf(AnthropicNote, live))))
  {
    var events := AnthropicEvents(c, chunks);
    TranslationEncodes(model, events, chatId, nowSec);
    ghost var total := C.EncodeStream(Translate(model, events), chatId, nowSec).value;
    Starts(model, events, chatId, nowSec, total);
    out, completion := RelayEvents(c, events, model, chatId, nowSec, total);
  }
}
