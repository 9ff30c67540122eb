/** `chatToResponsesStream`: a chat body in chunks in, a Responses transcript out. */
module ChatToResponsesPipeline {
  import opened Base
  import opened Json
  import SR = SseRecords
  import R = ResponsesStream
  import C = ChatStream
  import opened ChatHistory
  import opened ChatToResponses
  import opened StreamCapture
  import opened StreamPipeline

  ghost function Text(encoder: R.ResponsesSseEncoder, run: seq<R.Accepted>): string {
    SR.RenderAll(encoder.codec, R.RecordsOf(run, encoder.deps))
  }

  lemma TextAppend(encoder: R.ResponsesSseEncoder, a: seq<R.Accepted>, b: seq<R.Accepted>)
    ensures Text(encoder, a + b) == Text(encoder, a) + Text(encoder, b)
  {
    R.RecordsAppend(a, b, encoder.deps);
    SR.RenderAppend(encoder.codec, R.RecordsOf(a, encoder.deps), R.RecordsOf(b, encoder.deps));
  }

  /** Encode a run of events the encoder accepts, piece by piece. */
  method EncodeEvents(encoder: R.ResponsesSseEncoder, script: seq<R.Event>) returns (out: seq<string>)
    requires Run(R.Step, R.Machine(encoder.State(), encoder.deps), script).Ok?
    modifies encoder
    ensures R.Machine(encoder.State(), encoder.deps) ==
            Run(R.Step, R.Machine(old(encoder.State()), encoder.deps), script).value.state
    ensures Flatten(out) == Text(encoder, Run(R.Step, R.Machine(old(encoder.State()), encoder.deps), script).value.out)
  {
    out := [];
    ghost var s := R.Machine(encoder.State(), encoder.deps);
    ghost var total := Run(R.Step, s, script).value;
    ghost var done: seq<R.Accepted> := [];
    assert script[0..] == script && [] + total.out == total.out;
    for i := 0 to |script|
      invariant Flatten(out) == Text(encoder, done)
      invariant Writes(R.Step, R.Machine(encoder.State(), encoder.deps), script[i..], done, total.out)
      invariant Run(R.Step, R.Machine(encoder.State(), encoder.deps), script[i..]).value.state == total.state
    {
      ghost var first := R.Step(R.Machine(encoder.State(), encoder.deps), script[i]);
      RunOne(R.Step, R.Machine(encoder.State(), encoder.deps), script[i..]);
      assert script[i..][1..] == script[i + 1..];
      ghost var before := encoder.State();
      var text := encoder.Encode(script[i]);
      Assoc(done, first.value.out, Run(R.Step, first.value.state, script[i + 1..]).value.out);
      R.OneMore(encoder.codec, done, R.Accepted(before, script[i]), encoder.deps);
      FlattenSnoc(out, text.value);
      out, done := out + [text.value], done + first.value.out;
    }
    assert script[|script|..] == [] && done + [] == done;
  }

  /** The usage the translator ends up with is the last the upstream reported before its terminator. */
  lemma UsageIs(model: string, events: seq<C.Upstream>)
    ensures Feed(Push, Initial(model), events).state.usage == Reported(Live(events))
  {
    var live := Live(events);
    var fed := Feed(Push, Initial(model), live);
    LiveSplits(events);
    LiveTracks(model, events);
    if C.UpDone in events {
      var rest := SplitAtDone(events);
      var finish := Push(fed.state, C.UpDone);
      FinishedIsSilent(finish.state, rest);
      FeedStops(Push, Initial(model), live, C.UpDone, rest);
    }
  }

  /** What is still to come is accepted, and completes what is to be written. */
  ghost predicate Relays(t: State, e: R.Machine, events: seq<C.Upstream>, done: seq<R.Accepted>,
                         total: seq<R.Accepted>) {
    Writes(R.Step, e, Remaining(Push, End, t, events), done, total)
  }

  /** One event: noted, translated and encoded. */
  method Turn(translator: ChatToResponsesTranslator, encoder: R.ResponsesSseEncoder,
              captured: ResponseAccumulator, events: seq<C.Upstream>, ghost done: seq<R.Accepted>,
              ghost total: seq<R.Accepted>)
    returns (texts: seq<string>, ghost now: seq<R.Accepted>)
    requires events != [] && captured.Valid()
    requires Relays(translator.Fields(), R.Machine(encoder.State(), encoder.deps), events, done, total)
    modifies translator, encoder, captured
    ensures captured.Valid()
    ensures captured.Fields() == if ChatNote(events[0]) == [] then old(captured.Fields())
                                 else Noted(old(captured.Fields()), ChatNote(events[0])[0])
    ensures translator.Fields() == Push(old(translator.Fields()), events[0]).state
    ensures Relays(translator.Fields(), R.Machine(encoder.State(), encoder.deps), events[1..], now, total)
    ensures Text(encoder, done) + Flatten(texts) == Text(encoder, now)
  {
    RelayNext(Push, End, translator.Fields(), events, R.Step, R.Machine(encoder.State(), encoder.deps), done, total);
    captured.Take(ChatNote(events[0]));
    var translated := translator.PushEvent(events[0]);
    ghost var written := Run(R.Step, R.Machine(encoder.State(), encoder.deps), translated).value.out;
    texts := EncodeEvents(encoder, translated);
    TextAppend(encoder, done, written);
    now := done + written;
  }

  lemma Silence(t: State, events: seq<C.Upstream>)
    requires t.finished || events == []
    ensures Remaining(Push, End, t, events) == End(t).out && Feed(Push, t, events).state == t
  {
    if t.finished {
      FinishedIsSilent(t, events);
    }
    RemainingSilent(Push, End, t, events);
  }

  lemma Stops(t: State, e: C.Upstream)
    requires !t.finished
    ensures Push(t, e).state.finished <==> e.UpDone?
    ensures e.UpDone? ==> ChatNote(e) == []
  {
  }

  /** The event loop: it stops at the terminator, or when the upstream does. */
  method Drain(translator: ChatToResponsesTranslator, encoder: R.ResponsesSseEncoder,
               captured: ResponseAccumulator, events: seq<C.Upstream>, ghost total: seq<R.Accepted>)
    returns (out: seq<string>, ghost done: seq<R.Accepted>)
    requires captured.Valid() && captured.Fields() == NOTHING_YET && !translator.finished
    requires Relays(translator.Fields(), R.Machine(encoder.State(), encoder.deps), events, [], total)
    modifies translator, encoder, captured
    ensures Relays(translator.Fields(), R.Machine(encoder.State(), encoder.deps), [], done, total)
    ensures Flatten(out) == Text(encoder, done)
    ensures captured.Fields() == NotedAll(NotesOf(ChatNote, Live(events)))
    ensures translator.Fields() == Feed(Push, old(translator.Fields()), events).state
  {
    ghost var live := Live(events);
    out, done := [], [];
    assert events[0..] == events;
    var i := 0;
    while i < |events|
      invariant 0 <= i <= |events| && !translator.finished && captured.Valid()
      invariant Relays(translator.Fields(), R.Machine(encoder.State(), encoder.deps), events[i..], done, total)
      invariant Flatten(out) == Text(encoder, done)
      invariant NotedUpTo(ChatNote, captured.Fields(), live, i)
      invariant Feed(Push, old(translator.Fields()), events).state == Feed(Push, translator.Fields(), events[i..]).state
    {
      assert events[i..][1..] == events[i + 1..] && events[i..][0] == events[i];
      ghost var held := captured.Fields();
      StillLive(events, live, i);
      Stops(translator.Fields(), events[i]);
      var texts;
      texts, done := Turn(translator, encoder, captured, events[i..], done, total);
      FlattenAppend(out, texts);
      out := out + texts;
      if translator.finished {
        Silence(translator.Fields(), events[i + 1..]);
        Silence(translator.Fields(), []);
        NotedWhole(ChatNote, captured.Fields(), live);
        return;
      }
      NotedNext(ChatNote, held, live, i, captured.Fields());
      i := i + 1;
    }
    assert events[i..] == [];
    AllLive(events, live);
    NotedWhole(ChatNote, captured.Fields(), live);
  }

  lemma Starts(model: string, events: seq<C.Upstream>, deps: R.Deps, total: seq<R.Accepted>)
    requires Run(R.Step, R.Machine(R.INITIAL, deps), Translate(model, events)).Ok?
    requires Run(R.Step, R.Machine(R.INITIAL, deps), Translate(model, events)).value.out == total
    ensures Relays(Initial(model), R.Machine(R.INITIAL, deps), events, [], total)
  {
    assert [] + total == total;
  }

  /** After the loop: the translator closes off whatever is open. */
  method Close(translator: ChatToResponsesTranslator, encoder: R.ResponsesSseEncoder, ghost done: seq<R.Accepted>,
               ghost total: seq<R.Accepted>)
    returns (texts: seq<string>)
    requires Relays(translator.Fields(), R.Machine(encoder.State(), encoder.deps), [], done, total)
    modifies translator, encoder
    ensures translator.usage == old(translator.usage)
    ensures Text(encoder, done) + Flatten(texts) == Text(encoder, total)
  {
    Silence(translator.Fields(), []);
    var last := translator.EndStream();
    ghost var written := Run(R.Step, R.Machine(encoder.State(), encoder.deps), last).value.out;
    texts := EncodeEvents(encoder, last);
    TextAppend(encoder, done, written);
  }

  /** What a client of `chatToResponsesStream` is sent for a whole body. */
  function RelayedAsResponses(c: Codec, model: string, upstream: string, deps: R.Deps): string {
    match R.EncodeStream(Translate(model, C.DecodeAll(SR.Parse(SR.OpenAI, c, upstream))), deps)
    case Err(_) => ""
    case Ok(records) => SR.RenderAll(c, records)
  }

  function ReportOf(usage: Option<R.Usage>): Report {
    match usage
    case None => NO_REPORT
    case Some(u) => Report(Some(u.input), Some(u.output), u.cached)
  }

  /** The relay of decoded events, from a fresh translator and a fresh encoder. */
  method RelayEvents(c: Codec, events: seq<C.Upstream>, model: string, deps: R.Deps,
                     ghost total: seq<R.Accepted>)
    returns (out: seq<string>, completion: Completion)
    requires Relays(Initial(model), R.Machine(R.INITIAL, deps), events, [], total)
    ensures Flatten(out) == SR.RenderAll(c, R.RecordsOf(total, deps))
    ensures var live := Live(events);
            completion == Completion(ReportOf(MapUsage(Reported(live))),
                                     Worth(NotedAll(NotesOf(ChatNote, live))))
  {
    UsageIs(model, events);
    var translator := new ChatToResponsesTranslator(model);
    var encoder := new R.ResponsesSseEncoder(c, deps);
    var captured := new ResponseAccumulator();
    ghost var done: seq<R.Accepted>;
    out, done := Drain(translator, encoder, captured, events, total);
    var texts := Close(translator, encoder, done, total);
    FlattenAppend(out, texts);
    out := out + texts;
    completion := Completion(ReportOf(MapUsage(translator.usage)),
                             Worth(Capture(captured.text, captured.truncated, captured.toolCalls)));
  }

  /**
   * Whatever the chunks hold and wherever they break, no event is rejected, and the client gets exactly
   * the transcript of the whole body's translation; the report is what the body said before its terminator.
   */
  method ChatToResponsesStream(c: Codec, chunks: seq<string>, model: string, deps: R.Deps)
    returns (out: seq<string>, completion: Completion)
    ensures Flatten(out) == RelayedAsResponses(c, model, Flatten(chunks), deps)
    ensures var live := Live(C.DecodeAll(SR.Parse(SR.OpenAI, c, Flatten(chunks))));
            completion == Completion(ReportOf(MapUsage(Reported(live))),
                                     Worth(NotedAll(NotesOf(ChatNote, live))))
  {
    var events := ChatEvents(c, chunks);
    AnyStreamSnapshot(model, events, deps);
    ghost var total := Run(R.Step, R.Machine(R.INITIAL, deps), Translate(model, events)).value.out;
    Starts(model, events, deps, total);
    out, completion := RelayEvents(c, events, model, deps, total);
  }
}
