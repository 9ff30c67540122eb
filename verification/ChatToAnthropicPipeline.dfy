/** `chatToAnthropicStream`: a chat body in chunks in, an Anthropic transcript out. */
module ChatToAnthropicPipeline {
  import opened Base
  import opened Json
  import SR = SseRecords
  import A = AnthropicStream
  import C = ChatStream
  import opened ChatHistory
  import opened ChatToAnthropic
  import opened ChatRoundTrip
  import opened StreamCapture
  import opened StreamPipeline

  /** Encode a run of events the encoder accepts, piece by piece. */
  method EncodeEvents(encoder: A.AnthropicSseEncoder, script: seq<A.Event>) returns (out: seq<string>)
    requires Run(A.Step, encoder.State(), script).Ok?
    modifies encoder
    ensures encoder.State() == Run(A.Step, old(encoder.State()), script).value.state
    ensures Flatten(out) == SR.RenderAll(encoder.codec, Run(A.Step, old(encoder.State()), script).value.out)
  {
    out := [];
    ghost var s, total := encoder.State(), Run(A.Step, encoder.State(), script).value;
    ghost var done: seq<SR.Record> := [];
    assert script[0..] == script && [] + total.out == total.out;
    for i := 0 to |script|
      invariant Flatten(out) == SR.RenderAll(encoder.codec, done)
      invariant Writes(A.Step, encoder.State(), script[i..], done, total.out)
      invariant Run(A.Step, encoder.State(), script[i..]).value.state == total.state
    {
      ghost var first := A.Step(encoder.State(), script[i]);
      RunOne(A.Step, encoder.State(), script[i..]);
      assert script[i..][1..] == script[i + 1..];
      var text := encoder.Encode(script[i]);
      Assoc(done, first.value.out, Run(A.Step, first.value.state, script[i + 1..]).value.out);
      SR.RenderAppend(encoder.codec, done, first.value.out);
      FlattenSnoc(out, text.value);
      out, done := out + [text.value], done + first.value.out;
    }
    assert script[|script|..] == [] && done + [] == done;
  }

  /** The usage the translator ends up with is the last the upstream reported before its terminator. */
  lemma UsageIs(model: string, events: seq<C.Upstream>)
    ensures Feed(Push, Initial(model), events).state.usage == Reported(Live(events))
  {
    var live := Live(events);
    var fed := Feed(Push, Initial(model), live);
    LiveSplits(events);
    LiveTracks(model, live);
    if C.UpDone in events {
      var rest := SplitAtDone(events);
      var finish := Push(fed.state, C.UpDone);
      FinishedIsSilent(finish.state, rest);
      FeedStops(Push, Initial(model), live, C.UpDone, rest);
    }
  }

  /** What is still to come is accepted, and completes what is to be written. */
  ghost predicate Relays(t: State, e: A.EncoderState, events: seq<C.Upstream>, done: seq<SR.Record>,
                         total: seq<SR.Record>) {
    Writes(A.Step, e, Remaining(Push, End, t, events), done, total)
  }

  /** One event: noted, translated and encoded. */
  method Turn(translator: ChatToAnthropicTranslator, encoder: A.AnthropicSseEncoder,
              captured: ResponseAccumulator, events: seq<C.Upstream>, ghost done: seq<SR.Record>,
              ghost total: seq<SR.Record>)
    returns (texts: seq<string>, ghost now: seq<SR.Record>)
    requires events != [] && captured.Valid()
    requires Relays(translator.Fields(), encoder.State(), events, done, total)
    modifies translator, encoder, captured
    ensures captured.Valid()
    ensures captured.Fields() == if ChatNote(events[0]) == [] then old(captured.Fields())
                                 else Noted(old(captured.Fields()), ChatNote(events[0])[0])
    ensures translator.Fields() == Push(old(translator.Fields()), events[0]).state
    ensures Relays(translator.Fields(), encoder.State(), events[1..], now, total)
    ensures SR.RenderAll(encoder.codec, done) + Flatten(texts) == SR.RenderAll(encoder.codec, now)
  {
    RelayNext(Push, End, translator.Fields(), events, A.Step, encoder.State(), done, total);
    captured.Take(ChatNote(events[0]));
    var translated := translator.PushEvent(events[0]);
    ghost var written := Run(A.Step, encoder.State(), translated).value.out;
    texts := EncodeEvents(encoder, translated);
    SR.RenderAppend(encoder.codec, done, written);
    now := done + written;
  }

  lemma Silence(t: State, events: seq<C.Upstream>)
    requires t.finished || events == []
    ensures Remaining(Push, End, t, events) == End(t).out && Feed(Push, t, events).state == t
  {
    if t.finished {
      FinishedIsSilent(t, events);
    }
    RemainingSilent(Push, End, t, events);
  }

  lemma Stops(t: State, e: C.Upstream)
    requires !t.finished
    ensures Push(t, e).state.finished <==> e.UpDone?
    ensures e.UpDone? ==> ChatNote(e) == []
  {
  }

  /** The event loop: it stops at the terminator, or when the upstream does. */
  method Drain(translator: ChatToAnthropicTranslator, encoder: A.AnthropicSseEncoder,
               captured: ResponseAccumulator, events: seq<C.Upstream>, ghost total: seq<SR.Record>)
    returns (out: seq<string>, ghost done: seq<SR.Record>)
    requires captured.Valid() && captured.Fields() == NOTHING_YET && !translator.finished
    requires Relays(translator.Fields(), encoder.State(), events, [], total)
    modifies translator, encoder, captured
    ensures Relays(translator.Fields(), encoder.State(), [], done, total)
    ensures Flatten(out) == SR.RenderAll(encoder.codec, done)
    ensures captured.Fields() == NotedAll(NotesOf(ChatNote, Live(events)))
    ensures translator.Fields() == Feed(Push, old(translator.Fields()), events).state
  {
    ghost var live := Live(events);
    out, done := [], [];
    assert events[0..] == events;
    var i := 0;
    while i < |events|
      invariant 0 <= i <= |events| && !translator.finished && captured.Valid()
      invariant Relays(translator.Fields(), encoder.State(), events[i..], done, total)
      invariant Flatten(out) == SR.RenderAll(encoder.codec, done)
      invariant NotedUpTo(ChatNote, captured.Fields(), live, i)
      invariant Feed(Push, old(translator.Fields()), events).state == Feed(Push, translator.Fields(), events[i..]).state
    {
      assert events[i..][1..] == events[i + 1..] && events[i..][0] == events[i];
      ghost var held := captured.Fields();
      StillLive(events, live, i);
      Stops(translator.Fields(), events[i]);
      var texts;
      texts, done := Turn(translator, encoder, captured, events[i..], done, total);
      FlattenAppend(out, texts);
      out := out + texts;
      if translator.finished {
        Silence(translator.Fields(), events[i + 1..]);
        Silence(translator.Fields(), []);
        NotedWhole(ChatNote, captured.Fields(), live);
        return;
      }
      NotedNext(ChatNote, held, live, i, captured.Fields());
      i := i + 1;
    }
    assert events[i..] == [];
    AllLive(events, live);
    NotedWhole(ChatNote, captured.Fields(), live);
  }

  lemma Starts(model: string, events: seq<C.Upstream>, msgId: string, total: seq<SR.Record>)
    requires A.EncodeStream(Translate(model, events), msgId) == Ok(total)
    ensures Relays(Initial(model), A.Initial(msgId), events, [], total)
  {
    assert [] + total == total;
  }

  /** After the loop: the translator closes off whatever is open. */
  method Close(translator: ChatToAnthropicTranslator, encoder: A.AnthropicSseEncoder, ghost done: seq<SR.Record>,
               ghost total: seq<SR.Record>)
    returns (texts: seq<string>)
    requires Relays(translator.Fields(), encoder.State(), [], done, total)
    modifies translator, encoder
    ensures translator.usage == old(translator.usage)
    ensures SR.RenderAll(encoder.codec, done) + Flatten(texts) == SR.RenderAll(encoder.codec, total)
  {
    Silence(translator.Fields(), []);
    var last := translator.EndStream();
    ghost var written := Run(A.Step, encoder.State(), last).value.out;
    texts := EncodeEvents(encoder, last);
    SR.RenderAppend(encoder.codec, done, written);
  }

  /** The relay of decoded events, from a fresh translator and a fresh encoder. */
  method RelayEvents(c: Codec, events: seq<C.Upstream>, model: string, msgId: string,
                     ghost total: seq<SR.Record>)
    returns (out: seq<string>, completion: Completion)
    requires Relays(Initial(model), A.Initial(msgId), events, [], total)
    ensures Flatten(out) == SR.RenderAll(c, total)
    ensures var live := Live(events);
            var usage := ToUsage(Reported(live)).GetOr(A.NO_USAGE);
            completion == Completion(Report(usage.input, usage.output, usage.cacheRead),
                                     Worth(NotedAll(NotesOf(ChatNote, live))))
  {
    UsageIs(model, events);
    var translator := new ChatToAnthropicTranslator(model);
    var encoder := new A.AnthropicSseEncoder(c, msgId);
    var captured := new ResponseAccumulator();
    ghost var done: seq<SR.Record>;
    out, done := Drain(translator, encoder, captured, events, total);
    var texts := Close(translator, encoder, done, total);
    FlattenAppend(out, texts);
    out := out + texts;
    var usage := ToUsage(translator.usage).GetOr(A.NO_USAGE);
    completion := Completion(Report(usage.input, usage.output, usage.cacheRead),
                             Worth(Capture(captured.text, captured.truncated, captured.toolCalls)));
  }

  /**
   * Whatever the chunks hold and wherever they break, no event is rejected, and the client gets exactly
   * the transcript of the whole body's translation; the report is what the body said before its terminator.
   */
  method ChatToAnthropicStream(c: Codec, chunks: seq<string>, model: string, msgId: string)
    returns (out: seq<string>, completion: Completion)
    ensures Flatten(out) == Relayed(c, model, Flatten(chunks), msgId)
    ensures var live := Live(C.DecodeAll(SR.Parse(SR.OpenAI, c, Flatten(chunks))));
            var usage := ToUsage(Reported(live)).GetOr(A.NO_USAGE);
            completion == Completion(Report(usage.input, usage.output, usage.cacheRead),
                                     Worth(NotedAll(NotesOf(ChatNote, live))))
  {
    var events := ChatEvents(c, chunks);
    TranslationEncodes(model, events, msgId);
    ghost var total := A.EncodeStream(Translate(model, events), msgId).value;
    Starts(model, events, msgId, total);
    out, completion := RelayEvents(c, events, model, msgId, total);
  }

  lemma NoteSays(notes: seq<Note>, e: C.Upstream)
    ensures StreamCapture.Said(notes + ChatNote(e)) == StreamCapture.Said(notes) + ChatToAnthropic.Said(e, false)
  {
    if ChatNote(e) == [] {
      assert notes + [] == notes && StreamCapture.Said(notes) + "" == StreamCapture.Said(notes);
    } else {
      SaidMore(notes, ChatNote(e)[0]);
      assert notes + ChatNote(e) == notes + [ChatNote(e)[0]];
    }
  }

  lemma {:induction false} NotesSay(live: seq<C.Upstream>, notes: seq<Note>)
    requires notes == NotesOf(ChatNote, live)
    ensures StreamCapture.Said(notes) == SaidIn(live, false)
    decreases live
  {
    if live != [] {
      var before := NotesOf(ChatNote, Before(live));
      NotesSay(Before(live), before);
      NoteSays(before, live[|live| - 1]);
    }
  }

  lemma SaidMore(notes: seq<Note>, note: Note)
    ensures StreamCapture.Said(notes + [note]) ==
            StreamCapture.Said(notes) + match note case TextNote(text) => text case _ => ""
  {
    assert (notes + [note])[..|notes|] == notes;
  }

  /** The history log holds exactly the text the client was sent, cut at the cap. */
  lemma LogHoldsClientText(model: string, events: seq<C.Upstream>)
    ensures NotedAll(NotesOf(ChatNote, Live(events))).text == Cap(TextIn(Translate(model, events), false))
  {
    CaptureIs(NotesOf(ChatNote, Live(events)));
    NotesSay(Live(events), NotesOf(ChatNote, Live(events)));
    TextIsForwarded(model, events, false);
  }
}
