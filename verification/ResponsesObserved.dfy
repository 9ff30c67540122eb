/**
 * A Responses transcript over the wire: its records parse back, and the observer of a forwarded stream reads out of
 * them the text that was streamed and the usage the stream ended with.
 */
module ResponsesObserved {
  import opened Base
  import opened Json
  import opened SseRecords
  import opened ResponsesStream
  import opened ResponsesReading
  import opened StreamCapture
  import opened StreamPipeline
  import opened VerbatimStream

  /** The text a script streams, joined. */
  function Streamed(script: seq<Event>): string {
    if script == [] then ""
    else (if script[0].TextDelta? then script[0].text else "") + Streamed(script[1..])
  }

  /** What is to be observed of one event. */
  function Expected(e: Event): seq<Glance> {
    match e
    case TextDelta(text) => [Noticed(TextNote(text))]
    case ResponseDone(_, Some(u), _, _) =>
      [Counted(Report(Some(u.input), Some(u.output), Some(if u.cached.Some? then u.cached.value else 0)))]
    case _ => []
  }

  function ExpectedOf(script: seq<Event>): seq<Glance> {
    if script == [] then [] else Expected(script[0]) + ExpectedOf(script[1..])
  }

  // ----- One record -----

  lemma StampHolds(f: Frame, n: nat, key: string)
    requires key != "type" && key != "sequence_number"
    ensures Prop(Some(Stamp(f, n).data), key) == if key in f.data then Some(f.data[key]) else None
  {
  }

  lemma SilentRecord(f: Frame, n: nat)
    requires f.kind != "response.output_text.delta" && "response" !in f.data
    ensures ResponsesGlances(EventOf(Stamp(f, n))) == []
  {
    StampHolds(f, n, "response");
  }

  lemma TextRecord(f: Frame, n: nat, text: string)
    requires f.kind == "response.output_text.delta" && "response" !in f.data
    requires "delta" in f.data && f.data["delta"] == Str(text)
    ensures ResponsesGlances(EventOf(Stamp(f, n))) == [Noticed(TextNote(text))]
  {
    StampHolds(f, n, "response");
    StampHolds(f, n, "delta");
  }

  lemma EnvelopeRecord(f: Frame, n: nat, id: string, r: ResponseResult, items: seq<Json>, deps: Deps)
    requires f.kind != "response.output_text.delta"
    requires "response" in f.data && f.data["response"] == Envelope(id, r, items, deps)
    ensures ResponsesGlances(EventOf(Stamp(f, n))) ==
            if r.usage.None? then []
            else [Counted(Report(Some(r.usage.value.input), Some(r.usage.value.output),
                                 Some(r.usage.value.cached.GetOr(0))))]
  {
    StampHolds(f, n, "response");
    UsageOfEnvelope(id, r, items, deps);
    if r.usage.Some? {
      CountsRead(r.usage.value);
    }
  }

  lemma UsageOfEnvelope(id: string, r: ResponseResult, items: seq<Json>, deps: Deps)
    ensures Prop(Some(Envelope(id, r, items, deps)), "usage") ==
            if r.usage.Some? then Some(RenderUsage(r.usage.value)) else None
  {
    if r.usage.None? {
      UsageNotOwn(id, r, items, deps.createdAt);
      UsageNotEchoed(deps.echo);
    }
  }

  lemma CountsRead(u: Usage)
    ensures var usage := Some(RenderUsage(u));
            && NumProp(usage, "input_tokens") == Some(u.input) && NumProp(usage, "output_tokens") == Some(u.output)
            && NumProp(Prop(usage, "input_tokens_details"), "cached_tokens") == Some(u.cached.GetOr(0))
  {
  }

  // ----- One event -----

  /** The glances of some frames that are stamped in turn. */
  function GlancesAt(frames: seq<Frame>, n: nat): seq<Glance> {
    if frames == [] then [] else ResponsesGlances(EventOf(Stamp(frames[0], n))) + GlancesAt(frames[1..], n + 1)
  }

  lemma {:induction false} StampedGlances(frames: seq<Frame>, n: nat)
    ensures GlancesOf(Responses, EventsOf(StampAll(frames, n))) == GlancesAt(frames, n)
    decreases frames
  {
    if frames != [] {
      StampedGlances(frames[1..], n + 1);
      assert StampAll(frames, n)[1..] == StampAll(frames[1..], n + 1);
      assert EventsOf(StampAll(frames, n))[1..] == EventsOf(StampAll(frames[1..], n + 1));
    }
  }

  lemma {:induction false} AllSilent(frames: seq<Frame>, n: nat)
    requires forall f :: f in frames ==> f.kind != "response.output_text.delta" && "response" !in f.data
    ensures GlancesAt(frames, n) == []
    decreases frames
  {
    if frames != [] {
      assert frames[0] in frames;
      SilentRecord(frames[0], n);
      AllSilent(frames[1..], n + 1);
    }
  }

  lemma OneAt(f: Frame, n: nat)
    ensures GlancesAt([f], n) == ResponsesGlances(EventOf(Stamp(f, n)))
  {
    AppendNone(ResponsesGlances(EventOf(Stamp(f, n))));
    assert [f][1..] == [];
  }

  lemma ItemFramesSilent(s: EncoderState, e: Event, deps: Deps)
    requires Violation(s, e).None? && (e.ItemStart? || e.ItemStop? || e.ArgumentsDelta?)
    ensures forall f :: f in Frames(s, After(s, e, deps), e, deps) ==>
              f.kind != "response.output_text.delta" && "response" !in f.data
  {
  }

  lemma CreatedGlances(s: EncoderState, e: Event, deps: Deps, n: nat)
    requires Violation(s, e).None? && e.ResponseCreated?
    ensures GlancesAt(Frames(s, After(s, e, deps), e, deps), n) == []
  {
    var t := After(s, e, deps);
    var frames := Frames(s, t, e, deps);
    EnvelopeRecord(frames[0], n, t.responseId, InProgressResult(t), t.items, deps);
    EnvelopeRecord(frames[1], n + 1, t.responseId, InProgressResult(t), t.items, deps);
    OneAt(frames[1], n + 1);
    assert frames[1..] == [frames[1]];
  }

  lemma DoneGlances(s: EncoderState, e: Event, deps: Deps, n: nat)
    requires Violation(s, e).None? && e.ResponseDone?
    ensures GlancesAt(Frames(s, After(s, e, deps), e, deps), n) == Expected(e)
  {
    var t := After(s, e, deps);
    var frames := Frames(s, t, e, deps);
    EnvelopeRecord(frames[0], n, t.responseId, FinalResult(t, e), t.items, deps);
    OneAt(frames[0], n);
    assert frames == [frames[0]];
  }

  lemma EventGlances(s: EncoderState, e: Event, deps: Deps)
    requires Violation(s, e).None?
    ensures GlancesOf(Responses, EventsOf(Records(Accepted(s, e), deps))) == Expected(e)
  {
    var frames := Frames(s, After(s, e, deps), e, deps);
    StampedGlances(frames, s.sequence);
    if e.ResponseCreated? {
      CreatedGlances(s, e, deps, s.sequence);
    } else if e.ResponseDone? {
      DoneGlances(s, e, deps, s.sequence);
    } else if e.TextDelta? {
      TextRecord(frames[0], s.sequence, e.text);
      OneAt(frames[0], s.sequence);
      assert frames == [frames[0]];
    } else {
      ItemFramesSilent(s, e, deps);
      AllSilent(frames, s.sequence);
    }
  }

  // ----- A whole transcript -----

  lemma {:induction false} EventsAppend(a: seq<Record>, b: seq<Record>)
    ensures EventsOf(a + b) == EventsOf(a) + EventsOf(b)
  {
    if a == [] {
      assert a + b == b;
    } else {
      HeadFirst(a, b);
      EventsAppend(a[1..], b);
    }
  }

  lemma {:induction false} RunGlances(m: Machine, script: seq<Event>, run: seq<Accepted>)
    requires Run(Step, m, script).Ok? && run == Run(Step, m, script).value.out
    ensures GlancesOf(Responses, EventsOf(RecordsOf(run, m.deps))) == ExpectedOf(script)
    decreases script
  {
    if script != [] {
      RunOne(Step, m, script);
      var next := Step(m, script[0]).value.state;
      var first, rest := Accepted(m.state, script[0]), Run(Step, next, script[1..]).value.out;
      RunGlances(next, script[1..], rest);
      EventGlances(m.state, script[0], m.deps);
      assert run == [first] + rest && run[1..] == rest;
      EventsAppend(Records(first, m.deps), RecordsOf(rest, m.deps));
      GlancesConcat(Responses, EventsOf(Records(first, m.deps)), EventsOf(RecordsOf(rest, m.deps)));
    }
  }

  lemma {:induction false} NotesJoin(a: seq<Glance>, b: seq<Glance>)
    ensures NotesRead(a + b) == NotesRead(a) + NotesRead(b)
    decreases b
  {
    if b == [] {
      AppendNone(a);
      AppendNone(NotesRead(a));
    } else {
      var n := |b| - 1;
      assert (a + b)[..|a + b| - 1] == a + b[..n] && (a + b)[|a + b| - 1] == b[n];
      NotesJoin(a, b[..n]);
      Assoc(NotesRead(a), NotesRead(b[..n]), match b[n] case Noticed(note) => [note] case Counted(_) => []);
    }
  }

  lemma {:induction false} SaidJoins(a: seq<Note>, b: seq<Note>)
    ensures Said(a + b) == Said(a) + Said(b)
    decreases b
  {
    if b == [] {
      AppendNone(a);
      AppendNone(Said(a));
    } else {
      var n := |b| - 1;
      assert (a + b)[..|a + b| - 1] == a + b[..n] && (a + b)[|a + b| - 1] == b[n];
      SaidJoins(a, b[..n]);
      Assoc(Said(a), Said(b[..n]), match b[n] case TextNote(text) => text case _ => "");
    }
  }

  lemma {:induction false} ExpectedSays(script: seq<Event>)
    ensures Said(NotesRead(ExpectedOf(script))) == Streamed(script)
  {
    if script != [] {
      ExpectedSays(script[1..]);
      NotesJoin(Expected(script[0]), ExpectedOf(script[1..]));
      SaidJoins(NotesRead(Expected(script[0])), NotesRead(ExpectedOf(script[1..])));
      OneSays(script[0]);
    }
  }

  lemma OneSays(e: Event)
    ensures Said(NotesRead(Expected(e))) == if e.TextDelta? then e.text else ""
  {
    if e.TextDelta? {
      OneNote(TextNote(e.text));
    } else if Expected(e) != [] {
      NoNote(Expected(e)[0]);
      assert Expected(e) == [Expected(e)[0]];
    }
  }

  lemma OneNote(note: Note)
    requires note.TextNote?
    ensures Said(NotesRead([Noticed(note)])) == note.text
  {
    var one: seq<Glance> := [Noticed(note)];
    assert one[..0] == [] && NotesRead(one) == NotesRead([]) + [note] == [note];
    assert [note][..0] == [] && Said([note]) == Said([]) + note.text;
  }

  lemma NoNote(g: Glance)
    requires g.Counted?
    ensures Said(NotesRead([g])) == ""
  {
    assert [g][..0] == [] && NotesRead([g]) == NotesRead([]) + [];
  }

  /** Before the end nothing is counted. */
  lemma {:induction false} NothingCounted(script: seq<Event>)
    requires forall e :: e in script ==> !e.ResponseDone?
    ensures UsageRead(ExpectedOf(script)) == NO_REPORT && forall g :: g in ExpectedOf(script) ==> g.Noticed?
  {
    if script != [] {
      assert script[0] in script;
      NothingCounted(script[1..]);
    }
    NoticedOnly(ExpectedOf(script));
  }

  lemma {:induction false} NoticedOnly(glances: seq<Glance>)
    requires forall g :: g in glances ==> g.Noticed?
    ensures UsageRead(glances) == NO_REPORT
  {
    if glances != [] {
      var n := |glances| - 1;
      assert glances[n] in glances;
      NoticedOnly(glances[..n]);
    }
  }

  lemma {:induction false} ExpectedAppend(a: seq<Event>, b: seq<Event>)
    ensures ExpectedOf(a + b) == ExpectedOf(a) + ExpectedOf(b)
  {
    if a == [] {
      assert a + b == b;
    } else {
      HeadFirst(a, b);
      ExpectedAppend(a[1..], b);
      Assoc(Expected(a[0]), ExpectedOf(a[1..]), ExpectedOf(b));
    }
  }

  lemma OnlyLastDone(script: seq<Event>)
    requires Complete(script)
    ensures forall e :: e in script[..|script| - 1] ==> !e.ResponseDone?
  {
    forall i | 0 <= i < |script| - 1
      ensures !script[i].ResponseDone?
    {
      assert Allowed(script[..i + 1], script[i + 1]);
      assert script[..i + 1][i] == script[i];
    }
  }

  lemma UsageExpected(script: seq<Event>)
    requires Complete(script)
    ensures UsageRead(ExpectedOf(script)) == UsageRead(Expected(script[|script| - 1]))
  {
    var n := |script| - 1;
    OnlyLastDone(script);
    NothingCounted(script[..n]);
    ExpectedAppend(script[..n], [script[n]]);
    assert script == script[..n] + [script[n]];
    OneExpected(script[n]);
    CountedLast(ExpectedOf(script[..n]), Expected(script[n]));
  }

  lemma OneExpected(e: Event)
    ensures ExpectedOf([e]) == Expected(e) && |Expected(e)| <= 1
  {
    AppendNone(Expected(e));
    assert [e][1..] == [];
  }

  lemma CountedLast(before: seq<Glance>, last: seq<Glance>)
    requires UsageRead(before) == NO_REPORT && |last| <= 1
    ensures UsageRead(before + last) == UsageRead(last)
  {
    if last == [] {
      AppendNone(before);
    } else {
      assert last == [last[0]];
      OneCounted(before, last[0]);
      OneCounted([], last[0]);
      AppendNone(last);
    }
  }

  lemma OneCounted(before: seq<Glance>, last: Glance)
    requires UsageRead(before) == NO_REPORT
    ensures UsageRead(before + [last]) == if last.Counted? then MergeReport(NO_REPORT, last.counts) else NO_REPORT
  {
    VerbatimStream.Snoc(before, last);
  }

  /** The names of the records are words, so that the transcript can be read. */
  lemma FramesReadable(s: EncoderState, e: Event, deps: Deps)
    requires Violation(s, e).None?
    ensures forall f :: f in Frames(s, After(s, e, deps), e, deps) ==> Word(f.kind)
  {
    KindsAreWords();
  }

  lemma KindsAreWords()
    ensures Word("response.created") && Word("response.in_progress") && Word("response.output_item.added")
    ensures Word("response.content_part.added") && Word("response.output_text.delta")
    ensures Word("response.function_call_arguments.delta") && Word("response.output_text.done")
    ensures Word("response.content_part.done") && Word("response.function_call_arguments.done")
    ensures Word("response.output_item.done") && Word("response.completed") && Word("response.failed")
    ensures Word("response.incomplete")
  {
    DeltaKinds();
    AddedKinds();
    DoneKinds();
    LastKinds();
    ArgumentsKind();
    OpenKinds();
    EndKinds();
  }

  lemma DeltaKinds()
    ensures Word("response.output_text.delta") && Word("response.function_call_arguments.delta")
  {
    PlainWord("response.output_text.delta");
    PlainWord("response.function_call_arguments.delta");
  }

  lemma AddedKinds()
    ensures Word("response.output_item.added") && Word("response.content_part.added")
  {
    PlainWord("response.output_item.added");
    PlainWord("response.content_part.added");
  }

  lemma DoneKinds()
    ensures Word("response.output_text.done") && Word("response.content_part.done")
  {
    PlainWord("response.output_text.done");
    PlainWord("response.content_part.done");
  }

  lemma LastKinds()
    ensures Word("response.output_item.done")
  {
    PlainWord("response.output_item.done");
  }

  lemma ArgumentsKind()
    ensures Word("response.function_call_arguments.done")
  {
    PlainWord("response.function_call_arguments.done");
  }

  lemma OpenKinds()
    ensures Word("response.created") && Word("response.in_progress")
  {
    PlainWord("response.created");
    PlainWord("response.in_progress");
  }

  lemma EndKinds()
    ensures Word("response.completed") && Word("response.failed") && Word("response.incomplete")
  {
    PlainWord("response.completed");
    PlainWord("response.failed");
    PlainWord("response.incomplete");
  }

  lemma {:induction false} RunReadable(m: Machine, script: seq<Event>, run: seq<Accepted>)
    requires Run(Step, m, script).Ok? && run == Run(Step, m, script).value.out
    ensures forall r :: r in RecordsOf(run, m.deps) ==> Readable(Mixed, r)
    decreases script
  {
    if script != [] {
      RunOne(Step, m, script);
      var next := Step(m, script[0]).value.state;
      var first, rest := Accepted(m.state, script[0]), Run(Step, next, script[1..]).value.out;
      RunReadable(next, script[1..], rest);
      assert run == [first] + rest && run[1..] == rest;
      FramesReadable(m.state, script[0], m.deps);
    }
  }

  /**
   * Whatever is streamed, the transcript parses back to its records, and the observer that reads them in passing
   * ends up with the streamed text and with the usage of the terminal event, if it has any.
   */
  lemma TranscriptObserved(c: Codec, script: seq<Event>, deps: Deps)
    requires Lawful(c) && Complete(script)
    ensures EncodeStream(script, deps).Ok?
    ensures var records := EncodeStream(script, deps).value;
            var events := Parse(Mixed, c, RenderAll(c, records));
            var glances, usage := GlancesOf(Responses, events), script[|script| - 1].usage;
            && events == EventsOf(records)
            && Said(NotesRead(glances)) == Streamed(script)
            && UsageRead(glances) ==
               if usage.None? then NO_REPORT
               else Report(Some(usage.value.input), Some(usage.value.output),
                           Some(if usage.value.cached.Some? then usage.value.cached.value else 0))
  {
    RecordsObserved(c, script, deps);
    ExpectedSays(script);
    UsageExpected(script);
    LastUsage(script[|script| - 1]);
  }

  lemma RecordsObserved(c: Codec, script: seq<Event>, deps: Deps)
    requires Lawful(c) && Complete(script)
    ensures EncodeStream(script, deps).Ok?
    ensures var records := EncodeStream(script, deps).value;
            && Parse(Mixed, c, RenderAll(c, records)) == EventsOf(records)
            && GlancesOf(Responses, EventsOf(records)) == ExpectedOf(script)
  {
    AcceptedIffComplete(script, deps);
    var m := Machine(INITIAL, deps);
    var run := Run(Step, m, script).value.out;
    RunReadable(m, script, run);
    TranscriptParses(Mixed, c, RecordsOf(run, deps));
    RunGlances(m, script, run);
  }

  lemma LastUsage(e: Event)
    requires e.ResponseDone?
    ensures UsageRead(Expected(e)) ==
            if e.usage.None? then NO_REPORT
            else Report(Some(e.usage.value.input), Some(e.usage.value.output),
                        Some(if e.usage.value.cached.Some? then e.usage.value.cached.value else 0))
  {
    if e.usage.Some? {
      var u := e.usage.value;
      var counts := Report(Some(u.input), Some(u.output), Some(if u.cached.Some? then u.cached.value else 0));
      OneCount(counts);
      assert Expected(e) == [Counted(counts)];
    }
  }

  lemma OneCount(counts: Report)
    requires counts.input.Some? && counts.output.Some? && counts.cached.Some?
    ensures UsageRead([Counted(counts)]) == counts
  {
    VerbatimStream.Snoc([], Counted(counts));
    assert [] + [Counted(counts)] == [Counted(counts)];
  }
}
