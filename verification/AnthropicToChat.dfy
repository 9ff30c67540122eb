/** Incremental Anthropic to Chat translation. */
module AnthropicToChat {
  import opened Base
  import A = AnthropicStream
  import C = ChatStream
  import opened ChatScripts

  /** The fields of the translator; `model` never changes. */
  datatype State = State(model: string, started: bool, finished: bool, toolIndex: int, open: Option<A.BlockKind>,
                         usage: A.Usage, stopReason: Option<string>)

  function Initial(model: string): State {
    State(model, false, false, -1, None, A.NO_USAGE, None)
  }

  /** `anthropicStopToChatFinish`. */
  function StopToFinish(stop: Option<string>): string {
    if stop == Some("max_tokens") then "length"
    else if stop == Some("tool_use") then "tool_calls"
    else "stop"
  }

  function ToChatUsage(u: A.Usage): C.Usage {
    C.Usage(u.input.GetOr(0), u.output.GetOr(0), u.cacheRead, None)
  }

  /** A later report, keeping the fields it does not restate. */
  function Merge(old_: A.Usage, report: Option<A.Usage>): A.Usage {
    match report
    case None => old_
    case Some(u) => A.Usage(u.input.OrElse(old_.input), u.output.OrElse(old_.output),
                            u.cacheRead.OrElse(old_.cacheRead), u.cacheWrite.OrElse(old_.cacheWrite))
  }

  function Opening(s: State): seq<C.Event> {
    if s.started then [] else [C.Start(s.model, None)]
  }

  function Finish(s: State): Emit<State, C.Event> {
    Emit(s.(started := true, finished := true),
         Opening(s) + [C.Finish(StopToFinish(s.stopReason), Some(ToChatUsage(s.usage)))])
  }

  function Push(s: State, e: A.Upstream): Emit<State, C.Event> {
    if s.finished then Emit(s, [])
    else
      match e
      case UpMessageStart(_, _, usage) =>
        Emit(s.(started := true, usage := Merge(s.usage, usage)), Opening(s))
      case UpBlockStart(_, block) =>
        if block.ToolBlock?
        then Emit(s.(started := true, open := Some(block.Kind()), toolIndex := s.toolIndex + 1),
                  Opening(s) + [C.ToolCallStart(s.toolIndex + 1, block.id, block.name)])
        else Emit(s.(open := Some(block.Kind())), [])
      case UpText(_, text) =>
        if text != "" && s.open != Some(A.ThinkingKind)
        then Emit(s.(started := true), Opening(s) + [C.Text(text)]) else Emit(s, [])
      case UpJson(_, partial) =>
        if s.open == Some(A.ToolKind) && s.toolIndex >= 0
        then Emit(s.(started := true), Opening(s) + [C.ToolArgs(s.toolIndex, partial)]) else Emit(s, [])
      case UpBlockStop(_) => Emit(s.(open := None), [])
      case UpMessageDelta(stopReason, usage) =>
        Emit(s.(stopReason := stopReason.OrElse(s.stopReason), usage := Merge(s.usage, usage)), [])
      case UpMessageStop => Finish(s)
      case UpThinking(_, _) | UpSignature(_, _) | UpError(_) => Emit(s, [])
  }

  function End(s: State): Emit<State, C.Event> {
    if s.finished then Emit(s, []) else Finish(s)
  }

  /** Everything the translator emits for a stream that then ends. */
  function Translate(model: string, events: seq<A.Upstream>): seq<C.Event> {
    var fed := Feed(Push, Initial(model), events);
    fed.out + End(fed.state).out
  }

  class AnthropicToChatTranslator {
    const model: string
    var started: bool
    var finished: bool
    var toolIndex: int
    var openBlock: Option<A.BlockKind>
    var usage: A.Usage
    var stopReason: Option<string>

    ghost function Fields(): State
      reads this
    {
      State(model, started, finished, toolIndex, openBlock, usage, stopReason)
    }

    constructor (m: string)
      ensures Fields() == Initial(m)
    {
      model, started, finished, toolIndex, openBlock := m, false, false, -1, None;
      usage, stopReason := A.NO_USAGE, None;
    }

    method PushEvent(e: A.Upstream) returns (out: seq<C.Event>)
      modifies this
      ensures Emit(Fields(), out) == Push(old(Fields()), e)
    {
      out := [];
      if finished {
        return;
      }
      match e {
        case UpMessageStart(_, _, report) =>
          usage := Merge(usage, report);
          out := Open();
        case UpBlockStart(_, block) =>
          openBlock := Some(block.Kind());
          if block.ToolBlock? {
            toolIndex := toolIndex + 1;
            var opening := Open();
            out := opening + [C.ToolCallStart(toolIndex, block.id, block.name)];
          }
        case UpText(_, text) =>
          if |text| > 0 && openBlock != Some(A.ThinkingKind) {
            var opening := Open();
            out := opening + [C.Text(text)];
          }
        case UpJson(_, partial) =>
          if openBlock == Some(A.ToolKind) && toolIndex >= 0 {
            var opening := Open();
            out := opening + [C.ToolArgs(toolIndex, partial)];
          }
        case UpBlockStop(_) =>
          openBlock := None;
        case UpMessageDelta(reason, report) =>
          stopReason := reason.OrElse(stopReason);
          usage := Merge(usage, report);
        case UpMessageStop =>
          out := FinishStream();
        case UpThinking(_, _) | UpSignature(_, _) | UpError(_) =>
      }
    }

    method EndStream() returns (out: seq<C.Event>)
      modifies this
      ensures Emit(Fields(), out) == End(old(Fields()))
    {
      out := [];
      if !finished {
        out := FinishStream();
      }
    }

    method Open() returns (out: seq<C.Event>)
      modifies this`started
      ensures started && out == Opening(old(Fields()))
    {
      if started {
        return [];
      }
      started := true;
      out := [C.Start(model, None)];
    }

    method FinishStream() returns (out: seq<C.Event>)
      modifies this
      ensures Emit(Fields(), out) == Finish(old(Fields()))
    {
      var opening := Open();
      finished := true;
      out := opening + [C.Finish(StopToFinish(stopReason), Some(ToChatUsage(usage)))];
    }
  }

  // ----- What a stream of blocks says, event by event, by the history before each -----

  /** The events that count: those before the stop. */
  function Live(events: seq<A.Upstream>): seq<A.Upstream> {
    if events == [] || events[0].UpMessageStop? then [] else [events[0]] + Live(events[1..])
  }

  function Before(past: seq<A.Upstream>): seq<A.Upstream>
    requires past != []
  {
    past[..|past| - 1]
  }

  /** The kind of the block open after a run of events: the last start or stop in it decides. */
  function OpenKind(past: seq<A.Upstream>): Option<A.BlockKind> {
    if past == [] then None
    else
      match past[|past| - 1]
      case UpBlockStart(_, block) => Some(block.Kind())
      case UpBlockStop(_) => None
      case _ => OpenKind(Before(past))
  }

  /** How many tool blocks have started. */
  function Tools(past: seq<A.Upstream>): nat {
    if past == [] then 0
    else Tools(Before(past))
         + match past[|past| - 1] case UpBlockStart(_, block) => (if block.ToolBlock? then 1 else 0) case _ => 0
  }

  /** The chat delta an event means after a history; calls are numbered by tool blocks alone. */
  function Meaning(past: seq<A.Upstream>, e: A.Upstream): seq<C.Event> {
    match e
    case UpBlockStart(_, block) =>
      if block.ToolBlock? then [C.ToolCallStart(Tools(past), block.id, block.name)] else []
    case UpText(_, text) => if text != "" && OpenKind(past) != Some(A.ThinkingKind) then [C.Text(text)] else []
    case UpJson(_, partial) => if OpenKind(past) == Some(A.ToolKind) then [C.ToolArgs(Tools(past) - 1, partial)] else []
    case _ => []
  }

  function Body(events: seq<A.Upstream>): seq<C.Event> {
    if events == [] then [] else Body(Before(events)) + Meaning(Before(events), events[|events| - 1])
  }

  function StopOf(events: seq<A.Upstream>): Option<string> {
    if events == [] then None
    else
      match events[|events| - 1]
      case UpMessageDelta(reason, _) => reason.OrElse(StopOf(Before(events)))
      case _ => StopOf(Before(events))
  }

  function UsageOf(events: seq<A.Upstream>): A.Usage {
    if events == [] then A.NO_USAGE
    else
      match events[|events| - 1]
      case UpMessageStart(_, _, usage) => Merge(UsageOf(Before(events)), usage)
      case UpMessageDelta(_, usage) => Merge(UsageOf(Before(events)), usage)
      case _ => UsageOf(Before(events))
  }

  /** The chat script any upstream stream amounts to. */
  function ScriptOf(model: string, events: seq<A.Upstream>): seq<C.Event> {
    var live := Live(events);
    [C.Start(model, None)] + Body(live) + [C.Finish(StopToFinish(StopOf(live)), Some(ToChatUsage(UsageOf(live))))]
  }

  // ----- The translator keeps to it -----

  lemma {:induction false} OpenToolCounted(past: seq<A.Upstream>)
    ensures OpenKind(past) == Some(A.ToolKind) ==> Tools(past) > 0
  {
    if past != [] {
      OpenToolCounted(Before(past));
    }
  }

  /** The fields are the history's summary. */
  ghost predicate Follows(s: State, model: string, past: seq<A.Upstream>) {
    && s.model == model && !s.finished
    && s.toolIndex == Tools(past) - 1 && s.open == OpenKind(past)
    && s.usage == UsageOf(past) && s.stopReason == StopOf(past)
  }

  /** What was emitted is the opening, once it was due, and the meanings of the events. */
  ghost predicate Emitted(started: bool, model: string, body: seq<C.Event>, out: seq<C.Event>) {
    if started then out == [C.Start(model, None)] + body else out == [] && body == []
  }

  ghost predicate Tracks(s: State, model: string, past: seq<A.Upstream>, out: seq<C.Event>) {
    Follows(s, model, past) && Emitted(s.started, model, Body(past), out)
  }

  lemma PushFollows(s: State, model: string, past: seq<A.Upstream>, e: A.Upstream)
    requires Follows(s, model, past) && !e.UpMessageStop?
    ensures Follows(Push(s, e).state, model, past + [e])
    ensures Body(past + [e]) == Body(past) + Meaning(past, e)
  {
    OpenToolCounted(past);
    GrowOpen(past, e);
    GrowReport(past, e);
  }

  /** One more event. */
  lemma GrowOpen(past: seq<A.Upstream>, e: A.Upstream)
    ensures Before(past + [e]) == past && Body(past + [e]) == Body(past) + Meaning(past, e)
    ensures OpenKind(past + [e]) ==
            match e
            case UpBlockStart(_, block) => Some(block.Kind())
            case UpBlockStop(_) => None
            case _ => OpenKind(past)
    ensures Tools(past + [e]) == Tools(past) + if e.UpBlockStart? && e.block.ToolBlock? then 1 else 0
  {
    assert (past + [e])[..|past|] == past;
  }

  lemma GrowReport(past: seq<A.Upstream>, e: A.Upstream)
    ensures StopOf(past + [e]) == if e.UpMessageDelta? then e.stopReason.OrElse(StopOf(past)) else StopOf(past)
    ensures UsageOf(past + [e]) ==
            if e.UpMessageStart? || e.UpMessageDelta? then Merge(UsageOf(past), e.usage) else UsageOf(past)
  {
    assert (past + [e])[..|past|] == past;
  }

  lemma EmitMore(started: bool, now: bool, model: string, body: seq<C.Event>, out: seq<C.Event>, meaning: seq<C.Event>)
    requires Emitted(started, model, body, out)
    requires now == (started || now) && (meaning != [] ==> now)
    ensures Emitted(now, model, body + meaning,
                    out + ((if now && !started then [C.Start(model, None)] else []) + meaning))
  {
  }

  lemma PushTracks(s: State, model: string, past: seq<A.Upstream>, e: A.Upstream, out: seq<C.Event>)
    requires Tracks(s, model, past, out) && !e.UpMessageStop?
    ensures Tracks(Push(s, e).state, model, past + [e], out + Push(s, e).out)
  {
    OpenToolCounted(past);
    PushFollows(s, model, past, e);
    PushEmits(s, past, e);
    EmitMore(s.started, Push(s, e).state.started, model, Body(past), out, Meaning(past, e));
  }

  /** What one push emits: the opening if it is due, and the meaning of the event. */
  lemma PushEmits(s: State, past: seq<A.Upstream>, e: A.Upstream)
    requires !s.finished && !e.UpMessageStop?
    requires s.toolIndex == Tools(past) - 1 && s.open == OpenKind(past)
    requires OpenKind(past) == Some(A.ToolKind) ==> Tools(past) > 0
    ensures var step := Push(s, e);
            && step.state.started == (s.started || e.UpMessageStart? || Meaning(past, e) != [])
            && step.out == (if step.state.started && !s.started then [C.Start(s.model, None)] else [])
                           + Meaning(past, e)
  {
    assert forall d: C.Event :: [] + [d] == [d];
    assert Opening(s) + [] == Opening(s);
  }

  lemma {:induction false} FeedTracks(
    s: State, model: string, past: seq<A.Upstream>, events: seq<A.Upstream>, out: seq<C.Event>,
    fed: Emit<State, C.Event>)
    requires Tracks(s, model, past, out) && A.UpMessageStop !in events && fed == Feed(Push, s, events)
    ensures Tracks(fed.state, model, past + events, out + fed.out)
    decreases events
  {
    if events == [] {
      assert past + [] == past && out + [] == out;
    } else {
      var e, rest := events[0], events[1..];
      var step := Push(s, e);
      PushTracks(s, model, past, e, out);
      var more := Feed(Push, step.state, rest);
      FeedTracks(step.state, model, past + [e], rest, out + step.out, more);
      Assoc(past, [e], rest);
      assert [e] + rest == events;
      Assoc(out, step.out, more.out);
    }
  }

  lemma {:induction false} LiveSplits(events: seq<A.Upstream>)
    ensures A.UpMessageStop !in Live(events)
    ensures Live(events) <= events
    ensures A.UpMessageStop in events <==> |Live(events)| < |events| && events[|Live(events)|].UpMessageStop?
    ensures A.UpMessageStop !in events ==> Live(events) == events
  {
    if events != [] && !events[0].UpMessageStop? {
      LiveSplits(events[1..]);
      assert events == [events[0]] + events[1..];
    }
  }

  lemma {:induction false} FinishedIsSilent(s: State, events: seq<A.Upstream>)
    requires s.finished
    ensures Feed(Push, s, events) == Emit(s, [])
  {
    if events != [] {
      FinishedIsSilent(s, events[1..]);
    }
  }

  lemma LiveTracks(model: string, live: seq<A.Upstream>)
    requires A.UpMessageStop !in live
    ensures var fed := Feed(Push, Initial(model), live);
            Tracks(fed.state, model, live, fed.out)
  {
    FeedTracks(Initial(model), model, [], live, [], Feed(Push, Initial(model), live));
    assert [] + live == live;
    assert [] + Feed(Push, Initial(model), live).out == Feed(Push, Initial(model), live).out;
  }

  lemma FinishScript(s: State, model: string, past: seq<A.Upstream>, out: seq<C.Event>)
    requires Tracks(s, model, past, out)
    ensures out + Finish(s).out == [C.Start(model, None)] + Body(past)
                                   + [C.Finish(StopToFinish(StopOf(past)), Some(ToChatUsage(UsageOf(past))))]
  {
  }

  lemma SplitAtStop(events: seq<A.Upstream>) returns (rest: seq<A.Upstream>)
    requires A.UpMessageStop in events
    ensures events == Live(events) + ([A.UpMessageStop] + rest)
  {
    LiveSplits(events);
    rest := events[|Live(events)| + 1..];
  }

  lemma TranslateStopped(model: string, events: seq<A.Upstream>)
    requires A.UpMessageStop in events
    ensures var fed := Feed(Push, Initial(model), Live(events));
            !fed.state.finished ==> Translate(model, events) == fed.out + Finish(fed.state).out
  {
    var rest := SplitAtStop(events);
    var live := Live(events);
    var fed := Feed(Push, Initial(model), live);
    if !fed.state.finished {
      var finish := Push(fed.state, A.UpMessageStop);
      FinishedIsSilent(finish.state, rest);
      FeedStops(Push, Initial(model), live, A.UpMessageStop, rest);
      var out := fed.out + finish.out;
      assert out + [] == out;
    }
  }

  /** Whatever an upstream sends, well formed or not, the translator emits exactly its script. */
  lemma TranslationIs(model: string, events: seq<A.Upstream>)
    ensures Translate(model, events) == ScriptOf(model, events)
  {
    LiveSplits(events);
    var live := Live(events);
    var fed := Feed(Push, Initial(model), live);
    LiveTracks(model, live);
    FinishScript(fed.state, model, live, fed.out);
    if A.UpMessageStop in events {
      TranslateStopped(model, events);
    }
  }

  // ----- What follows for the client -----

  lemma {:induction false} BodyIsDeltas(events: seq<A.Upstream>)
    ensures forall e :: e in Body(events) ==> !e.Start? && !e.Finish?
  {
    if events != [] {
      BodyIsDeltas(Before(events));
    }
  }

  /** The chat encoder accepts the translation of any upstream stream. */
  lemma TranslationEncodes(model: string, events: seq<A.Upstream>, freshId: string, nowSec: int)
    ensures C.EncodeStream(Translate(model, events), freshId, nowSec).Ok?
  {
    var live := Live(events);
    TranslationIs(model, events);
    BodyIsDeltas(live);
    ScriptEncodes(model, None, Body(live), StopToFinish(StopOf(live)), Some(ToChatUsage(UsageOf(live))),
                  freshId, nowSec);
  }

  function TextIn(script: seq<C.Event>): string {
    if script == [] then "" else (if script[0].Text? then script[0].text else "") + TextIn(script[1..])
  }

  /** The text deltas outside thinking blocks, joined. */
  function VisibleText(events: seq<A.Upstream>): string {
    if events == [] then ""
    else
      var last := events[|events| - 1];
      VisibleText(Before(events))
      + if last.UpText? && OpenKind(Before(events)) != Some(A.ThinkingKind) then last.text else ""
  }

  lemma {:induction false} TextInAppend(a: seq<C.Event>, b: seq<C.Event>)
    ensures TextIn(a + b) == TextIn(a) + TextIn(b)
  {
    if a == [] {
      assert a + b == b;
    } else {
      assert (a + b)[1..] == a[1..] + b;
      TextInAppend(a[1..], b);
    }
  }

  lemma TextOfMeaning(past: seq<A.Upstream>, e: A.Upstream)
    ensures TextIn(Meaning(past, e)) ==
            if e.UpText? && OpenKind(past) != Some(A.ThinkingKind) then e.text else ""
  {
    if Meaning(past, e) != [] {
      var d := Meaning(past, e)[0];
      assert TextIn([d]) == (if d.Text? then d.text else "") + TextIn([]);
    }
  }

  lemma {:induction false} BodyText(events: seq<A.Upstream>)
    ensures TextIn(Body(events)) == VisibleText(events)
  {
    if events != [] {
      var past, last := Before(events), events[|events| - 1];
      BodyText(past);
      TextOfMeaning(past, last);
      TextInAppend(Body(past), Meaning(past, last));
    }
  }

  /** Every character of visible text reaches the client, in order, and nothing else does. */
  lemma TextIsForwarded(model: string, events: seq<A.Upstream>)
    ensures TextIn(Translate(model, events)) == VisibleText(Live(events))
  {
    var live := Live(events);
    var finish := C.Finish(StopToFinish(StopOf(live)), Some(ToChatUsage(UsageOf(live))));
    TranslationIs(model, events);
    BodyText(live);
    TextInAppend([C.Start(model, None)] + Body(live), [finish]);
    TextInAppend([C.Start(model, None)], Body(live));
    assert TextIn([finish]) == "" + TextIn([]) && TextIn([C.Start(model, None)]) == "" + TextIn([]);
  }

  /** The indices of the tool calls a script opens, in order. */
  function CallIndices(script: seq<C.Event>): seq<int> {
    if script == [] then []
    else CallIndices(script[..|script| - 1])
         + if script[|script| - 1].ToolCallStart? then [script[|script| - 1].index] else []
  }

  lemma {:induction false} IndicesAppend(a: seq<C.Event>, b: seq<C.Event>)
    requires |b| <= 1
    ensures CallIndices(a + b) == CallIndices(a) + CallIndices(b)
  {
    if b == [] {
      assert a + b == a;
    } else {
      assert (a + b)[..|a|] == a && b[..0] == [];
    }
  }

  /** Tool calls are numbered 0, 1, 2, ... whatever the upstream's block indices are. */
  lemma {:induction false} CallsAreDense(events: seq<A.Upstream>)
    ensures CallIndices(Body(events)) == Numbers(Tools(events))
    ensures |Numbers(Tools(events))| == Tools(events)
    ensures forall i :: 0 <= i < Tools(events) ==> Numbers(Tools(events))[i] == i
  {
    if events != [] {
      var past, last := Before(events), events[|events| - 1];
      CallsAreDense(past);
      IndicesAppend(Body(past), Meaning(past, last));
      OneIndex(past, last);
      assert Numbers(Tools(past)) + [] == Numbers(Tools(past));
    }
    NumbersAre(Tools(events));
  }

  /** 0, 1, ..., n - 1. */
  function Numbers(n: nat): seq<int> {
    if n == 0 then [] else Numbers(n - 1) + [n - 1]
  }

  lemma {:induction false} NumbersAre(n: nat)
    ensures |Numbers(n)| == n && forall i :: 0 <= i < n ==> Numbers(n)[i] == i
  {
    if n > 0 {
      NumbersAre(n - 1);
    }
  }

  lemma OneIndex(past: seq<A.Upstream>, e: A.Upstream)
    ensures CallIndices(Meaning(past, e)) == if e.UpBlockStart? && e.block.ToolBlock? then [Tools(past)] else []
  {
    if Meaning(past, e) != [] {
      assert Meaning(past, e)[..0] == [];
    }
  }

  // ----- How the script ends -----

  /** The stop reason given last counts; a delta without one takes none back. */
  lemma {:induction false} LastStop(before: seq<A.Upstream>, e: A.Upstream, after: seq<A.Upstream>)
    requires e.UpMessageDelta? && e.stopReason.Some?
    requires forall d :: d in after && d.UpMessageDelta? ==> d.stopReason.None?
    ensures StopOf(before + [e] + after) == e.stopReason
    decreases after
  {
    if after == [] {
      AppendNone(before + [e]);
      GrowReport(before, e);
    } else {
      var n := |after| - 1;
      assert after[n] in after && after == after[..n] + [after[n]];
      LastStop(before, e, after[..n]);
      Assoc(before + [e], after[..n], [after[n]]);
      GrowReport(before + [e] + after[..n], after[n]);
    }
  }

  lemma {:induction false} NoStop(events: seq<A.Upstream>)
    requires forall d :: d in events && d.UpMessageDelta? ==> d.stopReason.None?
    ensures StopOf(events) == None
  {
    if events != [] {
      assert events[|events| - 1] in events;
      NoStop(Before(events));
    }
  }

  datatype Count = Input | Output | CacheRead

  /** A count an event reports. */
  function CountIn(e: A.Upstream, which: Count): Option<int> {
    if !(e.UpMessageStart? || e.UpMessageDelta?) || e.usage.None? then None
    else
      match which
      case Input => e.usage.value.input
      case Output => e.usage.value.output
      case CacheRead => e.usage.value.cacheRead
  }

  function CountOf(u: A.Usage, which: Count): Option<int> {
    match which
    case Input => u.input
    case Output => u.output
    case CacheRead => u.cacheRead
  }

  lemma GrowCount(past: seq<A.Upstream>, e: A.Upstream, which: Count)
    ensures CountOf(UsageOf(past + [e]), which) ==
            if CountIn(e, which).Some? then CountIn(e, which) else CountOf(UsageOf(past), which)
  {
    GrowReport(past, e);
  }

  /** Each count is the one reported last, whatever reports came after it without that count. */
  lemma {:induction false} LastCount(before: seq<A.Upstream>, e: A.Upstream, after: seq<A.Upstream>, which: Count)
    requires CountIn(e, which).Some? && forall d :: d in after ==> CountIn(d, which).None?
    ensures CountOf(UsageOf(before + [e] + after), which) == CountIn(e, which)
    decreases after
  {
    if after == [] {
      AppendNone(before + [e]);
      GrowCount(before, e, which);
    } else {
      var n := |after| - 1;
      assert after[n] in after && after == after[..n] + [after[n]];
      LastCount(before, e, after[..n], which);
      Assoc(before + [e], after[..n], [after[n]]);
      GrowCount(before + [e] + after[..n], after[n], which);
    }
  }

  lemma {:induction false} NoCount(events: seq<A.Upstream>, which: Count)
    requires forall d :: d in events ==> CountIn(d, which).None?
    ensures CountOf(UsageOf(events), which) == None
  {
    if events != [] {
      var n := |events| - 1;
      assert events[n] in events && events == Before(events) + [events[n]];
      NoCount(Before(events), which);
      GrowCount(Before(events), events[n], which);
    }
  }

  /** The chat finish reason of each stop reason. */
  lemma FinishIs(stop: Option<string>)
    ensures StopToFinish(stop) == "length" <==> stop == Some("max_tokens")
    ensures StopToFinish(stop) == "tool_calls" <==> stop == Some("tool_use")
    ensures StopToFinish(stop) == "stop" <==> stop != Some("max_tokens") && stop != Some("tool_use")
  {
    assert "max_tokens" != "tool_use" && "length" != "tool_calls" && "stop" != "length" && "stop" != "tool_calls";
  }

  /** The script opens with the model and closes with the finish reason and the counts, absent ones being zero. */
  lemma TranslationEnds(model: string, events: seq<A.Upstream>)
    ensures var script, live := Translate(model, events), Live(events);
            && |script| >= 2 && script[0] == C.Start(model, None)
            && Closes(script[|script| - 1], StopOf(live), UsageOf(live))
  {
    TranslationIs(model, events);
  }

  /** A finish for this stop reason and these counts. */
  predicate Closes(e: C.Event, stop: Option<string>, u: A.Usage) {
    && e.Finish?
    && e.reason == (if stop == Some("max_tokens") then "length" else if stop == Some("tool_use") then "tool_calls"
                    else "stop")
    && e.usage == Some(C.Usage(if u.input.Some? then u.input.value else 0,
                               if u.output.Some? then u.output.value else 0, u.cacheRead, None))
  }
}
