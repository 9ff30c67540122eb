/** Incremental Chat to Anthropic translation. */
module ChatToAnthropic {
  import opened Base
  import A = AnthropicStream
  import C = ChatStream
  import opened AnthropicBlocks
  import opened ChatHistory

  /** The fields of the translator; `model` never changes. */
  datatype State = State(model: string, started: bool, finished: bool, open: Option<A.BlockKind>,
                         toolIndex: Option<int>, usage: Option<C.Usage>, finishReason: Option<string>)

  function Initial(model: string): State {
    State(model, false, false, None, None, None, None)
  }

  function ToStopReason(reason: Option<string>): string {
    if reason == Some("length") then "max_tokens"
    else if reason == Some("tool_calls") || reason == Some("function_call") then "tool_use"
    else if reason == Some("content_filter") then "refusal"
    else "end_turn"
  }

  function ToUsage(usage: Option<C.Usage>): Option<A.Usage> {
    match usage
    case None => None
    case Some(u) => Some(A.Usage(Some(u.prompt), Some(u.completion), u.cached, None))
  }

  /** The opening event carries the input side of whatever was reported by then. */
  function StartEvent(model: string, usage: Option<C.Usage>): A.Event {
    A.MessageStart(model, None, Some(ToUsage(usage).GetOr(A.NO_USAGE).(output := Some(0))))
  }

  function Opening(s: State): seq<A.Event> {
    if s.started then [] else [StartEvent(s.model, s.usage)]
  }

  function Closing(s: State): seq<A.Event> {
    if s.open.None? then [] else [A.BlockStop]
  }

  function Terminal(s: State): seq<A.Event> {
    [A.MessageDelta(ToStopReason(s.finishReason), None, ToUsage(s.usage)), A.MessageStop]
  }

  function Finish(s: State): Emit<State, A.Event> {
    Emit(s.(started := true, finished := true, open := None, toolIndex := if s.open.None? then s.toolIndex else None),
         Opening(s) + Closing(s) + Terminal(s))
  }

  /** A text or thinking delta, in a block of its kind. */
  function PushTyped(s: State, block: A.BlockInit, delta: A.Event): Emit<State, A.Event> {
    if s.open == Some(block.Kind()) then Emit(s.(started := true), Opening(s) + [delta])
    else Emit(s.(started := true, open := Some(block.Kind()), toolIndex := if s.open.None? then s.toolIndex else None),
              Opening(s) + (Closing(s) + [A.BlockStart(block)]) + [delta])
  }

  function Push(s: State, e: C.Upstream): Emit<State, A.Event> {
    if s.finished then Emit(s, [])
    else
      match e
      case UpStart(_, _) => Emit(s.(started := true), Opening(s))
      case UpText(text) => PushTyped(s, A.TextBlock, A.TextDelta(text))
      case UpReasoning(text) => PushTyped(s, A.ThinkingBlock, A.ThinkingDelta(text))
      case UpToolCallStart(index, id, name) =>
        Emit(s.(started := true, open := Some(A.ToolKind), toolIndex := Some(index)),
             Opening(s) + Closing(s) + [A.BlockStart(A.ToolBlock(id, name))])
      case UpToolArgs(index, delta) =>
        Emit(s, if s.open == Some(A.ToolKind) && s.toolIndex == Some(index) then [A.JsonDelta(delta)] else [])
      case UpFinish(reason) => Emit(s.(finishReason := reason.OrElse(s.finishReason)), [])
      case UpUsage(usage) => Emit(s.(usage := Some(usage)), [])
      case UpDone => Finish(s)
  }

  function End(s: State): Emit<State, A.Event> {
    if s.finished then Emit(s, []) else Finish(s)
  }

  /** Everything the translator emits for a stream that then ends. */
  function Translate(model: string, events: seq<C.Upstream>): seq<A.Event> {
    var fed := Feed(Push, Initial(model), events);
    fed.out + End(fed.state).out
  }

  class ChatToAnthropicTranslator {
    const model: string
    var started: bool
    var finished: bool
    var openBlock: Option<A.BlockKind>
    /** Upstream tool-call index of the open tool block. */
    var openToolIndex: Option<int>
    var usage: Option<C.Usage>
    var finishReason: Option<string>

    ghost function Fields(): State
      reads this
    {
      State(model, started, finished, openBlock, openToolIndex, usage, finishReason)
    }

    constructor (m: string)
      ensures Fields() == Initial(m)
    {
      model, started, finished, openBlock, openToolIndex := m, false, false, None, None;
      usage, finishReason := None, None;
    }

    method PushEvent(e: C.Upstream) returns (out: seq<A.Event>)
      modifies this
      ensures Emit(Fields(), out) == Push(old(Fields()), e)
    {
      out := [];
      if finished {
        return;
      }
      match e {
        case UpStart(_, _) =>
          out := Open();
        case UpText(text) =>
          var opening := Open();
          var block := OpenTyped(A.TextBlock);
          assert opening + [] == opening;
          out := opening + block + [A.TextDelta(text)];
        case UpReasoning(text) =>
          var opening := Open();
          var block := OpenTyped(A.ThinkingBlock);
          assert opening + [] == opening;
          out := opening + block + [A.ThinkingDelta(text)];
        case UpToolCallStart(index, id, name) =>
          var opening := Open();
          var closing := CloseBlock();
          openBlock := Some(A.ToolKind);
          openToolIndex := Some(index);
          out := opening + closing + [A.BlockStart(A.ToolBlock(id, name))];
        case UpToolArgs(index, delta) =>
          if openBlock == Some(A.ToolKind) && openToolIndex == Some(index) {
            out := [A.JsonDelta(delta)];
          }
        case UpFinish(reason) =>
          finishReason := reason.OrElse(finishReason);
        case UpUsage(u) =>
          usage := Some(u);
        case UpDone =>
          out := FinishStream();
      }
    }

    method EndStream() returns (out: seq<A.Event>)
      modifies this
      ensures Emit(Fields(), out) == End(old(Fields()))
    {
      out := [];
      if !finished {
        out := FinishStream();
      }
    }

    method Open() returns (out: seq<A.Event>)
      modifies this`started
      ensures started && out == Opening(old(Fields()))
    {
      if started {
        return [];
      }
      started := true;
      out := [StartEvent(model, usage)];
    }

    method OpenTyped(block: A.BlockInit) returns (out: seq<A.Event>)
      requires block.Kind() != A.ToolKind
      modifies this`openBlock, this`openToolIndex
      ensures openBlock == Some(block.Kind())
      ensures openToolIndex == if old(openBlock).None? || old(openBlock) == Some(block.Kind())
              then old(openToolIndex) else None
      ensures out == if old(openBlock) == Some(block.Kind()) then [] else Closing(old(Fields())) + [A.BlockStart(block)]
    {
      if openBlock == Some(block.Kind()) {
        return [];
      }
      var closing := CloseBlock();
      openBlock := Some(block.Kind());
      out := closing + [A.BlockStart(block)];
    }

    method CloseBlock() returns (out: seq<A.Event>)
      modifies this`openBlock, this`openToolIndex
      ensures openBlock.None? && out == Closing(old(Fields()))
      ensures openToolIndex == if old(openBlock).None? then old(openToolIndex) else None
    {
      if openBlock.None? {
        return [];
      }
      openBlock := None;
      openToolIndex := None;
      out := [A.BlockStop];
    }

    method FinishStream() returns (out: seq<A.Event>)
      modifies this
      ensures Emit(Fields(), out) == Finish(old(Fields()))
    {
      var opening := Open();
      var closing := CloseBlock();
      finished := true;
      out := opening + closing
             + [A.MessageDelta(ToStopReason(finishReason), None, ToUsage(usage)), A.MessageStop];
    }
  }

  // ----- What a flat delta stream says, grouped into blocks -----

  /** Put a delta into the last block. */
  function Join(blocks: seq<Block>, delta: A.Event): seq<Block>
    requires blocks != []
  {
    var n := |blocks| - 1;
    blocks[..n] + [blocks[n].(deltas := blocks[n].deltas + [delta])]
  }

  function JoinOrBegin(blocks: seq<Block>, init: A.BlockInit, delta: A.Event): seq<Block> {
    if blocks != [] && blocks[|blocks| - 1].init.Kind() == init.Kind() then Join(blocks, delta)
    else blocks + [Block(init, [delta])]
  }

  /**
   * Like deltas join the block before them, a call begins its own, and arguments join the call
   * only under the upstream index that began it (`latest`); stray arguments are dropped.
   */
  function Grouped(blocks: seq<Block>, latest: Option<int>, e: C.Upstream): seq<Block> {
    match e
    case UpText(text) => JoinOrBegin(blocks, A.TextBlock, A.TextDelta(text))
    case UpReasoning(text) => JoinOrBegin(blocks, A.ThinkingBlock, A.ThinkingDelta(text))
    case UpToolCallStart(_, id, name) => blocks + [Block(A.ToolBlock(id, name), [])]
    case UpToolArgs(index, delta) =>
      if blocks != [] && blocks[|blocks| - 1].init.ToolBlock? && latest == Some(index)
      then Join(blocks, A.JsonDelta(delta)) else blocks
    case _ => blocks
  }

  /** The upstream index of the latest call begun. */
  function LatestCall(events: seq<C.Upstream>): Option<int> {
    if events == [] then None
    else
      match events[|events| - 1]
      case UpToolCallStart(index, _, _) => Some(index)
      case _ => LatestCall(Before(events))
  }

  function Blocks(events: seq<C.Upstream>): seq<Block> {
    if events == [] then []
    else Grouped(Blocks(Before(events)), LatestCall(Before(events)), events[|events| - 1])
  }

  predicate Opens(e: C.Upstream) {
    e.UpStart? || e.UpText? || e.UpReasoning? || e.UpToolCallStart?
  }

  predicate Started(events: seq<C.Upstream>) {
    exists i :: 0 <= i < |events| && Opens(events[i])
  }

  /** The usage reported before the first event that opens the message. */
  function ReportedAtStart(events: seq<C.Upstream>): Option<C.Usage> {
    if events == [] then None
    else if Started(Before(events)) then ReportedAtStart(Before(events))
    else Reported(events)
  }

  /** The events of a list of blocks, the last one still open. */
  function UnparseOpen(blocks: seq<Block>): seq<A.Event> {
    if blocks == [] then []
    else Unparse(blocks[..|blocks| - 1]) + ([A.BlockStart(blocks[|blocks| - 1].init)] + blocks[|blocks| - 1].deltas)
  }

  /** The transcript any upstream stream amounts to. */
  function Transcript(model: string, live: seq<C.Upstream>): seq<A.Event> {
    Wrap(StartEvent(model, ReportedAtStart(live)), Blocks(live),
         A.MessageDelta(ToStopReason(Reason(live)), None, ToUsage(Reported(live))))
  }

  // ----- The translator keeps to it -----

  /** The fields are the history's summary. */
  ghost predicate Follows(s: State, model: string, past: seq<C.Upstream>, blocks: seq<Block>) {
    && s.model == model && !s.finished && s.started == Started(past)
    && s.usage == Reported(past) && s.finishReason == Reason(past)
    && (if blocks == [] then s.open.None?
        else && s.open == Some(blocks[|blocks| - 1].init.Kind())
             && (blocks[|blocks| - 1].init.ToolBlock? ==> s.toolIndex == LatestCall(past)))
    && (blocks != [] ==> s.started)
  }

  /** What was emitted is the opening, once it was due, and the blocks so far, the last one open. */
  ghost predicate Emitted(s: State, start: A.Event, blocks: seq<Block>, out: seq<A.Event>) {
    if s.started then out == [start] + UnparseOpen(blocks) else out == [] && blocks == []
  }

  lemma JoinEmits(blocks: seq<Block>, delta: A.Event)
    requires blocks != []
    ensures UnparseOpen(Join(blocks, delta)) == UnparseOpen(blocks) + [delta]
  {
    var n := |blocks| - 1;
    assert Join(blocks, delta)[..n] == blocks[..n];
    Assoc([A.BlockStart(blocks[n].init)], blocks[n].deltas, [delta]);
    Assoc(Unparse(blocks[..n]), [A.BlockStart(blocks[n].init)] + blocks[n].deltas, [delta]);
  }

  lemma CloseEmits(blocks: seq<Block>)
    ensures Unparse(blocks) == UnparseOpen(blocks) + (if blocks == [] then [] else [A.BlockStop])
  {
    if blocks != [] {
      var n := |blocks| - 1;
      Assoc(Unparse(blocks[..n]), [A.BlockStart(blocks[n].init)] + blocks[n].deltas, [A.BlockStop]);
    }
  }

  lemma BeginEmits(blocks: seq<Block>, b: Block)
    ensures UnparseOpen(blocks + [b]) ==
            UnparseOpen(blocks) + (if blocks == [] then [] else [A.BlockStop]) + [A.BlockStart(b.init)] + b.deltas
  {
    assert (blocks + [b])[..|blocks|] == blocks;
    CloseEmits(blocks);
    Assoc(Unparse(blocks), [A.BlockStart(b.init)], b.deltas);
  }

  lemma Grow(past: seq<C.Upstream>, e: C.Upstream)
    ensures Before(past + [e]) == past
    ensures Started(past + [e]) == (Started(past) || Opens(e))
    ensures ReportedAtStart(past + [e]) == if Started(past) then ReportedAtStart(past) else Reported(past + [e])
    ensures Blocks(past + [e]) == Grouped(Blocks(past), LatestCall(past), e)
  {
    var now := past + [e];
    assert now != [] && Before(now) == past && now[|now| - 1] == e;
    StartedGrows(past, e);
  }

  lemma StartedGrows(past: seq<C.Upstream>, e: C.Upstream)
    ensures Started(past + [e]) == (Started(past) || Opens(e))
  {
    var now := past + [e];
    assert forall i :: 0 <= i < |past| ==> now[i] == past[i];
    if Started(past) {
      var i :| 0 <= i < |past| && Opens(past[i]);
      assert Opens(now[i]);
    }
    if Opens(e) {
      assert Opens(now[|past|]);
    }
  }

  lemma PushFollows(s: State, model: string, past: seq<C.Upstream>, blocks: seq<Block>, e: C.Upstream)
    requires Follows(s, model, past, blocks) && !e.UpDone?
    ensures Follows(Push(s, e).state, model, past + [e], Grouped(blocks, LatestCall(past), e))
  {
    PushReports(s, past, e);
    PushOpens(s, past, blocks, e);
  }

  lemma PushReports(s: State, past: seq<C.Upstream>, e: C.Upstream)
    requires !s.finished && s.usage == Reported(past) && s.finishReason == Reason(past) && !e.UpDone?
    ensures var next := Push(s, e).state;
            next.model == s.model && !next.finished && next.usage == Reported(past + [e])
            && next.finishReason == Reason(past + [e])
  {
    GrowReport(past, e);
  }

  lemma PushOpens(s: State, past: seq<C.Upstream>, blocks: seq<Block>, e: C.Upstream)
    requires Follows(s, s.model, past, blocks) && !e.UpDone?
    ensures var next, now := Push(s, e).state, Grouped(blocks, LatestCall(past), e);
            && next.started == Started(past + [e]) && (now != [] ==> next.started)
            && (if now == [] then next.open.None?
                else && next.open == Some(now[|now| - 1].init.Kind())
                     && (now[|now| - 1].init.ToolBlock? ==> next.toolIndex == LatestCall(past + [e])))
  {
    StartedGrows(past, e);
    GrowReport(past, e);
    PushStarts(s, past, blocks, e);
    PushKind(s, past, blocks, e);
  }

  lemma PushStarts(s: State, past: seq<C.Upstream>, blocks: seq<Block>, e: C.Upstream)
    requires Follows(s, s.model, past, blocks) && !e.UpDone?
    ensures var next, now := Push(s, e).state, Grouped(blocks, LatestCall(past), e);
            next.started == (Started(past) || Opens(e)) && (now != [] ==> next.started)
  {
  }

  lemma PushKind(s: State, past: seq<C.Upstream>, blocks: seq<Block>, e: C.Upstream)
    requires Follows(s, s.model, past, blocks) && !e.UpDone?
    ensures var next, now := Push(s, e).state, Grouped(blocks, LatestCall(past), e);
            if now == [] then next.open.None?
            else && next.open == Some(now[|now| - 1].init.Kind())
                 && (now[|now| - 1].init.ToolBlock? ==>
                       next.toolIndex == if e.UpToolCallStart? then Some(e.index) else LatestCall(past))
  {
  }

  lemma GrowReport(past: seq<C.Upstream>, e: C.Upstream)
    ensures LatestCall(past + [e]) == if e.UpToolCallStart? then Some(e.index) else LatestCall(past)
    ensures Reason(past + [e]) == if e.UpFinish? then e.reason.OrElse(Reason(past)) else Reason(past)
    ensures Reported(past + [e]) == if e.UpUsage? then Some(e.usage) else Reported(past)
  {
    assert (past + [e])[..|past|] == past;
  }

  /** The start event the opening brings is the one the history calls for. */
  lemma OpeningEmits(s: State, model: string, past: seq<C.Upstream>, blocks: seq<Block>, e: C.Upstream,
                     out: seq<A.Event>)
    requires Follows(s, model, past, blocks) && Emitted(s, StartEvent(model, ReportedAtStart(past)), blocks, out)
    requires Started(past) || Opens(e)
    ensures out + Opening(s) == [StartEvent(model, ReportedAtStart(past + [e]))] + UnparseOpen(blocks)
  {
    Grow(past, e);
    if s.started {
      assert out + [] == out;
    } else {
      var start := StartEvent(model, s.usage);
      assert out + [start] == [start] + [];
    }
  }

  lemma Later(out: seq<A.Event>, opening: seq<A.Event>, start: A.Event, blocks: seq<Block>, more: seq<A.Event>,
              now: seq<Block>)
    requires out + opening == [start] + UnparseOpen(blocks) && UnparseOpen(now) == UnparseOpen(blocks) + more
    ensures out + (opening + more) == [start] + UnparseOpen(now)
  {
    Assoc(out, opening, more);
    Assoc([start], UnparseOpen(blocks), more);
  }

  /** What one event adds to the open transcript, besides the opening. */
  lemma GroupedEmits(s: State, model: string, past: seq<C.Upstream>, blocks: seq<Block>, e: C.Upstream)
    returns (more: seq<A.Event>)
    requires Follows(s, model, past, blocks) && !e.UpDone?
    ensures UnparseOpen(Grouped(blocks, LatestCall(past), e)) == UnparseOpen(blocks) + more
    ensures Push(s, e).out == (if Opens(e) then Opening(s) else []) + more
  {
    assert UnparseOpen(blocks) + [] == UnparseOpen(blocks) && Opening(s) + [] == Opening(s);
    match e {
      case UpText(text) => more := TypedEmits(s, model, past, blocks, A.TextBlock, A.TextDelta(text));
      case UpReasoning(text) => more := TypedEmits(s, model, past, blocks, A.ThinkingBlock, A.ThinkingDelta(text));
      case UpToolCallStart(_, id, name) => more := CallEmits(s, model, past, blocks, Block(A.ToolBlock(id, name), []));
      case UpToolArgs(_, delta) => more := ArgsEmit(s, model, past, blocks, e);
      case _ => more := OthersEmit(s, past, blocks, e);
    }
  }

  lemma OthersEmit(s: State, past: seq<C.Upstream>, blocks: seq<Block>, e: C.Upstream) returns (more: seq<A.Event>)
    requires !s.finished && (e.UpStart? || e.UpFinish? || e.UpUsage?)
    ensures UnparseOpen(Grouped(blocks, LatestCall(past), e)) == UnparseOpen(blocks) + more
    ensures Push(s, e).out == (if Opens(e) then Opening(s) else []) + more
  {
    more := [];
    assert UnparseOpen(blocks) + [] == UnparseOpen(blocks) && Opening(s) + [] == Opening(s);
  }

  lemma CallEmits(s: State, model: string, past: seq<C.Upstream>, blocks: seq<Block>, b: Block)
    returns (more: seq<A.Event>)
    requires Follows(s, model, past, blocks) && b.deltas == []
    ensures UnparseOpen(blocks + [b]) == UnparseOpen(blocks) + more
    ensures Opening(s) + Closing(s) + [A.BlockStart(b.init)] == Opening(s) + more
  {
    more := Closing(s) + [A.BlockStart(b.init)];
    BeginEmits(blocks, b);
    Assoc(UnparseOpen(blocks), Closing(s), [A.BlockStart(b.init)]);
    assert UnparseOpen(blocks) + more + [] == UnparseOpen(blocks) + more;
    Assoc(Opening(s), Closing(s), [A.BlockStart(b.init)]);
  }

  lemma ArgsEmit(s: State, model: string, past: seq<C.Upstream>, blocks: seq<Block>, e: C.Upstream)
    returns (more: seq<A.Event>)
    requires Follows(s, model, past, blocks) && e.UpToolArgs?
    ensures UnparseOpen(Grouped(blocks, LatestCall(past), e)) == UnparseOpen(blocks) + more
    ensures Push(s, e).out == [] + more
  {
    more := Push(s, e).out;
    if Grouped(blocks, LatestCall(past), e) != blocks {
      JoinEmits(blocks, A.JsonDelta(e.delta));
    } else {
      assert UnparseOpen(blocks) + [] == UnparseOpen(blocks);
    }
  }

  lemma TypedEmits(s: State, model: string, past: seq<C.Upstream>, blocks: seq<Block>, init: A.BlockInit,
                   delta: A.Event)
    returns (more: seq<A.Event>)
    requires Follows(s, model, past, blocks)
    ensures UnparseOpen(JoinOrBegin(blocks, init, delta)) == UnparseOpen(blocks) + more
    ensures PushTyped(s, init, delta).out == Opening(s) + more
  {
    if s.open == Some(init.Kind()) {
      more := [delta];
      JoinEmits(blocks, delta);
    } else {
      var b := Block(init, [delta]);
      more := Closing(s) + [A.BlockStart(init)] + [delta];
      BeginEmits(blocks, b);
      Assoc(UnparseOpen(blocks), Closing(s), [A.BlockStart(init)]);
      Assoc(UnparseOpen(blocks), Closing(s) + [A.BlockStart(init)], [delta]);
      Assoc(Opening(s), Closing(s) + [A.BlockStart(init)], [delta]);
    }
  }

  ghost predicate Tracks(s: State, model: string, past: seq<C.Upstream>, out: seq<A.Event>) {
    && Follows(s, model, past, Blocks(past))
    && Emitted(s, StartEvent(model, ReportedAtStart(past)), Blocks(past), out)
  }

  lemma PushTracks(s: State, model: string, past: seq<C.Upstream>, e: C.Upstream, out: seq<A.Event>)
    requires Tracks(s, model, past, out) && !e.UpDone?
    ensures Tracks(Push(s, e).state, model, past + [e], out + Push(s, e).out)
  {
    var blocks := Blocks(past);
    Grow(past, e);
    PushFollows(s, model, past, blocks, e);
    var more := GroupedEmits(s, model, past, blocks, e);
    if Started(past) || Opens(e) {
      OpeningEmits(s, model, past, blocks, e, out);
      Later(out, Opening(s), StartEvent(model, ReportedAtStart(past + [e])), blocks, more,
            Grouped(blocks, LatestCall(past), e));
      assert s.started ==> Opening(s) == [];
    } else {
      assert Grouped(blocks, LatestCall(past), e) == [] && Push(s, e).out == [];
    }
  }

  lemma {:induction false} FeedTracks(
    s: State, model: string, past: seq<C.Upstream>, events: seq<C.Upstream>, out: seq<A.Event>)
    requires Tracks(s, model, past, out) && C.UpDone !in events
    ensures var fed := Feed(Push, s, events);
            Tracks(fed.state, model, past + events, out + fed.out)
    decreases events
  {
    if events == [] {
      assert past + [] == past && out + [] == out;
    } else {
      var e, rest := events[0], events[1..];
      var step := Push(s, e);
      PushTracks(s, model, past, e, out);
      FeedTracks(step.state, model, past + [e], rest, out + step.out);
      Assoc(past, [e], rest);
      assert [e] + rest == events;
      Assoc(out, step.out, Feed(Push, step.state, rest).out);
    }
  }

  lemma {:induction false} FinishedIsSilent(s: State, events: seq<C.Upstream>)
    requires s.finished
    ensures Feed(Push, s, events) == Emit(s, [])
  {
    if events != [] {
      FinishedIsSilent(s, events[1..]);
    }
  }

  lemma LiveTracks(model: string, live: seq<C.Upstream>)
    requires C.UpDone !in live
    ensures var fed := Feed(Push, Initial(model), live);
            Tracks(fed.state, model, live, fed.out)
  {
    FeedTracks(Initial(model), model, [], live, []);
    assert [] + live == live;
    assert [] + Feed(Push, Initial(model), live).out == Feed(Push, Initial(model), live).out;
  }

  lemma FinishTranscript(s: State, model: string, past: seq<C.Upstream>, out: seq<A.Event>)
    requires Tracks(s, model, past, out)
    ensures out + Finish(s).out == Transcript(model, past)
  {
    var blocks := Blocks(past);
    var start := StartEvent(model, ReportedAtStart(past));
    assert out + Opening(s) == [start] + UnparseOpen(blocks) by {
      if s.started {
        assert out + [] == out;
      } else {
        NotStarted(past);
        assert out + [start] == [start] + [];
      }
    }
    CloseEmits(blocks);
    Assoc([start], UnparseOpen(blocks), Closing(s));
    assert Unparse(blocks) == UnparseOpen(blocks) + Closing(s);
    Assoc(out, Opening(s), Closing(s));
    Assoc(out, Opening(s) + Closing(s), Terminal(s));
  }

  lemma NotStarted(past: seq<C.Upstream>)
    requires !Started(past)
    ensures ReportedAtStart(past) == Reported(past)
  {
    if past != [] {
      forall i | 0 <= i < |past| - 1
        ensures !Opens(Before(past)[i])
      {
        assert !Opens(past[i]);
      }
    }
  }

  lemma TranslateDone(model: string, events: seq<C.Upstream>)
    requires C.UpDone in events && !Feed(Push, Initial(model), Live(events)).state.finished
    ensures var fed := Feed(Push, Initial(model), Live(events));
            Translate(model, events) == fed.out + Finish(fed.state).out
  {
    var rest := SplitAtDone(events);
    var fed := Feed(Push, Initial(model), Live(events));
    var finish := Push(fed.state, C.UpDone);
    FinishedIsSilent(finish.state, rest);
    FeedStops(Push, Initial(model), Live(events), C.UpDone, rest);
    var out := fed.out + finish.out;
    assert out + [] == out;
  }

  /** Whatever an upstream sends, well formed or not, the translator emits exactly its transcript. */
  lemma TranslationIs(model: string, events: seq<C.Upstream>)
    ensures Translate(model, events) == Transcript(model, Live(events))
  {
    LiveSplits(events);
    var live := Live(events);
    var fed := Feed(Push, Initial(model), live);
    LiveTracks(model, live);
    FinishTranscript(fed.state, model, live, fed.out);
    if C.UpDone in events {
      TranslateDone(model, events);
    }
  }

  // ----- What follows for the client -----

  lemma JoinFits(blocks: seq<Block>, delta: A.Event)
    requires Fit(blocks) && blocks != [] && delta.Needs() == Some(blocks[|blocks| - 1].init.Kind())
    ensures Fit(Join(blocks, delta))
  {
    var n := |blocks| - 1;
    assert BlockFit(blocks[n]);
    forall b | b in Join(blocks, delta)
      ensures BlockFit(b)
    {
      assert b in blocks[..n] ==> b in blocks;
    }
  }

  lemma BeginFits(blocks: seq<Block>, b: Block)
    requires Fit(blocks) && forall d :: d in b.deltas ==> d.Needs() == Some(b.init.Kind())
    ensures Fit(blocks + [b])
  {
  }

  lemma GroupedFits(blocks: seq<Block>, latest: Option<int>, e: C.Upstream)
    requires Fit(blocks)
    ensures Fit(Grouped(blocks, latest, e))
  {
    match e {
      case UpText(text) => TypedFits(blocks, A.TextBlock, A.TextDelta(text));
      case UpReasoning(text) => TypedFits(blocks, A.ThinkingBlock, A.ThinkingDelta(text));
      case UpToolCallStart(_, id, name) => BeginFits(blocks, Block(A.ToolBlock(id, name), []));
      case UpToolArgs(_, delta) =>
        if Grouped(blocks, latest, e) != blocks {
          JoinFits(blocks, A.JsonDelta(delta));
        }
      case _ =>
    }
  }

  lemma TypedFits(blocks: seq<Block>, init: A.BlockInit, delta: A.Event)
    requires Fit(blocks) && delta.Needs() == Some(init.Kind())
    ensures Fit(JoinOrBegin(blocks, init, delta))
  {
    if blocks != [] && blocks[|blocks| - 1].init.Kind() == init.Kind() {
      JoinFits(blocks, delta);
    } else {
      BeginFits(blocks, Block(init, [delta]));
    }
  }

  lemma {:induction false} BlocksFit(events: seq<C.Upstream>)
    ensures Fit(Blocks(events))
  {
    if events != [] {
      BlocksFit(Before(events));
      GroupedFits(Blocks(Before(events)), LatestCall(Before(events)), events[|events| - 1]);
    }
  }

  /** The Anthropic encoder accepts the translation of any upstream stream. */
  lemma TranslationEncodes(model: string, events: seq<C.Upstream>, freshId: string)
    ensures A.EncodeStream(Translate(model, events), freshId).Ok?
  {
    var live := Live(events);
    TranslationIs(model, events);
    BlocksFit(live);
    WrapEncodes(StartEvent(model, ReportedAtStart(live)), Blocks(live),
                A.MessageDelta(ToStopReason(Reason(live)), None, ToUsage(Reported(live))), freshId);
  }

  /** The visible text, or the reasoning text, of a script and of a stream. */
  function TextIn(script: seq<A.Event>, thinking: bool): string {
    if script == [] then ""
    else (match script[0]
          case TextDelta(text) => if thinking then "" else text
          case ThinkingDelta(text) => if thinking then text else ""
          case _ => "") + TextIn(script[1..], thinking)
  }

  function Said(e: C.Upstream, thinking: bool): string {
    match e
    case UpText(text) => if thinking then "" else text
    case UpReasoning(text) => if thinking then text else ""
    case _ => ""
  }

  function SaidIn(events: seq<C.Upstream>, thinking: bool): string {
    if events == [] then "" else SaidIn(Before(events), thinking) + Said(events[|events| - 1], thinking)
  }

  lemma {:induction false} TextInAppend(a: seq<A.Event>, b: seq<A.Event>, thinking: bool)
    ensures TextIn(a + b, thinking) == TextIn(a, thinking) + TextIn(b, thinking)
  {
    if a == [] {
      assert a + b == b;
    } else {
      assert (a + b)[1..] == a[1..] + b;
      TextInAppend(a[1..], b, thinking);
    }
  }

  lemma OpenText(blocks: seq<Block>, thinking: bool)
    ensures TextIn(Unparse(blocks), thinking) == TextIn(UnparseOpen(blocks), thinking)
  {
    var stop: seq<A.Event> := if blocks == [] then [] else [A.BlockStop];
    CloseEmits(blocks);
    TextInAppend(UnparseOpen(blocks), stop, thinking);
    OneText(A.BlockStop, thinking);
    assert TextIn(UnparseOpen(blocks), thinking) + "" == TextIn(UnparseOpen(blocks), thinking);
  }

  lemma JoinText(blocks: seq<Block>, more: seq<A.Event>, now: seq<Block>, thinking: bool)
    requires UnparseOpen(now) == UnparseOpen(blocks) + more
    ensures TextIn(Unparse(now), thinking) == TextIn(Unparse(blocks), thinking) + TextIn(more, thinking)
  {
    OpenText(now, thinking);
    OpenText(blocks, thinking);
    TextInAppend(UnparseOpen(blocks), more, thinking);
  }

  lemma GroupedText(blocks: seq<Block>, latest: Option<int>, e: C.Upstream, thinking: bool)
    ensures TextIn(Unparse(Grouped(blocks, latest, e)), thinking) ==
            TextIn(Unparse(blocks), thinking) + Said(e, thinking)
  {
    match e {
      case UpText(text) => TypedText(blocks, A.TextBlock, A.TextDelta(text), thinking);
      case UpReasoning(text) => TypedText(blocks, A.ThinkingBlock, A.ThinkingDelta(text), thinking);
      case UpToolCallStart(_, id, name) =>
        var b := Block(A.ToolBlock(id, name), []);
        BeginText(blocks, b, thinking);
      case UpToolArgs(_, delta) =>
        if Grouped(blocks, latest, e) != blocks {
          JoinEmits(blocks, A.JsonDelta(delta));
          JoinText(blocks, [A.JsonDelta(delta)], Join(blocks, A.JsonDelta(delta)), thinking);
          OneText(A.JsonDelta(delta), thinking);
        }
      case _ =>
    }
    assert TextIn(Unparse(blocks), thinking) + "" == TextIn(Unparse(blocks), thinking);
  }

  lemma OneText(d: A.Event, thinking: bool)
    ensures TextIn([d], thinking) ==
            match d
            case TextDelta(text) => if thinking then "" else text
            case ThinkingDelta(text) => if thinking then text else ""
            case _ => ""
  {
    assert TextIn([], thinking) == "";
  }

  lemma BeginText(blocks: seq<Block>, b: Block, thinking: bool)
    ensures TextIn(Unparse(blocks + [b]), thinking) == TextIn(Unparse(blocks), thinking) + TextIn(b.deltas, thinking)
  {
    assert (blocks + [b])[..|blocks|] == blocks;
    TextInAppend(Unparse(blocks), BlockScript(b), thinking);
    TextInAppend([A.BlockStart(b.init)] + b.deltas, [A.BlockStop], thinking);
    TextInAppend([A.BlockStart(b.init)], b.deltas, thinking);
    OneText(A.BlockStop, thinking);
    OneText(A.BlockStart(b.init), thinking);
  }

  lemma TypedText(blocks: seq<Block>, init: A.BlockInit, delta: A.Event, thinking: bool)
    ensures TextIn(Unparse(JoinOrBegin(blocks, init, delta)), thinking) ==
            TextIn(Unparse(blocks), thinking) + TextIn([delta], thinking)
    ensures TextIn([delta], thinking) ==
            match delta
            case TextDelta(text) => if thinking then "" else text
            case ThinkingDelta(text) => if thinking then text else ""
            case _ => ""
  {
    OneText(delta, thinking);
    if blocks != [] && blocks[|blocks| - 1].init.Kind() == init.Kind() {
      JoinEmits(blocks, delta);
      JoinText(blocks, [delta], Join(blocks, delta), thinking);
    } else {
      BeginText(blocks, Block(init, [delta]), thinking);
    }
  }

  lemma {:induction false} BlocksText(events: seq<C.Upstream>, thinking: bool)
    ensures TextIn(Unparse(Blocks(events)), thinking) == SaidIn(events, thinking)
  {
    if events != [] {
      BlocksText(Before(events), thinking);
      GroupedText(Blocks(Before(events)), LatestCall(Before(events)), events[|events| - 1], thinking);
    }
  }

  /** Every character of text, and of reasoning, reaches the client in order, and nothing else does. */
  lemma TextIsForwarded(model: string, events: seq<C.Upstream>, thinking: bool)
    ensures TextIn(Translate(model, events), thinking) == SaidIn(Live(events), thinking)
  {
    var live := Live(events);
    var start := StartEvent(model, ReportedAtStart(live));
    var delta := A.MessageDelta(ToStopReason(Reason(live)), None, ToUsage(Reported(live)));
    TranslationIs(model, events);
    BlocksText(live, thinking);
    TextInAppend([start] + Unparse(Blocks(live)), [delta, A.MessageStop], thinking);
    TextInAppend([start], Unparse(Blocks(live)), thinking);
    OneText(start, thinking);
    OneText(delta, thinking);
    OneText(A.MessageStop, thinking);
    assert [delta, A.MessageStop] == [delta] + [A.MessageStop];
    TextInAppend([delta], [A.MessageStop], thinking);
  }

  // ----- What the grouping means -----

  /** The fragments of one call among later events, by the upstream index they carry. */
  function Fragments(events: seq<C.Upstream>, index: int): seq<A.Event> {
    if events == [] then []
    else
      var last := events[|events| - 1];
      Fragments(Before(events), index)
      + if last.UpToolArgs? && last.index == index then [A.JsonDelta(last.delta)] else []
  }

  lemma GrowFragments(past: seq<C.Upstream>, e: C.Upstream, index: int)
    ensures Fragments(past + [e], index) ==
            Fragments(past, index) + if e.UpToolArgs? && e.index == index then [A.JsonDelta(e.delta)] else []
  {
    assert (past + [e])[..|past|] == past;
  }

  lemma JoinLast(blocks: seq<Block>, init: A.BlockInit, deltas: seq<A.Event>, delta: A.Event)
    ensures Join(blocks + [Block(init, deltas)], delta) == blocks + [Block(init, deltas + [delta])]
  {
  }

  /** A call's block holds the fragments that follow under its own index, up to the next text, thought or call. */
  lemma {:induction false} CallGathers(past: seq<C.Upstream>, start: C.Upstream, more: seq<C.Upstream>)
    requires start.UpToolCallStart?
    requires forall e :: e in more ==> !e.UpText? && !e.UpReasoning? && !e.UpToolCallStart?
    ensures Blocks(past + [start] + more) ==
            Blocks(past) + [Block(A.ToolBlock(start.callId, start.name), Fragments(more, start.index))]
    ensures LatestCall(past + [start] + more) == Some(start.index)
    decreases more
  {
    Grow(past, start);
    GrowReport(past, start);
    if more == [] {
      AppendNone(past + [start]);
    } else {
      var n := |more| - 1;
      var last, init := more[n], A.ToolBlock(start.callId, start.name);
      assert last in more && more == more[..n] + [last];
      CallGathers(past, start, more[..n]);
      Assoc(past + [start], more[..n], [last]);
      Grow(past + [start] + more[..n], last);
      GrowReport(past + [start] + more[..n], last);
      GrowFragments(more[..n], last, start.index);
      if last.UpToolArgs? && last.index == start.index {
        JoinLast(Blocks(past), init, Fragments(more[..n], start.index), A.JsonDelta(last.delta));
      } else {
        AppendNone(Fragments(more[..n], start.index));
      }
    }
  }

  /** The deltas of one kind among some events: text, or thinking. */
  function Typed(events: seq<C.Upstream>, thinking: bool): seq<A.Event> {
    if events == [] then []
    else
      var last := events[|events| - 1];
      Typed(Before(events), thinking)
      + if last.UpText? && !thinking then [A.TextDelta(last.text)]
        else if last.UpReasoning? && thinking then [A.ThinkingDelta(last.text)]
        else []
  }

  lemma {:induction false} GrowTyped(past: seq<C.Upstream>, e: C.Upstream, now: seq<C.Upstream>, thinking: bool)
    requires now == past + [e]
    ensures Typed(now, thinking) ==
            Typed(past, thinking)
            + if e.UpText? && !thinking then [A.TextDelta(e.text)]
              else if e.UpReasoning? && thinking then [A.ThinkingDelta(e.text)]
              else []
  {
    assert now[..|past|] == past;
  }

  /** Text begins a block of its own unless one is open, and so does thinking. */
  lemma TypedBegins(past: seq<C.Upstream>, e: C.Upstream)
    requires e.UpText? || e.UpReasoning?
    requires var blocks := Blocks(past);
             blocks == [] || blocks[|blocks| - 1].init != (if e.UpText? then A.TextBlock else A.ThinkingBlock)
    ensures Blocks(past + [e]) ==
            Blocks(past) + [if e.UpText? then Block(A.TextBlock, [A.TextDelta(e.text)])
                            else Block(A.ThinkingBlock, [A.ThinkingDelta(e.text)])]
  {
    Grow(past, e);
    if Blocks(past) != [] {
      KindsAreInits(past);
    }
  }

  lemma KindsAreInits(past: seq<C.Upstream>)
    requires Blocks(past) != []
    ensures var init := Blocks(past)[|Blocks(past)| - 1].init;
            && (init.Kind() == A.TextKind <==> init == A.TextBlock)
            && (init.Kind() == A.ThinkingKind <==> init == A.ThinkingBlock)
  {
  }

  /** A block of text, or of thinking, holds every later piece of its kind up to the other kind or a call. */
  lemma {:induction false} TypedGathers(past: seq<C.Upstream>, blocks: seq<Block>, deltas: seq<A.Event>,
                                        more: seq<C.Upstream>, thinking: bool)
    requires var init := if thinking then A.ThinkingBlock else A.TextBlock;
             Blocks(past) == blocks + [Block(init, deltas)]
    requires forall e :: e in more ==> !e.UpToolCallStart? && (if thinking then !e.UpText? else !e.UpReasoning?)
    ensures var init := if thinking then A.ThinkingBlock else A.TextBlock;
            Blocks(past + more) == blocks + [Block(init, deltas + Typed(more, thinking))]
    decreases more
  {
    if more == [] {
      AppendNone(past);
      AppendNone(deltas);
    } else {
      var n := |more| - 1;
      var last, init := more[n], if thinking then A.ThinkingBlock else A.TextBlock;
      assert last in more && more == more[..n] + [last];
      TypedGathers(past, blocks, deltas, more[..n], thinking);
      Assoc(past, more[..n], [last]);
      Grow(past + more[..n], last);
      GrowTyped(more[..n], last, more, thinking);
      var held := deltas + Typed(more[..n], thinking);
      if last.UpText? || last.UpReasoning? {
        var delta := if thinking then A.ThinkingDelta(last.text) else A.TextDelta(last.text);
        JoinLast(blocks, init, held, delta);
        Assoc(deltas, Typed(more[..n], thinking), [delta]);
      } else {
        AppendNone(Typed(more[..n], thinking));
      }
    }
  }

  // ----- How the transcript opens and ends -----

  /** The stop reason of each finish reason. */
  lemma StopReasonIs(reason: Option<string>)
    ensures ToStopReason(reason) == "max_tokens" <==> reason == Some("length")
    ensures ToStopReason(reason) == "tool_use" <==> reason == Some("tool_calls") || reason == Some("function_call")
    ensures ToStopReason(reason) == "refusal" <==> reason == Some("content_filter")
    ensures ToStopReason(reason) == "end_turn" <==>
            reason !in [Some("length"), Some("tool_calls"), Some("function_call"), Some("content_filter")]
  {
    assert "max_tokens" != "tool_use" && "refusal" != "max_tokens" && "refusal" != "tool_use";
    assert "end_turn" != "max_tokens" && "end_turn" != "tool_use" && "end_turn" != "refusal";
    assert "length" != "tool_calls" && "length" != "function_call" && "length" != "content_filter";
    assert "tool_calls" != "content_filter" && "function_call" != "content_filter";
  }

  /** The Anthropic counts of a chat usage report. */
  predicate CountsAre(u: A.Usage, reported: Option<C.Usage>) {
    && u.input == (if reported.Some? then Some(reported.value.prompt) else None)
    && u.output == (if reported.Some? then Some(reported.value.completion) else None)
    && u.cacheRead == (if reported.Some? then reported.value.cached else None)
    && u.cacheWrite == None
  }

  /**
   * The transcript opens with the model and what was reported before anything opened the message, its output
   * count being zero as yet, and closes with the stop reason and the counts reported last.
   */
  lemma TranslationEnds(model: string, events: seq<C.Upstream>)
    ensures var script, live := Translate(model, events), Live(events);
            && |script| >= 3 && script[|script| - 1] == A.MessageStop
            && var first, last := script[0], script[|script| - 2];
               && first.MessageStart? && first.model == model && first.id == None && first.usage.Some?
               && first.usage.value.output == Some(0)
               && CountsAre(first.usage.value.(output :=
                              if ReportedAtStart(live).Some? then Some(ReportedAtStart(live).value.completion)
                              else None), ReportedAtStart(live))
               && last.MessageDelta? && last.stopSequence == None && last.stopReason == ToStopReason(Reason(live))
               && (last.usage.Some? <==> Reported(live).Some?)
               && (last.usage.Some? ==> CountsAre(last.usage.value, Reported(live)))
  {
    TranslationIs(model, events);
  }

  /** What was reported before the first event that opens the message. */
  lemma {:induction false} ReportedBefore(before: seq<C.Upstream>, e: C.Upstream, after: seq<C.Upstream>)
    requires !Started(before) && Opens(e)
    ensures ReportedAtStart(before + [e] + after) == Reported(before)
    decreases after
  {
    Grow(before, e);
    GrowReport(before, e);
    if after == [] {
      AppendNone(before + [e]);
    } else {
      var n := |after| - 1;
      assert after == after[..n] + [after[n]];
      ReportedBefore(before, e, after[..n]);
      Assoc(before + [e], after[..n], [after[n]]);
      Grow(before + [e] + after[..n], after[n]);
      assert (before + [e] + after[..n])[|before|] == e;
    }
  }
}
