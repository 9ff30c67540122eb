/**
 * Chat to Anthropic to Chat: a chat stream relayed through the Messages surface
 * and back, as a chat client holds it in the end.
 */
module ChatRoundTrip {
  import opened Base
  import opened Json
  import SR = SseRecords
  import A = AnthropicStream
  import C = ChatStream
  import opened AnthropicBlocks
  import T = ChatToAnthropic
  import H = ChatHistory
  import opened AnthropicToChat
  import opened ChatResult
  import opened ChatCollector
  import opened BlockReading

  // ----- What the blocks of a chat stream say -----

  lemma {:induction false} TextOfAppend(a: seq<A.Event>, b: seq<A.Event>)
    ensures TextOf(a + b) == TextOf(a) + TextOf(b)
    decreases a
  {
    if a == [] {
      assert a + b == b;
    } else {
      assert (a + b)[1..] == a[1..] + b;
      TextOfAppend(a[1..], b);
    }
  }

  lemma TextOfOne(d: A.Event)
    ensures TextOf([d]) == if d.TextDelta? then d.text else ""
  {
    assert TextOf([]) == "";
  }

  lemma JoinSays(blocks: seq<Block>, d: A.Event)
    requires blocks != []
    ensures TextOfBlocks(T.Join(blocks, d)) == TextOfBlocks(blocks) + if d.TextDelta? then d.text else ""
  {
    var n := |blocks| - 1;
    assert T.Join(blocks, d)[..n] == blocks[..n];
    TextOfAppend(blocks[n].deltas, [d]);
    TextOfOne(d);
    Assoc(TextOfBlocks(blocks[..n]), TextOf(blocks[n].deltas), TextOf([d]));
  }

  lemma BeginSays(blocks: seq<Block>, b: Block)
    ensures TextOfBlocks(blocks + [b]) == TextOfBlocks(blocks) + TextOf(b.deltas)
    ensures CallsOfBlocks(blocks + [b]) == CallsOfBlocks(blocks) + CallsOfBlock(b)
  {
    assert (blocks + [b])[..|blocks|] == blocks;
  }

  lemma TypedSays(blocks: seq<Block>, init: A.BlockInit, d: A.Event)
    ensures TextOfBlocks(T.JoinOrBegin(blocks, init, d)) == TextOfBlocks(blocks) + if d.TextDelta? then d.text else ""
  {
    if blocks != [] && blocks[|blocks| - 1].init.Kind() == init.Kind() {
      JoinSays(blocks, d);
    } else {
      BeginSays(blocks, Block(init, [d]));
      TextOfOne(d);
    }
  }

  lemma GroupedSays(blocks: seq<Block>, latest: Option<int>, e: C.Upstream)
    ensures TextOfBlocks(T.Grouped(blocks, latest, e)) == TextOfBlocks(blocks) + T.Said(e, false)
  {
    assert TextOfBlocks(blocks) + "" == TextOfBlocks(blocks);
    match e {
      case UpText(text) => TypedSays(blocks, A.TextBlock, A.TextDelta(text));
      case UpReasoning(text) => TypedSays(blocks, A.ThinkingBlock, A.ThinkingDelta(text));
      case UpToolCallStart(_, id, name) => BeginSays(blocks, Block(A.ToolBlock(id, name), []));
      case UpToolArgs(_, delta) =>
        if T.Grouped(blocks, latest, e) != blocks {
          JoinSays(blocks, A.JsonDelta(delta));
        }
      case _ =>
    }
  }

  lemma {:induction false} BlocksSaySaid(events: seq<C.Upstream>)
    ensures TextOfBlocks(T.Blocks(events)) == T.SaidIn(events, false)
  {
    if events != [] {
      BlocksSaySaid(H.Before(events));
      GroupedSays(T.Blocks(H.Before(events)), T.LatestCall(H.Before(events)), events[|events| - 1]);
    }
  }

  // ----- Any chat stream, relayed -----

  /** What `chatToAnthropicStream` sends a client when fed a chat transcript. */
  function Relayed(c: Codec, model: string, upstream: string, msgId: string): string {
    match A.EncodeStream(T.Translate(model, C.DecodeAll(SR.Parse(SR.OpenAI, c, upstream))), msgId)
    case Err(_) => ""
    case Ok(records) => SR.RenderAll(c, records)
  }

  function RelayedReason(reason: Option<string>): string {
    StopToFinish(Some(T.ToStopReason(reason)))
  }

  function Opener(model: string, live: seq<C.Upstream>): A.Event {
    T.StartEvent(model, T.ReportedAtStart(live))
  }

  function Closer(live: seq<C.Upstream>): A.Event {
    A.MessageDelta(T.ToStopReason(H.Reason(live)), None, T.ToUsage(H.Reported(live)))
  }

  /** There and back, any upstream stream at all keeps its text; its calls are those its blocks hold. */
  lemma StreamRelayed(c: Codec, upstream: string, there: string, back: string, msgId: string, chatId: string,
                      nowSec: int)
    requires Lawful(c)
    ensures var live := H.Live(C.DecodeAll(SR.Parse(SR.OpenAI, c, upstream)));
            Collect(NOTHING, ClientSees(c, back, Relayed(c, there, upstream, msgId), chatId, nowSec)) ==
            Collected(T.SaidIn(live, false), Indexed(CallsOfBlocks(T.Blocks(live)), 0),
                      Some(RelayedReason(H.Reason(live))), Some(FinalUsage(Opener(there, live), Closer(live))))
  {
    var events := C.DecodeAll(SR.Parse(SR.OpenAI, c, upstream));
    var live := H.Live(events);
    T.TranslationIs(there, events);
    T.BlocksFit(live);
    MessageOverTheWire(c, Opener(there, live), T.Blocks(live), Closer(live), back, msgId, chatId, nowSec);
    BlocksSaySaid(live);
  }

  // ----- A completed result, relayed -----

  lemma Grow(past: seq<C.Upstream>, e: C.Upstream)
    ensures H.Before(past + [e]) == past
    ensures T.Blocks(past + [e]) == T.Grouped(T.Blocks(past), T.LatestCall(past), e)
    ensures T.SaidIn(past + [e], false) == T.SaidIn(past, false) + T.Said(e, false)
  {
    assert (past + [e])[..|past|] == past;
  }

  lemma BareCallSays(past: seq<C.Upstream>, start: C.Upstream, call: Call)
    requires start.UpToolCallStart? && start.callId == call.id && start.name == call.name
    ensures CallsOfBlocks(T.Blocks(past + [start])) == CallsOfBlocks(T.Blocks(past)) + [call.(arguments := "")]
    ensures T.Blocks(past + [start]) == T.Blocks(past) + [Block(A.ToolBlock(call.id, call.name), [])]
    ensures T.SaidIn(past + [start], false) == T.SaidIn(past, false)
    ensures T.Started(past + [start]) && T.LatestCall(past + [start]) == Some(start.index)
  {
    Grow(past, start);
    T.Grow(past, start);
    BeginSays(T.Blocks(past), Block(A.ToolBlock(call.id, call.name), []));
    assert T.SaidIn(past, false) + "" == T.SaidIn(past, false);
  }

  /** A call's start and arguments, read as a block, are that call. */
  lemma CallSays(past: seq<C.Upstream>, index: nat, call: Call)
    ensures var seen := [C.UpToolCallStart(index, call.id, call.name)]
                        + (if call.arguments == "" then [] else [C.UpToolArgs(index, call.arguments)]);
            && CallsOfBlocks(T.Blocks(past + seen)) == CallsOfBlocks(T.Blocks(past)) + [call]
            && T.SaidIn(past + seen, false) == T.SaidIn(past, false)
            && T.Started(past + seen)
  {
    var start, args := C.UpToolCallStart(index, call.id, call.name), C.UpToolArgs(index, call.arguments);
    BareCallSays(past, start, call);
    if call.arguments == "" {
      assert [start] + [] == [start];
    } else {
      ArgumentsSay(past + [start], T.Blocks(past), index, call);
      Assoc(past, [start], [args]);
    }
  }

  lemma ArgumentsSay(past: seq<C.Upstream>, blocks: seq<Block>, index: nat, call: Call)
    requires T.Blocks(past) == blocks + [Block(A.ToolBlock(call.id, call.name), [])]
    requires T.LatestCall(past) == Some(index) && T.Started(past)
    ensures var now := past + [C.UpToolArgs(index, call.arguments)];
            && CallsOfBlocks(T.Blocks(now)) == CallsOfBlocks(blocks) + [call]
            && T.SaidIn(now, false) == T.SaidIn(past, false) && T.Started(now)
  {
    var args := C.UpToolArgs(index, call.arguments);
    Grow(past, args);
    T.Grow(past, args);
    ArgumentsJoin(blocks, Block(A.ToolBlock(call.id, call.name), []), call.arguments);
    AppendNone(T.SaidIn(past, false));
  }

  lemma ArgumentsJoin(blocks: seq<Block>, begun: Block, arguments: string)
    requires begun.init.ToolBlock? && begun.deltas == []
    ensures CallsOfBlocks(T.Join(blocks + [begun], A.JsonDelta(arguments))) ==
            CallsOfBlocks(blocks) + [Call(begun.init.id, begun.init.name, arguments)]
  {
    var joined := begun.(deltas := [A.JsonDelta(arguments)]);
    assert (blocks + [begun])[..|blocks|] == blocks;
    assert [] + [A.JsonDelta(arguments)] == [A.JsonDelta(arguments)];
    BeginSays(blocks, joined);
    assert arguments + ArgumentsOf([]) == arguments;
  }

  lemma {:induction false} CallsSay(past: seq<C.Upstream>, calls: seq<Call>, index: nat)
    ensures var all := past + CallsSeen(calls, index);
            CallsOfBlocks(T.Blocks(all)) == CallsOfBlocks(T.Blocks(past)) + calls
            && T.SaidIn(all, false) == T.SaidIn(past, false)
    decreases calls
  {
    if calls == [] {
      assert past + [] == past && CallsOfBlocks(T.Blocks(past)) + [] == CallsOfBlocks(T.Blocks(past));
    } else {
      var call := calls[0];
      var seen := [C.UpToolCallStart(index, call.id, call.name)]
                  + (if call.arguments == "" then [] else [C.UpToolArgs(index, call.arguments)]);
      CallSays(past, index, call);
      CallsSay(past + seen, calls[1..], index + 1);
      Assoc(past, seen, CallsSeen(calls[1..], index + 1));
      Assoc(CallsOfBlocks(T.Blocks(past)), [call], calls[1..]);
      assert [call] + calls[1..] == calls;
    }
  }

  ghost predicate Quiet(events: seq<C.Upstream>) {
    forall e :: e in events ==> !e.UpFinish? && !e.UpUsage? && !e.UpDone?
  }

  lemma {:induction false} QuietReports(events: seq<C.Upstream>)
    requires Quiet(events)
    ensures H.Reason(events).None? && H.Reported(events).None?
  {
    if events != [] {
      assert events[|events| - 1] in events;
      QuietReports(H.Before(events));
    }
  }

  lemma {:induction false} CallsAreQuiet(calls: seq<Call>, index: nat)
    ensures Quiet(CallsSeen(calls, index))
  {
    if calls != [] {
      CallsAreQuiet(calls[1..], index + 1);
    }
  }

  lemma {:induction false} OpeningReport(first: C.Upstream, rest: seq<C.Upstream>)
    requires first.UpStart?
    ensures T.ReportedAtStart([first] + rest).None? && T.Started([first] + rest)
    decreases rest
  {
    if rest == [] {
      T.Grow([], first);
      assert [] + [first] == [first] == [first] + rest;
    } else {
      var n := |rest| - 1;
      OpeningReport(first, rest[..n]);
      Assoc([first], rest[..n], [rest[n]]);
      assert rest[..n] + [rest[n]] == rest;
      T.Grow([first] + rest[..n], rest[n]);
    }
  }

  /** The reader's view of an expanded result: what it says before its finish, and how it finishes. */
  function Body(r: CanonicalChat, freshId: string): seq<C.Upstream> {
    [C.UpStart(Some(r.id.GetOr(freshId)), Some(r.model))]
    + (if r.text == "" then [] else [C.UpText(r.text)]) + CallsSeen(r.calls, 0)
  }

  function Lead(r: CanonicalChat, freshId: string): seq<C.Upstream> {
    [C.UpStart(Some(r.id.GetOr(freshId)), Some(r.model))] + (if r.text == "" then [] else [C.UpText(r.text)])
  }

  lemma LeadSays(r: CanonicalChat, freshId: string)
    ensures CallsOfBlocks(T.Blocks(Lead(r, freshId))) == []
    ensures T.SaidIn(Lead(r, freshId), false) == r.text
  {
    var start := C.UpStart(Some(r.id.GetOr(freshId)), Some(r.model));
    Grow([], start);
    assert [] + [start] == [start];
    if r.text == "" {
      assert [start] + [] == [start];
    } else {
      Grow([start], C.UpText(r.text));
      assert "" + r.text == r.text;
      BeginSays([], Block(A.TextBlock, [A.TextDelta(r.text)]));
    }
  }

  lemma BodySays(r: CanonicalChat, freshId: string)
    ensures CallsOfBlocks(T.Blocks(Body(r, freshId))) == r.calls
    ensures T.SaidIn(Body(r, freshId), false) == r.text
  {
    LeadSays(r, freshId);
    CallsSay(Lead(r, freshId), r.calls, 0);
    assert [] + r.calls == r.calls;
  }

  lemma BodyIsQuiet(r: CanonicalChat, freshId: string)
    ensures Quiet(Body(r, freshId))
  {
    CallsAreQuiet(r.calls, 0);
  }

  lemma FinishSays(past: seq<C.Upstream>, reason: string, usage: Option<C.Usage>)
    requires Quiet(past)
    ensures var all := past + [C.UpFinish(Some(reason))] + (if usage.Some? then [C.UpUsage(usage.value)] else []);
            && T.Blocks(all) == T.Blocks(past) && T.SaidIn(all, false) == T.SaidIn(past, false)
            && H.Reason(all) == Some(reason) && H.Reported(all) == usage
  {
    QuietReports(past);
    var finish := C.UpFinish(Some(reason));
    Grow(past, finish);
    assert T.SaidIn(past, false) + "" == T.SaidIn(past, false);
    if usage.Some? {
      Grow(past + [finish], C.UpUsage(usage.value));
    } else {
      assert past + [finish] + [] == past + [finish];
    }
  }

  /** The usage that survives: the counts the Messages surface carries on its final delta. */
  function RelayedUsage(usage: Option<C.Usage>): C.Usage {
    match usage
    case None => C.Usage(0, 0, None, None)
    case Some(u) => C.Usage(u.prompt, u.completion, None, None)
  }

  /** The finish reasons the Messages surface can tell apart. */
  const KEPT_REASONS := {"stop", "length", "tool_calls"}

  lemma ReasonKept(reason: string)
    ensures RelayedReason(Some(reason)) == reason <==> reason in KEPT_REASONS
  {
    assert "end_turn" != "max_tokens" && "end_turn" != "tool_use" && "refusal" != "max_tokens"
           && "refusal" != "tool_use";
    assert "stop" != "length" && "stop" != "tool_calls" && "stop" != "function_call" && "stop" != "content_filter";
    assert "tool_calls" != "length" && "tool_use" != "max_tokens" && "tool_calls" != "function_call";
    assert "function_call" != "length" && "content_filter" != "length" && "content_filter" != "tool_calls";
    assert "content_filter" != "function_call";
  }

  lemma ResultStarts(r: CanonicalChat, freshId: string)
    ensures T.ReportedAtStart(ResultSeen(r, freshId)).None?
  {
    var seen := ResultSeen(r, freshId);
    OpeningReport(seen[0], seen[1..]);
    assert seen == [seen[0]] + seen[1..];
  }

  lemma ResultEnds(r: CanonicalChat, freshId: string)
    ensures H.Live(ResultSeen(r, freshId) + [C.UpDone]) == ResultSeen(r, freshId)
  {
    CallsAreQuiet(r.calls, 0);
    H.LiveUntilDone(ResultSeen(r, freshId));
  }

  lemma ResultSays(r: CanonicalChat, freshId: string)
    ensures var live := ResultSeen(r, freshId);
            && CallsOfBlocks(T.Blocks(live)) == r.calls && T.SaidIn(live, false) == r.text
            && H.Reason(live) == Some(r.finishReason) && H.Reported(live) == r.usage
  {
    BodySays(r, freshId);
    BodyIsQuiet(r, freshId);
    FinishSays(Body(r, freshId), r.finishReason, r.usage);
  }

  lemma UsageKept(there: string, live: seq<C.Upstream>)
    requires T.ReportedAtStart(live).None?
    ensures FinalUsage(Opener(there, live), Closer(live)) == RelayedUsage(H.Reported(live))
  {
  }

  /**
   * A chat result streamed to the Messages surface and back: the same text, the same calls in order,
   * the prompt and completion counts when it reports any, and its finish reason exactly when that
   * is one the Messages surface can tell apart.
   */
  lemma RoundTrip(c: Codec, r: CanonicalChat, there: string, back: string, sentId: string, msgId: string,
                  chatId: string, nowSec: int)
    requires Lawful(c)
    ensures C.EncodeStream(EventsForResult(r), sentId, nowSec).Ok?
    ensures var sent := SR.RenderAll(c, C.EncodeStream(EventsForResult(r), sentId, nowSec).value);
            var held := Collect(NOTHING, ClientSees(c, back, Relayed(c, there, sent, msgId), chatId, nowSec));
            && held.text == r.text && held.calls == Indexed(r.calls, 0)
            && held.usage == Some(RelayedUsage(r.usage))
            && (held.reason == Some(r.finishReason) <==> r.finishReason in KEPT_REASONS)
            && held.reason == Some(RelayedReason(Some(r.finishReason)))
  {
    ResultOverTheWire(c, r, sentId, nowSec);
    var sent := SR.RenderAll(c, C.EncodeStream(EventsForResult(r), sentId, nowSec).value);
    StreamRelayed(c, sent, there, back, msgId, chatId, nowSec);
    ResultSays(r, sentId);
    ResultStarts(r, sentId);
    ResultEnds(r, sentId);
    UsageKept(there, ResultSeen(r, sentId));
    ReasonKept(r.finishReason);
  }
}
