/**
 * What the Anthropic to Chat translator, and then a chat client, make of a
 * transcript given as a list of content blocks.
 */
module BlockReading {
  import opened Base
  import opened Json
  import SR = SseRecords
  import A = AnthropicStream
  import C = ChatStream
  import opened AnthropicBlocks
  import opened AnthropicToChat
  import opened ChatResult
  import opened ChatCollector

  // ----- Blocks as chat deltas -----

  function CallCount(blocks: seq<Block>): nat {
    if blocks == [] then 0
    else CallCount(blocks[..|blocks| - 1]) + if blocks[|blocks| - 1].init.ToolBlock? then 1 else 0
  }

  /** A delta inside a block, the latest call being number `k`. */
  function DeltaMeaning(d: A.Event, k: int): seq<C.Event> {
    match d
    case TextDelta(text) => if text == "" then [] else [C.Text(text)]
    case JsonDelta(partial) => [C.ToolArgs(k, partial)]
    case _ => []
  }

  function DeltasMeaning(deltas: seq<A.Event>, k: int): seq<C.Event> {
    if deltas == [] then [] else DeltaMeaning(deltas[0], k) + DeltasMeaning(deltas[1..], k)
  }

  /** The calls a block opens, the next being number `k`. */
  function Announced(init: A.BlockInit, k: nat): seq<C.Event> {
    if init.ToolBlock? then [C.ToolCallStart(k, init.id, init.name)] else []
  }

  function Latest(init: A.BlockInit, k: nat): int {
    if init.ToolBlock? then k else k - 1
  }

  function BlockMeaning(b: Block, k: nat): seq<C.Event> {
    Announced(b.init, k) + DeltasMeaning(b.deltas, Latest(b.init, k))
  }

  function BlocksMeaning(blocks: seq<Block>): seq<C.Event> {
    if blocks == [] then []
    else
      var n := |blocks| - 1;
      BlocksMeaning(blocks[..n]) + BlockMeaning(blocks[n], CallCount(blocks[..n]))
  }

  // ----- Reading a script back, part by part -----

  function Starts(script: seq<A.Event>): nat {
    if script == [] then 0 else (if script[0].BlockStart? then 1 else 0) + Starts(script[1..])
  }

  lemma {:induction false} ReadBackAppend(a: seq<A.Event>, b: seq<A.Event>, n: nat, freshId: string)
    ensures A.ReadBack(a + b, n, freshId) == A.ReadBack(a, n, freshId) + A.ReadBack(b, n + Starts(a), freshId)
    decreases a
  {
    if a == [] {
      assert a + b == b;
    } else {
      assert (a + b)[1..] == a[1..] + b;
      ReadBackAppend(a[1..], b, if a[0].BlockStart? then n + 1 else n, freshId);
    }
  }

  lemma {:induction false} StartsOfDeltas(deltas: seq<A.Event>)
    requires forall d :: d in deltas ==> d.Needs().Some?
    ensures Starts(deltas) == 0
  {
    if deltas != [] {
      assert deltas[0] in deltas;
      StartsOfDeltas(deltas[1..]);
    }
  }

  lemma ReadOne(e: A.Event, n: nat, freshId: string)
    requires !e.Ping? && !e.BlockStart?
    ensures A.ReadBack([e], n, freshId) == [A.SeenAs(e, n - 1, freshId).value]
  {
    assert A.ReadBack([e], n, freshId) == [A.SeenAs(e, n - 1, freshId).value] + A.ReadBack([], n, freshId);
  }

  /** A block reads as its start, its deltas and its stop, all under its own index. */
  lemma BlockReads(b: Block, n: nat, freshId: string)
    requires BlockFit(b)
    ensures A.ReadBack(BlockScript(b), n, freshId) ==
            [A.UpBlockStart(n, b.init)] + A.ReadBack(b.deltas, n + 1, freshId) + [A.UpBlockStop(n)]
  {
    ReadBackAppend([A.BlockStart(b.init)] + b.deltas, [A.BlockStop], n, freshId);
    ReadBackAppend([A.BlockStart(b.init)], b.deltas, n, freshId);
    StartsOfDeltas(b.deltas);
    assert Starts([A.BlockStart(b.init)] + b.deltas) == 1 by {
      assert ([A.BlockStart(b.init)] + b.deltas)[1..] == b.deltas;
    }
    assert Starts([A.BlockStart(b.init)]) == 1;
    ReadOne(A.BlockStop, n + 1, freshId);
    assert A.ReadBack([A.BlockStart(b.init)], n, freshId) == [A.UpBlockStart(n, b.init)]
           + A.ReadBack([], n + 1, freshId);
  }

  // ----- The translator's history, block by block -----

  ghost predicate Reading(past: seq<A.Upstream>, body: seq<C.Event>, k: nat, usage: A.Usage,
                          open: Option<A.BlockKind>) {
    && Body(past) == body && OpenKind(past) == open && Tools(past) == k
    && UsageOf(past) == usage && StopOf(past).None? && A.UpMessageStop !in past
  }

  lemma Grow(past: seq<A.Upstream>, e: A.Upstream)
    ensures Before(past + [e]) == past
    ensures Body(past + [e]) == Body(past) + Meaning(past, e)
  {
    assert (past + [e])[..|past|] == past;
  }

  lemma EnterBlock(past: seq<A.Upstream>, body: seq<C.Event>, k: nat, usage: A.Usage, n: nat, init: A.BlockInit)
    requires Reading(past, body, k, usage, None)
    ensures Reading(past + [A.UpBlockStart(n, init)], body + Announced(init, k), Latest(init, k) + 1, usage,
                    Some(init.Kind()))
  {
    Grow(past, A.UpBlockStart(n, init));
  }

  lemma LeaveBlock(past: seq<A.Upstream>, body: seq<C.Event>, k: nat, usage: A.Usage, kind: A.BlockKind, n: nat)
    requires Reading(past, body, k, usage, Some(kind))
    ensures Reading(past + [A.UpBlockStop(n)], body, k, usage, None)
  {
    Grow(past, A.UpBlockStop(n));
    assert body + [] == body;
  }

  lemma DeltaInBlock(past: seq<A.Upstream>, body: seq<C.Event>, k: nat, usage: A.Usage, kind: A.BlockKind,
                     d: A.Event, n: nat, freshId: string)
    requires Reading(past, body, k, usage, Some(kind)) && d.Needs() == Some(kind)
    ensures Reading(past + [A.SeenAs(d, n, freshId).value], body + DeltaMeaning(d, k - 1), k, usage, Some(kind))
  {
    Grow(past, A.SeenAs(d, n, freshId).value);
  }

  lemma {:induction false} DeltasInBlock(past: seq<A.Upstream>, body: seq<C.Event>, k: nat, usage: A.Usage,
                                         kind: A.BlockKind, deltas: seq<A.Event>, n: nat, freshId: string)
    requires Reading(past, body, k, usage, Some(kind)) && forall d :: d in deltas ==> d.Needs() == Some(kind)
    ensures Reading(past + A.ReadBack(deltas, n + 1, freshId), body + DeltasMeaning(deltas, k - 1), k, usage,
                    Some(kind))
    decreases deltas
  {
    if deltas == [] {
      assert past + [] == past && body + [] == body;
    } else {
      var d, rest := deltas[0], deltas[1..];
      assert d in deltas;
      var seen := A.SeenAs(d, n, freshId).value;
      DeltaInBlock(past, body, k, usage, kind, d, n, freshId);
      DeltasInBlock(past + [seen], body + DeltaMeaning(d, k - 1), k, usage, kind, rest, n, freshId);
      Assoc(past, [seen], A.ReadBack(rest, n + 1, freshId));
      Assoc(body, DeltaMeaning(d, k - 1), DeltasMeaning(rest, k - 1));
    }
  }

  /** One block, over the wire, means its chat deltas. */
  lemma BlockMeans(past: seq<A.Upstream>, body: seq<C.Event>, k: nat, usage: A.Usage, b: Block, n: nat,
                   freshId: string, seen: seq<A.Upstream>)
    requires Reading(past, body, k, usage, None) && BlockFit(b) && seen == A.ReadBack(BlockScript(b), n, freshId)
    ensures Reading(past + seen, body + BlockMeaning(b, k), Latest(b.init, k) + 1, usage, None)
  {
    var start, deltas, stop := [A.UpBlockStart(n, b.init)], A.ReadBack(b.deltas, n + 1, freshId), [A.UpBlockStop(n)];
    var k1, kind := Latest(b.init, k) + 1, b.init.Kind();
    BlockReads(b, n, freshId);
    EnterBlock(past, body, k, usage, n, b.init);
    DeltasInBlock(past + start, body + Announced(b.init, k), k1, usage, kind, b.deltas, n, freshId);
    Assoc(body, Announced(b.init, k), DeltasMeaning(b.deltas, k1 - 1));
    LeaveBlock(past + start + deltas, body + BlockMeaning(b, k), k1, usage, kind, n);
    Assoc(past, start, deltas);
    Assoc(past, start + deltas, stop);
  }

  lemma {:induction false} BlocksMean(past: seq<A.Upstream>, usage: A.Usage, blocks: seq<Block>, freshId: string,
                                      seen: seq<A.Upstream>)
    requires Reading(past, [], 0, usage, None) && Fit(blocks) && seen == A.ReadBack(Unparse(blocks), 0, freshId)
    ensures Reading(past + seen, BlocksMeaning(blocks), CallCount(blocks), usage, None)
    decreases blocks
  {
    if blocks == [] {
      assert past + seen == past;
    } else {
      var n := |blocks| - 1;
      assert blocks[n] in blocks;
      var first := A.ReadBack(Unparse(blocks[..n]), 0, freshId);
      var last := A.ReadBack(BlockScript(blocks[n]), Starts(Unparse(blocks[..n])), freshId);
      LastBlockReads(blocks, freshId, seen, first, last);
      BlocksMean(past, usage, blocks[..n], freshId, first);
      BlockMeans(past + first, BlocksMeaning(blocks[..n]), CallCount(blocks[..n]), usage, blocks[n],
                 Starts(Unparse(blocks[..n])), freshId, last);
      Assoc(past, first, last);
    }
  }

  lemma LastBlockReads(blocks: seq<Block>, freshId: string, seen: seq<A.Upstream>, first: seq<A.Upstream>,
                       last: seq<A.Upstream>)
    requires blocks != [] && seen == A.ReadBack(Unparse(blocks), 0, freshId)
    requires var n := |blocks| - 1;
             && first == A.ReadBack(Unparse(blocks[..n]), 0, freshId)
             && last == A.ReadBack(BlockScript(blocks[n]), Starts(Unparse(blocks[..n])), freshId)
    ensures seen == first + last
  {
    ReadBackAppend(Unparse(blocks[..|blocks| - 1]), BlockScript(blocks[|blocks| - 1]), 0, freshId);
  }

  // ----- A whole message -----

  lemma PartsRead(start: A.Event, content: seq<A.Event>, delta: A.Event, freshId: string)
    requires start.MessageStart? && delta.MessageDelta?
    ensures A.ReadBack([start] + content + [delta, A.MessageStop], 0, freshId) ==
            [A.SeenAs(start, -1, freshId).value] + A.ReadBack(content, 0, freshId)
            + [A.SeenAs(delta, 0, freshId).value] + [A.UpMessageStop]
  {
    var n := Starts([start] + content);
    assert [start] + content + [delta, A.MessageStop] == [start] + content + ([delta] + [A.MessageStop]);
    ReadBackAppend([start] + content, [delta] + [A.MessageStop], 0, freshId);
    ReadBackAppend([delta], [A.MessageStop], n, freshId);
    ReadBackAppend([start], content, 0, freshId);
    assert Starts([start]) == 0 && Starts([delta]) == 0;
    ReadOne(start, 0, freshId);
    ReadOne(delta, n, freshId);
    ReadOne(A.MessageStop, n, freshId);
  }

  lemma WrapReads(start: A.Event, blocks: seq<Block>, delta: A.Event, freshId: string)
    requires start.MessageStart? && delta.MessageDelta?
    ensures A.ReadBack(Wrap(start, blocks, delta), 0, freshId) ==
            [A.SeenAs(start, -1, freshId).value] + A.ReadBack(Unparse(blocks), 0, freshId)
            + [A.SeenAs(delta, 0, freshId).value] + [A.UpMessageStop]
  {
    PartsRead(start, Unparse(blocks), delta, freshId);
  }

  lemma {:induction false} LiveUntilStop(live: seq<A.Upstream>)
    requires A.UpMessageStop !in live
    ensures Live(live + [A.UpMessageStop]) == live
  {
    if live != [] {
      assert (live + [A.UpMessageStop])[1..] == live[1..] + [A.UpMessageStop];
      LiveUntilStop(live[1..]);
    }
  }

  /** The usage a chat client is told of: the start report, updated by the delta report. */
  function FinalUsage(start: A.Event, delta: A.Event): C.Usage
    requires start.MessageStart? && delta.MessageDelta?
  {
    ToChatUsage(Merge(Merge(A.NO_USAGE, Some(A.StartReport(start.usage))), Some(A.DeltaReport(delta.usage))))
  }

  lemma StartReads(start: A.Event, freshId: string)
    requires start.MessageStart?
    ensures Reading([A.SeenAs(start, -1, freshId).value], [], 0, Merge(A.NO_USAGE, Some(A.StartReport(start.usage))),
                    None)
  {
    var e := A.SeenAs(start, -1, freshId).value;
    Grow([], e);
    assert [] + [e] == [e];
  }

  lemma DeltaReads(past: seq<A.Upstream>, body: seq<C.Event>, k: nat, usage: A.Usage, delta: A.Event, freshId: string)
    requires Reading(past, body, k, usage, None) && delta.MessageDelta?
    ensures Reading(past, body, k, usage, None)
    ensures var live := past + [A.SeenAs(delta, 0, freshId).value];
            && Body(live) == body && A.UpMessageStop !in live && StopOf(live) == Some(delta.stopReason)
            && UsageOf(live) == Merge(usage, Some(A.DeltaReport(delta.usage)))
  {
    Grow(past, A.SeenAs(delta, 0, freshId).value);
    assert body + [] == body;
  }

  /** The chat script of a message, over the wire. */
  lemma WrapTranslates(start: A.Event, blocks: seq<Block>, delta: A.Event, model: string, freshId: string)
    requires start.MessageStart? && delta.MessageDelta? && Fit(blocks)
    ensures Translate(model, A.ReadBack(Wrap(start, blocks, delta), 0, freshId)) ==
            [C.Start(model, None)] + BlocksMeaning(blocks)
            + [C.Finish(StopToFinish(Some(delta.stopReason)), Some(FinalUsage(start, delta)))]
  {
    var opening := [A.SeenAs(start, -1, freshId).value];
    var seen := A.ReadBack(Unparse(blocks), 0, freshId);
    var usage := Merge(A.NO_USAGE, Some(A.StartReport(start.usage)));
    StartReads(start, freshId);
    BlocksMean(opening, usage, blocks, freshId, seen);
    DeltaReads(opening + seen, BlocksMeaning(blocks), CallCount(blocks), usage, delta, freshId);
    WrapReads(start, blocks, delta, freshId);
    LiveUntilStop(opening + seen + [A.SeenAs(delta, 0, freshId).value]);
    TranslationIs(model, A.ReadBack(Wrap(start, blocks, delta), 0, freshId));
  }

  // ----- What the client collects -----

  /** The text, or the arguments, a run of deltas amounts to. */
  function TextOf(deltas: seq<A.Event>): string {
    if deltas == [] then "" else (if deltas[0].TextDelta? then deltas[0].text else "") + TextOf(deltas[1..])
  }

  function ArgumentsOf(deltas: seq<A.Event>): string {
    if deltas == [] then "" else (if deltas[0].JsonDelta? then deltas[0].partial else "") + ArgumentsOf(deltas[1..])
  }

  function TextOfBlocks(blocks: seq<Block>): string {
    if blocks == [] then "" else TextOfBlocks(blocks[..|blocks| - 1]) + TextOf(blocks[|blocks| - 1].deltas)
  }

  function CallsOfBlock(b: Block): seq<Call> {
    if b.init.ToolBlock? then [Call(b.init.id, b.init.name, ArgumentsOf(b.deltas))] else []
  }

  function CallsOfBlocks(blocks: seq<Block>): seq<Call> {
    if blocks == [] then [] else CallsOfBlocks(blocks[..|blocks| - 1]) + CallsOfBlock(blocks[|blocks| - 1])
  }

  /** Deltas outside a tool block add their text. */
  lemma {:induction false} TextCollects(acc: Collected, deltas: seq<A.Event>, k: int, freshId: string)
    requires forall d :: d in deltas ==> !d.JsonDelta?
    ensures Collect(acc, C.ReadBack(DeltasMeaning(deltas, k), freshId)) == acc.(text := acc.text + TextOf(deltas))
    decreases deltas
  {
    if deltas == [] {
      assert acc.text + "" == acc.text;
    } else {
      var d, rest := deltas[0], deltas[1..];
      assert d in deltas;
      var text := if d.TextDelta? then d.text else "";
      OneTextCollects(acc, d, k, freshId);
      ReadBackConcat(DeltaMeaning(d, k), DeltasMeaning(rest, k), freshId);
      CollectAppend(acc, C.ReadBack(DeltaMeaning(d, k), freshId), C.ReadBack(DeltasMeaning(rest, k), freshId));
      TextCollects(acc.(text := acc.text + text), rest, k, freshId);
      Assoc(acc.text, text, TextOf(rest));
    }
  }

  lemma OneTextCollects(acc: Collected, d: A.Event, k: int, freshId: string)
    requires !d.JsonDelta?
    ensures Collect(acc, C.ReadBack(DeltaMeaning(d, k), freshId)) ==
            acc.(text := acc.text + if d.TextDelta? then d.text else "")
  {
    assert acc.text + "" == acc.text;
    if d.TextDelta? && d.text != "" {
      ReadBackOne(C.Text(d.text), freshId);
      CollectOne(acc, C.UpText(d.text));
    }
  }

  /** Deltas inside a tool block extend the latest call. */
  lemma {:induction false} ArgumentsCollect(acc: Collected, calls: seq<OpenCall>, k: int, call: Call,
                                            deltas: seq<A.Event>, freshId: string)
    requires acc.calls == calls + [OpenCall(k, call)] && forall d :: d in deltas ==> d.JsonDelta?
    ensures Collect(acc, C.ReadBack(DeltasMeaning(deltas, k), freshId)) ==
            acc.(calls := calls + [OpenCall(k, call.(arguments := call.arguments + ArgumentsOf(deltas)))])
    decreases deltas
  {
    if deltas == [] {
      assert call.arguments + "" == call.arguments;
    } else {
      var d, rest := deltas[0], deltas[1..];
      assert d in deltas;
      var now := call.(arguments := call.arguments + d.partial);
      var acc1 := acc.(calls := calls + [OpenCall(k, now)]);
      OneArgumentCollects(acc, calls, k, call, d, freshId);
      ReadBackConcat(DeltaMeaning(d, k), DeltasMeaning(rest, k), freshId);
      CollectAppend(acc, C.ReadBack(DeltaMeaning(d, k), freshId), C.ReadBack(DeltasMeaning(rest, k), freshId));
      ArgumentsCollect(acc1, calls, k, now, rest, freshId);
      Assoc(call.arguments, d.partial, ArgumentsOf(rest));
    }
  }

  lemma OneArgumentCollects(acc: Collected, calls: seq<OpenCall>, k: int, call: Call, d: A.Event, freshId: string)
    requires acc.calls == calls + [OpenCall(k, call)] && d.JsonDelta?
    ensures Collect(acc, C.ReadBack(DeltaMeaning(d, k), freshId)) ==
            acc.(calls := calls + [OpenCall(k, call.(arguments := call.arguments + d.partial))])
  {
    ReadBackOne(C.ToolArgs(k, d.partial), freshId);
    if d.partial == "" {
      assert call.arguments + "" == call.arguments;
    } else {
      CollectOne(acc, C.UpToolArgs(k, d.partial));
      assert acc.calls[..|acc.calls| - 1] == calls;
    }
  }

  lemma BlockCollects(acc: Collected, b: Block, k: nat, freshId: string)
    requires BlockFit(b)
    ensures Collect(acc, C.ReadBack(BlockMeaning(b, k), freshId)) ==
            acc.(text := acc.text + TextOf(b.deltas), calls := acc.calls + Indexed(CallsOfBlock(b), k))
  {
    ReadBackConcat(Announced(b.init, k), DeltasMeaning(b.deltas, Latest(b.init, k)), freshId);
    CollectAppend(acc, C.ReadBack(Announced(b.init, k), freshId),
                  C.ReadBack(DeltasMeaning(b.deltas, Latest(b.init, k)), freshId));
    if b.init.ToolBlock? {
      var call := Call(b.init.id, b.init.name, "");
      ReadBackOne(C.ToolCallStart(k, call.id, call.name), freshId);
      CollectOne(acc, C.UpToolCallStart(k, call.id, call.name));
      ArgumentsCollect(acc.(calls := acc.calls + [OpenCall(k, call)]), acc.calls, k, call, b.deltas, freshId);
      NoText(b.deltas);
      assert acc.text + "" == acc.text && "" + ArgumentsOf(b.deltas) == ArgumentsOf(b.deltas);
      assert Indexed(CallsOfBlock(b), k) == [OpenCall(k, CallsOfBlock(b)[0])] + Indexed([], k + 1);
    } else {
      TextCollects(acc, b.deltas, Latest(b.init, k), freshId);
      assert acc.calls + [] == acc.calls;
    }
  }

  lemma {:induction false} NoText(deltas: seq<A.Event>)
    requires forall d :: d in deltas ==> !d.TextDelta?
    ensures TextOf(deltas) == ""
  {
    if deltas != [] {
      assert deltas[0] in deltas;
      NoText(deltas[1..]);
    }
  }

  lemma {:induction false} IndexedAppend(a: seq<Call>, b: seq<Call>, k: nat)
    ensures Indexed(a + b, k) == Indexed(a, k) + Indexed(b, k + |a|)
    decreases a
  {
    if a == [] {
      assert a + b == b;
    } else {
      assert (a + b)[1..] == a[1..] + b;
      IndexedAppend(a[1..], b, k + 1);
    }
  }

  lemma {:induction false} CallsCounted(blocks: seq<Block>)
    ensures |CallsOfBlocks(blocks)| == CallCount(blocks)
  {
    if blocks != [] {
      CallsCounted(blocks[..|blocks| - 1]);
    }
  }

  /** Collecting one part after another. */
  lemma CollectConcat(acc: Collected, a: seq<C.Event>, b: seq<C.Event>, freshId: string)
    ensures Collect(acc, C.ReadBack(a + b, freshId)) ==
            Collect(Collect(acc, C.ReadBack(a, freshId)), C.ReadBack(b, freshId))
  {
    ReadBackConcat(a, b, freshId);
    CollectAppend(acc, C.ReadBack(a, freshId), C.ReadBack(b, freshId));
  }

  function Gathered(blocks: seq<Block>): Collected {
    NOTHING.(text := TextOfBlocks(blocks), calls := Indexed(CallsOfBlocks(blocks), 0))
  }

  lemma GatheredSnoc(blocks: seq<Block>)
    requires blocks != []
    ensures var n := |blocks| - 1;
            Gathered(blocks) ==
            Gathered(blocks[..n]).(text := TextOfBlocks(blocks[..n]) + TextOf(blocks[n].deltas),
              calls := Indexed(CallsOfBlocks(blocks[..n]), 0)
                       + Indexed(CallsOfBlock(blocks[n]), CallCount(blocks[..n])))
  {
    var n := |blocks| - 1;
    CallsCounted(blocks[..n]);
    IndexedAppend(CallsOfBlocks(blocks[..n]), CallsOfBlock(blocks[n]), 0);
  }

  lemma {:induction false} BlocksCollect(blocks: seq<Block>, freshId: string, deltas: seq<C.Event>)
    requires Fit(blocks) && deltas == BlocksMeaning(blocks)
    ensures Collect(NOTHING, C.ReadBack(deltas, freshId)) == Gathered(blocks)
    decreases blocks
  {
    if blocks != [] {
      var n := |blocks| - 1;
      var first, last := BlocksMeaning(blocks[..n]), BlockMeaning(blocks[n], CallCount(blocks[..n]));
      assert blocks[n] in blocks;
      BlocksCollect(blocks[..n], freshId, first);
      CollectConcat(NOTHING, first, last, freshId);
      BlockCollects(Gathered(blocks[..n]), blocks[n], CallCount(blocks[..n]), freshId);
      GatheredSnoc(blocks);
    }
  }

  lemma FinishCollects(acc: Collected, reason: string, usage: C.Usage)
    ensures Collect(acc, [C.UpFinish(Some(reason))] + [C.UpUsage(usage)] + [C.UpDone]) ==
            acc.(reason := Some(reason), usage := Some(usage))
  {
    CollectAppend(acc, [C.UpFinish(Some(reason))] + [C.UpUsage(usage)], [C.UpDone]);
    CollectAppend(acc, [C.UpFinish(Some(reason))], [C.UpUsage(usage)]);
  }

  /** Around its deltas, a script's start adds nothing and its finish the reason and the usage. */
  lemma ScriptCollects(deltas: seq<C.Event>, acc: Collected, model: string, reason: string, usage: C.Usage,
                       freshId: string)
    requires Collect(NOTHING, C.ReadBack(deltas, freshId)) == acc
    ensures Collect(NOTHING, C.ReadBack([C.Start(model, None)] + deltas + [C.Finish(reason, Some(usage))], freshId)) ==
            acc.(reason := Some(reason), usage := Some(usage))
  {
    var start, finish := C.Start(model, None), C.Finish(reason, Some(usage));
    CollectConcat(NOTHING, [start] + deltas, [finish], freshId);
    CollectConcat(NOTHING, [start], deltas, freshId);
    ReadBackOne(start, freshId);
    ReadBackOne(finish, freshId);
    CollectOne(NOTHING, C.UpStart(Some(freshId), Some(model)));
    FinishCollects(acc, reason, usage);
  }

  /** What reaches the client of `anthropicToChatStream` fed a transcript, decoded. */
  function ClientSees(c: Codec, model: string, upstream: string, freshId: string, nowSec: int): seq<C.Upstream> {
    var script := Translate(model, A.DecodeAll(SR.Parse(SR.Anthropic, c, upstream)));
    match C.EncodeStream(script, freshId, nowSec)
    case Err(_) => []
    case Ok(records) => C.DecodeAll(SR.Parse(SR.OpenAI, c, SR.RenderAll(c, records)))
  }

  /** A message of blocks, encoded, sent, translated, encoded and sent again: what the chat client holds. */
  lemma MessageOverTheWire(c: Codec, start: A.Event, blocks: seq<Block>, delta: A.Event, model: string,
                           msgId: string, chatId: string, nowSec: int)
    requires Lawful(c) && start.MessageStart? && delta.MessageDelta? && Fit(blocks)
    ensures A.EncodeStream(Wrap(start, blocks, delta), msgId).Ok?
    ensures var sent := SR.RenderAll(c, A.EncodeStream(Wrap(start, blocks, delta), msgId).value);
            Collect(NOTHING, ClientSees(c, model, sent, chatId, nowSec)) ==
            Collected(TextOfBlocks(blocks), Indexed(CallsOfBlocks(blocks), 0),
                      Some(StopToFinish(Some(delta.stopReason))), Some(FinalUsage(start, delta)))
  {
    var script := Wrap(start, blocks, delta);
    var received := A.ReadBack(script, 0, msgId);
    WrapEncodes(start, blocks, delta, msgId);
    A.WireRoundTrip(c, script, msgId);
    TranslationEncodes(model, received, chatId, nowSec);
    C.WireRoundTrip(c, Translate(model, received), chatId, nowSec);
    WrapTranslates(start, blocks, delta, model, msgId);
    BlocksCollect(blocks, chatId, BlocksMeaning(blocks));
    ScriptCollects(BlocksMeaning(blocks), Gathered(blocks), model, StopToFinish(Some(delta.stopReason)),
                   FinalUsage(start, delta), chatId);
  }
}
