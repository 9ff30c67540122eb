/**
 * Streaming Anthropic to Chat agrees with the batch translation: a client that
 * collects the translated stream holds the result the batch translation gives.
 */
module ChatAgreement {
  import opened Base
  import opened Json
  import SR = SseRecords
  import A = AnthropicStream
  import C = ChatStream
  import opened ChatResult
  import opened ChatCollector
  import opened AnthropicBlocks
  import opened AnthropicToChat
  import opened BlockReading

  // ----- A completed Anthropic message, and the two ways to translate it -----

  /** A content block as the translations read it; strings the message omits are absent. */
  datatype Content =
    | TextContent(text: Option<string>)
    | ToolUse(id: Option<string>, name: Option<string>, input: Json)
    | ThinkingContent(thinking: Option<string>, signature: Option<string>)
    | OtherContent

  datatype Message = Message(id: Option<string>, content: seq<Content>, stopReason: Option<string>,
                             stopSequence: Option<string>, usage: Option<A.Usage>)

  /** `JSON.stringify(block.input ?? {})`. */
  function Arguments(c: Codec, input: Json): string {
    c.stringify(if input == Null then Obj(map[]) else input)
  }

  /** The text, and the calls, of the blocks read so far. */
  function MessageText(content: seq<Content>): string {
    if content == [] then ""
    else
      MessageText(content[..|content| - 1])
      + match content[|content| - 1] case TextContent(text) => text.GetOr("") case _ => ""
  }

  function MessageCalls(c: Codec, content: seq<Content>): seq<Call> {
    if content == [] then []
    else
      MessageCalls(c, content[..|content| - 1])
      + match content[|content| - 1]
        case ToolUse(id, name, input) => [Call(id.GetOr(""), name.GetOr(""), Arguments(c, input))]
        case _ => []
  }

  /** `anthropicResponseToChat`. */
  function BatchChat(c: Codec, m: Message, model: string): CanonicalChat {
    CanonicalChat(m.id, model, StopToFinish(m.stopReason), MessageText(m.content), MessageCalls(c, m.content),
                  if m.usage.Some? then Some(ToChatUsage(m.usage.value)) else None)
  }

  /** `anthropicResponseToChat` as its loop runs. */
  method AnthropicResponseToChat(c: Codec, m: Message, model: string) returns (r: CanonicalChat)
    ensures r == BatchChat(c, m, model)
  {
    var text, calls := "", [];
    for i := 0 to |m.content|
      invariant text == MessageText(m.content[..i]) && calls == MessageCalls(c, m.content[..i])
    {
      assert m.content[..i + 1][..i] == m.content[..i];
      match m.content[i] {
        case TextContent(t) => text := text + t.GetOr("");
        case ToolUse(id, name, input) => calls := calls + [Call(id.GetOr(""), name.GetOr(""), Arguments(c, input))];
        case _ =>
      }
    }
    assert m.content[..|m.content|] == m.content;
    r := CanonicalChat(m.id, model, StopToFinish(m.stopReason), text, calls,
                       if m.usage.Some? then Some(ToChatUsage(m.usage.value)) else None);
  }

  const STOP_REASONS := {"end_turn", "max_tokens", "stop_sequence", "tool_use", "pause_turn", "refusal"}

  /** The stream block of a content block; one of another type is skipped. */
  function BlockOf(c: Codec, b: Content): seq<Block> {
    match b
    case TextContent(text) =>
      [Block(A.TextBlock, if text.GetOr("") == "" then [] else [A.TextDelta(text.value)])]
    case ToolUse(id, name, input) =>
      [Block(A.ToolBlock(id.GetOr(""), name.GetOr("")), [A.JsonDelta(Arguments(c, input))])]
    case ThinkingContent(thinking, signature) =>
      [Block(A.ThinkingBlock,
             (if thinking.GetOr("") == "" then [] else [A.ThinkingDelta(thinking.value)])
             + (if signature.GetOr("") == "" then [] else [A.SignatureDelta(signature.value)]))]
    case OtherContent => []
  }

  function BlocksOf(c: Codec, content: seq<Content>): seq<Block> {
    if content == [] then [] else BlocksOf(c, content[..|content| - 1]) + BlockOf(c, content[|content| - 1])
  }

  function OpeningEvent(m: Message, model: string): A.Event {
    A.MessageStart(model, m.id, Some(m.usage.GetOr(A.NO_USAGE).(output := Some(0))))
  }

  function ClosingEvent(m: Message): A.Event {
    A.MessageDelta(if m.stopReason.Some? && m.stopReason.value in STOP_REASONS then m.stopReason.value else "end_turn",
                   m.stopSequence, Some(m.usage.GetOr(A.NO_USAGE)))
  }

  /** `streamEventsForAnthropicMessage`. */
  function Expand(c: Codec, m: Message, model: string): seq<A.Event> {
    Wrap(OpeningEvent(m, model), BlocksOf(c, m.content), ClosingEvent(m))
  }

  /** One turn of `blockEvents`: a block's start, its deltas and its stop. */
  method BlockEvents(c: Codec, b: Content) returns (events: seq<A.Event>)
    ensures events == Unparse(BlockOf(c, b))
  {
    events := [];
    match b {
      case TextContent(text) =>
        events := [A.BlockStart(A.TextBlock)];
        if text.Some? && |text.value| > 0 {
          events := events + [A.TextDelta(text.value)];
        }
        events := events + [A.BlockStop];
      case ToolUse(id, name, input) =>
        events := [A.BlockStart(A.ToolBlock(id.GetOr(""), name.GetOr("")))];
        events := events + [A.JsonDelta(Arguments(c, input))];
        events := events + [A.BlockStop];
      case ThinkingContent(thinking, signature) =>
        events := [A.BlockStart(A.ThinkingBlock)];
        if thinking.Some? && |thinking.value| > 0 {
          events := events + [A.ThinkingDelta(thinking.value)];
        }
        if signature.Some? && |signature.value| > 0 {
          events := events + [A.SignatureDelta(signature.value)];
        }
        events := events + [A.BlockStop];
      case OtherContent =>
    }
    UnparseOne(BlockOf(c, b));
  }

  lemma UnparseOne(blocks: seq<Block>)
    requires |blocks| <= 1
    ensures Unparse(blocks) == if blocks == [] then [] else BlockScript(blocks[0])
  {
    if blocks != [] {
      UnparseSnoc([], blocks[0]);
      assert [] + blocks == [blocks[0]] == blocks;
      assert [] + BlockScript(blocks[0]) == BlockScript(blocks[0]);
    }
  }

  lemma UnparseNext(before: seq<Block>, one: seq<Block>)
    requires |one| <= 1
    ensures Unparse(before + one) == Unparse(before) + Unparse(one)
  {
    UnparseOne(one);
    if one == [] {
      assert before + one == before;
    } else {
      assert before + one == before + [one[0]];
      UnparseSnoc(before, one[0]);
    }
  }

  lemma BlocksNext(c: Codec, content: seq<Content>, i: nat)
    requires i < |content|
    ensures BlocksOf(c, content[..i + 1]) == BlocksOf(c, content[..i]) + BlockOf(c, content[i])
  {
    assert content[..i + 1][..i] == content[..i];
  }

  /** `blockEvents` as it pushes. */
  method ContentEvents(c: Codec, content: seq<Content>) returns (events: seq<A.Event>)
    ensures events == Unparse(BlocksOf(c, content))
  {
    events := [];
    for i := 0 to |content|
      invariant events == Unparse(BlocksOf(c, content[..i]))
    {
      var added := BlockEvents(c, content[i]);
      BlocksNext(c, content, i);
      UnparseNext(BlocksOf(c, content[..i]), BlockOf(c, content[i]));
      events := events + added;
    }
    assert content[..|content|] == content;
  }

  // ----- The blocks say what the batch reads -----

  lemma BlockOfFits(c: Codec, b: Content)
    ensures Fit(BlockOf(c, b))
  {
  }

  lemma {:induction false} BlocksOfFit(c: Codec, content: seq<Content>)
    ensures Fit(BlocksOf(c, content))
  {
    if content != [] {
      BlocksOfFit(c, content[..|content| - 1]);
      BlockOfFits(c, content[|content| - 1]);
    }
  }

  /** What one content block adds to the text and the calls. */
  lemma BlockSays(c: Codec, blocks: seq<Block>, b: Content)
    ensures TextOfBlocks(blocks + BlockOf(c, b)) ==
            TextOfBlocks(blocks) + match b case TextContent(text) => text.GetOr("") case _ => ""
    ensures CallsOfBlocks(blocks + BlockOf(c, b)) ==
            CallsOfBlocks(blocks)
            + match b
              case ToolUse(id, name, input) => [Call(id.GetOr(""), name.GetOr(""), Arguments(c, input))]
              case _ => []
  {
    if b.OtherContent? {
      assert blocks + [] == blocks && TextOfBlocks(blocks) + "" == TextOfBlocks(blocks);
    } else {
      var block := BlockOf(c, b)[0];
      assert (blocks + [block])[..|blocks|] == blocks;
      DeltasSay(c, b);
    }
  }

  lemma DeltasSay(c: Codec, b: Content)
    requires !b.OtherContent?
    ensures TextOf(BlockOf(c, b)[0].deltas) == match b case TextContent(text) => text.GetOr("") case _ => ""
    ensures b.ToolUse? ==> ArgumentsOf(BlockOf(c, b)[0].deltas) == Arguments(c, b.input)
  {
    assert TextOf([]) == "" && ArgumentsOf([]) == "";
    if b.ThinkingContent? {
      NoText(BlockOf(c, b)[0].deltas);
    } else if b.TextContent? {
      assert b.text.GetOr("") + "" == b.text.GetOr("");
    } else {
      assert Arguments(c, b.input) + "" == Arguments(c, b.input);
    }
  }

  lemma {:induction false} BlocksSay(c: Codec, content: seq<Content>)
    ensures TextOfBlocks(BlocksOf(c, content)) == MessageText(content)
    ensures CallsOfBlocks(BlocksOf(c, content)) == MessageCalls(c, content)
  {
    if content != [] {
      BlocksSay(c, content[..|content| - 1]);
      BlockSays(c, BlocksOf(c, content[..|content| - 1]), content[|content| - 1]);
    }
  }

  lemma UsageAdds(m: Message, model: string)
    ensures FinalUsage(OpeningEvent(m, model), ClosingEvent(m)) == ToChatUsage(m.usage.GetOr(A.NO_USAGE))
  {
  }

  lemma ClosingReason(m: Message)
    ensures StopToFinish(Some(ClosingEvent(m).stopReason)) == StopToFinish(m.stopReason)
  {
    assert "max_tokens" in STOP_REASONS && "tool_use" in STOP_REASONS;
    assert "end_turn" != "max_tokens" && "end_turn" != "tool_use";
  }

  /**
   * The whole path: a message is expanded, encoded, parsed, decoded, translated, encoded for the
   * chat client, parsed and collected. The client holds the batch result: the same text, the same
   * calls in order, the same finish reason, and the same usage exactly when the message reports one.
   */
  lemma StreamingAgreesWithBatch(c: Codec, m: Message, sent: string, model: string, msgId: string, chatId: string,
                                 nowSec: int)
    requires Lawful(c)
    ensures var transcript := A.EncodeStream(Expand(c, m, sent), msgId);
            && transcript.Ok?
            && var held := Collect(NOTHING, ClientSees(c, model, SR.RenderAll(c, transcript.value), chatId, nowSec));
               var batch := FromResult(BatchChat(c, m, model));
               && held.(usage := None) == batch.(usage := None)
               && (held.usage == batch.usage <==> m.usage.Some?)
  {
    BlocksOfFit(c, m.content);
    MessageOverTheWire(c, OpeningEvent(m, sent), BlocksOf(c, m.content), ClosingEvent(m), model, msgId, chatId, nowSec);
    BlocksSay(c, m.content);
    ClosingReason(m);
    UsageAdds(m, sent);
  }
}
