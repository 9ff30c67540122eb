/** Anthropic transcripts as lists of content blocks. */
module AnthropicBlocks {
  import opened Base
  import opened AnthropicStream

  datatype Block = Block(init: BlockInit, deltas: seq<Event>)

  /** A block's events. */
  function BlockScript(b: Block): seq<Event> {
    [BlockStart(b.init)] + b.deltas + [BlockStop]
  }

  function Unparse(blocks: seq<Block>): seq<Event> {
    if blocks == [] then [] else Unparse(blocks[..|blocks| - 1]) + BlockScript(blocks[|blocks| - 1])
  }

  /** A whole message: its start, its blocks, its delta and its stop. */
  function Wrap(start: Event, blocks: seq<Block>, delta: Event): seq<Event> {
    [start] + Unparse(blocks) + [delta, MessageStop]
  }

  /** A block holds deltas of its own kind only. */
  ghost predicate BlockFit(b: Block) {
    forall d :: d in b.deltas ==> d.Needs() == Some(b.init.Kind())
  }

  ghost predicate Fit(blocks: seq<Block>) {
    forall b :: b in blocks ==> BlockFit(b)
  }

  lemma UnparseSnoc(blocks: seq<Block>, b: Block)
    ensures Unparse(blocks + [b]) == Unparse(blocks) + BlockScript(b)
  {
    assert (blocks + [b])[..|blocks|] == blocks;
  }

  lemma {:induction false} BlocksStayBetween(past: seq<Event>, blocks: seq<Block>)
    requires Between(past) && Fit(blocks)
    ensures Between(past + Unparse(blocks))
  {
    if blocks == [] {
      assert past + [] == past;
    } else {
      var n := |blocks| - 1;
      assert blocks[n] in blocks;
      BlocksStayBetween(past, blocks[..n]);
      BlockFits(past + Unparse(blocks[..n]), blocks[n].init, blocks[n].deltas);
      Assoc(past, Unparse(blocks[..n]), BlockScript(blocks[n]));
    }
  }

  /** The encoder accepts every message made of fitting blocks. */
  lemma WrapEncodes(start: Event, blocks: seq<Block>, delta: Event, freshId: string)
    requires start.MessageStart? && delta.MessageDelta? && Fit(blocks)
    ensures EncodeStream(Wrap(start, blocks, delta), freshId).Ok?
  {
    Snoc([], start);
    assert [] + [start] == [start];
    BlocksStayBetween([start], blocks);
    TerminalCompletes([start] + Unparse(blocks), delta);
    AcceptedIffComplete(Wrap(start, blocks, delta), freshId);
  }
}
