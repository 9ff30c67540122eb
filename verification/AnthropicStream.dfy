/**
 * The Anthropic Messages stream: the encoder's ordering state machine, the
 * upstream decoder, and the proof that the decoder reads back what the encoder
 * wrote.
 */
module AnthropicStream {
  import opened Base
  import opened Json
  import opened SseRecords

  datatype Usage = Usage(input: Option<int>, output: Option<int>, cacheRead: Option<int>, cacheWrite: Option<int>)

  const NO_USAGE := Usage(None, None, None, None)

  datatype BlockKind = TextKind | ToolKind | ThinkingKind

  datatype BlockInit = TextBlock | ToolBlock(id: string, name: string) | ThinkingBlock {
    function Kind(): BlockKind {
      match this
      case TextBlock => TextKind
      case ToolBlock(_, _) => ToolKind
      case ThinkingBlock => ThinkingKind
    }
  }

  /** A canonical event, as the encoder takes it. */
  datatype Event =
    | MessageStart(model: string, id: Option<string>, usage: Option<Usage>)
    | BlockStart(block: BlockInit)
    | TextDelta(text: string)
    | JsonDelta(partial: string)
    | ThinkingDelta(text: string)
    | SignatureDelta(signature: string)
    | BlockStop
    | MessageDelta(stopReason: string, stopSequence: Option<string>, usage: Option<Usage>)
    | MessageStop
    | Ping
  {
    /** The kind of block a delta needs to be open. */
    function Needs(): Option<BlockKind> {
      match this
      case TextDelta(_) => Some(TextKind)
      case JsonDelta(_) => Some(ToolKind)
      case ThinkingDelta(_) => Some(ThinkingKind)
      case SignatureDelta(_) => Some(ThinkingKind)
      case _ => None
    }
  }

  datatype Error = AfterStop | BeforeStart | SecondStart | StillOpen | NoOpenBlock | WrongBlock | NotTerminated

  // ----- The wire payloads -----

  function Field(key: string, value: Option<int>): map<string, Json> {
    if value.Some? then map[key := Num(value.value)] else map[]
  }

  function StartUsage(usage: Option<Usage>): Json {
    var u := usage.GetOr(NO_USAGE);
    Obj(map["input_tokens" := Num(u.input.GetOr(0)), "output_tokens" := Num(u.output.GetOr(0))]
        + Field("cache_read_input_tokens", u.cacheRead) + Field("cache_creation_input_tokens", u.cacheWrite))
  }

  /** The cache counts are not repeated on `message_delta`. */
  function DeltaUsage(usage: Option<Usage>): Json {
    var u := usage.GetOr(NO_USAGE);
    Obj(map["output_tokens" := Num(u.output.GetOr(0))] + Field("input_tokens", u.input))
  }

  function InitialBlock(block: BlockInit): Json {
    match block
    case TextBlock => Obj(map["type" := Str("text"), "text" := Str("")])
    case ToolBlock(id, name) =>
      Obj(map["type" := Str("tool_use"), "id" := Str(id), "name" := Str(name), "input" := Obj(map[])])
    case ThinkingBlock => Obj(map["type" := Str("thinking"), "thinking" := Str("")])
  }

  function DeltaPayload(e: Event): Json {
    match e
    case TextDelta(text) => Obj(map["type" := Str("text_delta"), "text" := Str(text)])
    case JsonDelta(partial) => Obj(map["type" := Str("input_json_delta"), "partial_json" := Str(partial)])
    case ThinkingDelta(text) => Obj(map["type" := Str("thinking_delta"), "thinking" := Str(text)])
    case SignatureDelta(signature) => Obj(map["type" := Str("signature_delta"), "signature" := Str(signature)])
    case _ => Null
  }

  function EventName(e: Event): string {
    match e
    case MessageStart(_, _, _) => "message_start"
    case BlockStart(_) => "content_block_start"
    case BlockStop => "content_block_stop"
    case MessageDelta(_, _, _) => "message_delta"
    case MessageStop => "message_stop"
    case Ping => "ping"
    case _ => "content_block_delta"
  }

  /** The payload written for an event, `index` being the block it belongs to. */
  function Payload(e: Event, index: int, freshId: string): map<string, Json> {
    match e
    case MessageStart(model, id, usage) =>
      map["message" := Obj(map[
        "id" := Str(id.GetOr(freshId)), "type" := Str("message"), "role" := Str("assistant"),
        "model" := Str(model), "content" := Arr([]), "stop_reason" := Null, "stop_sequence" := Null,
        "usage" := StartUsage(usage)])]
    case BlockStart(block) => map["index" := Num(index), "content_block" := InitialBlock(block)]
    case BlockStop => map["index" := Num(index)]
    case MessageDelta(stopReason, stopSequence, usage) =>
      map["delta" := Obj(map[
            "stop_reason" := Str(stopReason),
            "stop_sequence" := if stopSequence.Some? then Str(stopSequence.value) else Null]),
          "usage" := DeltaUsage(usage)]
    case MessageStop | Ping => map[]
    case _ => map["index" := Num(index), "delta" := DeltaPayload(e)]
  }

  function RecordOf(e: Event, index: int, freshId: string): Record {
    Named(EventName(e), Obj(Payload(e, index, freshId)["type" := Str(EventName(e))]))
  }

  // ----- The encoder -----

  /** `freshId` is what the id generator answers if it is asked. */
  datatype EncoderState = EncoderState(started: bool, stopped: bool, open: Option<BlockKind>,
                         nextIndex: nat, currentIndex: int, freshId: string)

  function Initial(freshId: string): EncoderState {
    EncoderState(false, false, None, 0, -1, freshId)
  }

  /** The rule an event breaks in a state, if it breaks one. */
  function Violation(s: EncoderState, e: Event): Option<Error> {
    if s.stopped then Some(AfterStop)
    else
      match e
      case MessageStart(_, _, _) => if s.started then Some(SecondStart) else None
      case BlockStop => if s.open.None? then Some(NoOpenBlock) else None
      case Ping => if s.started then None else Some(BeforeStart)
      case BlockStart(_) | MessageDelta(_, _, _) | MessageStop =>
        if !s.started then Some(BeforeStart) else if s.open.Some? then Some(StillOpen) else None
      case _ =>
        if !s.started then Some(BeforeStart)
        else if s.open.None? then Some(NoOpenBlock)
        else if s.open != e.Needs() then Some(WrongBlock)
        else None
  }

  function After(s: EncoderState, e: Event): EncoderState {
    match e
    case MessageStart(_, _, _) => s.(started := true)
    case BlockStart(block) => s.(open := Some(block.Kind()), currentIndex := s.nextIndex, nextIndex := s.nextIndex + 1)
    case BlockStop => s.(open := None)
    case MessageStop => s.(stopped := true)
    case _ => s
  }

  function Step(s: EncoderState, e: Event): Result<Emit<EncoderState, Record>, Error> {
    var broken := Violation(s, e);
    if broken.Some? then Err(broken.value)
    else Ok(Emit(After(s, e), [RecordOf(e, After(s, e).currentIndex, s.freshId)]))
  }

  /** `encodeAnthropicStream`, as the records of the transcript. */
  function EncodeStream(script: seq<Event>, freshId: string): Result<seq<Record>, Error> {
    match Run(Step, Initial(freshId), script)
    case Err(x) => Err(x)
    case Ok(end) => if end.state.stopped then Ok(end.out) else Err(NotTerminated)
  }

  class AnthropicSseEncoder {
    const codec: Codec
    const freshId: string
    var started: bool
    var stopped: bool
    var openBlock: Option<BlockKind>
    var nextIndex: nat
    var currentIndex: int
    var messageId: string

    ghost function State(): EncoderState
      reads this
    {
      EncoderState(started, stopped, openBlock, nextIndex, currentIndex, freshId)
    }

    constructor (c: Codec, id: string)
      ensures State() == Initial(id) && codec == c
    {
      codec, freshId := c, id;
      started, stopped, openBlock, nextIndex, currentIndex, messageId := false, false, None, 0, -1, "";
    }

    /** Encode one event, or reject it and change nothing. */
    method Encode(e: Event) returns (r: Result<string, Error>)
      modifies this
      ensures match Step(old(State()), e)
              case Err(x) => r == Err(x) && State() == old(State())
              case Ok(step) => r == Ok(RenderAll(codec, step.out)) && State() == step.state
    {
      if stopped {
        return Err(AfterStop);
      }
      match e {
        case MessageStart(_, id, _) =>
          if started {
            return Err(SecondStart);
          }
          started := true;
          messageId := id.GetOr(freshId);
        case BlockStart(block) =>
          if !started {
            return Err(BeforeStart);
          }
          if openBlock.Some? {
            return Err(StillOpen);
          }
          openBlock := Some(block.Kind());
          currentIndex := nextIndex;
          nextIndex := nextIndex + 1;
        case BlockStop =>
          if openBlock.None? {
            return Err(NoOpenBlock);
          }
          openBlock := None;
        case MessageDelta(_, _, _) =>
          if !started {
            return Err(BeforeStart);
          }
          if openBlock.Some? {
            return Err(StillOpen);
          }
        case MessageStop =>
          if !started {
            return Err(BeforeStart);
          }
          if openBlock.Some? {
            return Err(StillOpen);
          }
          stopped := true;
        case Ping =>
          if !started {
            return Err(BeforeStart);
          }
        case _ =>
          if !started {
            return Err(BeforeStart);
          }
          if openBlock.None? {
            return Err(NoOpenBlock);
          }
          if openBlock != e.Needs() {
            return Err(WrongBlock);
          }
      }
      var record := RecordOf(e, currentIndex, freshId);
      RenderOne(codec, record);
      r := Ok(Render(codec, record));
    }
  }

  /** `encodeAnthropicStream` as its loop runs. */
  method EncodeAnthropicStream(codec: Codec, script: seq<Event>, freshId: string) returns (r: Result<string, Error>)
    ensures r == Printed(codec, EncodeStream(script, freshId))
  {
    var encoder := new AnthropicSseEncoder(codec, freshId);
    var out := "";
    ghost var done: seq<Record> := [];
    RunFirst(Step, Initial(freshId), script);
    for i := 0 to |script|
      invariant fresh(encoder) && encoder.codec == codec && out == RenderAll(codec, done)
      invariant Run(Step, Initial(freshId), script) ==
                match Run(Step, encoder.State(), script[i..])
                case Err(x) => Err(x)
                case Ok(rest) => Ok(Emit(rest.state, done + rest.out))
    {
      ghost var step := Step(encoder.State(), script[i]);
      if step.Ok? {
        RunNext(Step, encoder.State(), script, i, done);
      }
      var text := encoder.Encode(script[i]);
      if text.Err? {
        return Err(text.error);
      }
      RenderAppend(codec, done, step.value.out);
      out, done := out + text.value, done + step.value.out;
    }
    RunEnds(Step, encoder.State(), done);
    if !encoder.stopped {
      return Err(NotTerminated);
    }
    r := Ok(out);
  }

  // ----- What the encoder accepts, said of the script alone -----

  /** The kind of the block open after a run of events: decided by the last start or stop in it. */
  function OpenAfter(past: seq<Event>): Option<BlockKind> {
    if past == [] then None
    else
      match past[|past| - 1]
      case BlockStart(block) => Some(block.Kind())
      case BlockStop => None
      case _ => OpenAfter(past[..|past| - 1])
  }

  /**
   * The ordering rules, what may follow a run of events: one start, deltas in their own block, nothing after
   * the stop.
   */
  predicate Allowed(past: seq<Event>, e: Event) {
    var open := OpenAfter(past);
    && (e.MessageStart? <==> past == [])
    && (past != [] ==> !past[|past| - 1].MessageStop?)
    && match e
       case MessageStart(_, _, _) | Ping => true
       case BlockStop => open.Some?
       case BlockStart(_) | MessageDelta(_, _, _) | MessageStop => open.None?
       case _ => open == e.Needs()
  }

  predicate Ordered(script: seq<Event>) {
    forall k :: 0 <= k < |script| ==> Allowed(script[..k], script[k])
  }

  predicate Complete(script: seq<Event>) {
    script != [] && script[|script| - 1].MessageStop? && Ordered(script)
  }

  /** The encoder's state is a summary of the accepted events. */
  predicate Summarises(s: EncoderState, past: seq<Event>) {
    && s.started == (past != [])
    && s.stopped == (past != [] && past[|past| - 1].MessageStop?)
    && s.open == OpenAfter(past)
    && (past == [] ==> s.open.None?)
  }

  lemma StepOrdered(s: EncoderState, past: seq<Event>, e: Event)
    requires Summarises(s, past)
    ensures Step(s, e).Ok? <==> Allowed(past, e)
    ensures Step(s, e).Ok? ==> Summarises(After(s, e), past + [e])
  {
    assert (past + [e])[..|past|] == past;
  }

  /** An event out of order is rejected for the first rule it breaks. */
  lemma RejectedFor(s: EncoderState, past: seq<Event>, e: Event)
    requires Summarises(s, past) && !Allowed(past, e)
    ensures Step(s, e) ==
            Err(if past != [] && past[|past| - 1].MessageStop? then AfterStop
                else if e.MessageStart? then SecondStart
                else if e.BlockStop? then NoOpenBlock
                else if past == [] then BeforeStart
                else if e.Needs().None? then StillOpen
                else if OpenAfter(past).None? then NoOpenBlock
                else WrongBlock)
  {
    StepOrdered(s, past, e);
  }

  /** The rest of a script is in order. */
  ghost predicate OrderedFrom(script: seq<Event>, k: nat) {
    forall i :: k <= i < |script| ==> Allowed(script[..i], script[i])
  }

  lemma OrderedNext(script: seq<Event>, k: nat)
    requires k < |script|
    ensures OrderedFrom(script, k) <==> Allowed(script[..k], script[k]) && OrderedFrom(script, k + 1)
  {
  }

  /** A run is its first step and the run after it. */
  lemma RunHead(s: EncoderState, script: seq<Event>, k: nat)
    requires k < |script|
    ensures Run(Step, s, script[k..]).Ok? <==>
            Step(s, script[k]).Ok? && Run(Step, After(s, script[k]), script[k + 1..]).Ok?
    ensures Run(Step, s, script[k..]).Ok? ==>
              Run(Step, s, script[k..]).value.state == Run(Step, After(s, script[k]), script[k + 1..]).value.state
  {
    assert script[k..][1..] == script[k + 1..];
  }

  lemma {:induction false} AcceptsFrom(s: EncoderState, k: nat, script: seq<Event>, rest: seq<Event>)
    requires k <= |script| && rest == script[k..] && Summarises(s, script[..k])
    ensures Run(Step, s, rest).Ok? <==> OrderedFrom(script, k)
    ensures Run(Step, s, rest).Ok? ==> Summarises(Run(Step, s, rest).value.state, script)
    decreases |script| - k
  {
    if k < |script| {
      StepOrdered(s, script[..k], script[k]);
      OrderedNext(script, k);
      RunHead(s, script, k);
      if Allowed(script[..k], script[k]) {
        assert script[..k] + [script[k]] == script[..k + 1];
        AcceptsFrom(After(s, script[k]), k + 1, script, script[k + 1..]);
      }
    } else {
      assert rest == [] && script == script[..k];
    }
  }

  /** The encoder accepts a script exactly when it keeps the ordering rules and ends with the stop. */
  lemma AcceptedIffComplete(script: seq<Event>, freshId: string)
    ensures EncodeStream(script, freshId).Ok? <==> Complete(script)
  {
    assert script[0..] == script && script[..0] == [];
    AcceptsFrom(Initial(freshId), 0, script, script);
  }

  /** What one more event does to the history. */
  lemma Snoc(past: seq<Event>, e: Event)
    ensures Ordered(past + [e]) <==> Ordered(past) && Allowed(past, e)
    ensures OpenAfter(past + [e]) ==
            match e
            case BlockStart(block) => Some(block.Kind())
            case BlockStop => None
            case _ => OpenAfter(past)
  {
    var longer := past + [e];
    assert longer[..|past|] == past && longer[|past|] == e;
    assert forall k :: 0 <= k < |past| ==> longer[..k] == past[..k] && longer[k] == past[k];
  }

  /** A script in order, between blocks. */
  ghost predicate Between(past: seq<Event>) {
    past != [] && Ordered(past) && OpenAfter(past).None? && !past[|past| - 1].MessageStop?
  }

  ghost predicate Inside(past: seq<Event>, kind: BlockKind) {
    past != [] && Ordered(past) && OpenAfter(past) == Some(kind) && !past[|past| - 1].MessageStop?
  }

  lemma {:induction false} DeltasStayInside(past: seq<Event>, kind: BlockKind, deltas: seq<Event>)
    requires Inside(past, kind) && forall d :: d in deltas ==> d.Needs() == Some(kind)
    ensures Inside(past + deltas, kind)
    decreases deltas
  {
    if deltas == [] {
      assert past + [] == past;
    } else {
      assert deltas[0] in deltas;
      Snoc(past, deltas[0]);
      DeltasStayInside(past + [deltas[0]], kind, deltas[1..]);
      Assoc(past, [deltas[0]], deltas[1..]);
      assert [deltas[0]] + deltas[1..] == deltas;
    }
  }

  /** A block opened, filled with its own deltas and closed leaves the script between blocks. */
  lemma BlockFits(past: seq<Event>, block: BlockInit, deltas: seq<Event>)
    requires Between(past) && forall d :: d in deltas ==> d.Needs() == Some(block.Kind())
    ensures Between(past + ([BlockStart(block)] + deltas + [BlockStop]))
  {
    Snoc(past, BlockStart(block));
    var inside := past + [BlockStart(block)];
    DeltasStayInside(inside, block.Kind(), deltas);
    Snoc(inside + deltas, BlockStop);
    Assoc(past, [BlockStart(block)], deltas);
    Assoc(past, [BlockStart(block)] + deltas, [BlockStop]);
  }

  lemma DeltaStaysBetween(body: seq<Event>, delta: Event)
    requires Between(body) && delta.MessageDelta?
    ensures Between(body + [delta])
  {
    Snoc(body, delta);
  }

  lemma LastTwo(body: seq<Event>, delta: Event)
    requires Between(body) && delta.MessageDelta?
    ensures Ordered(body + [delta] + [MessageStop])
  {
    DeltaStaysBetween(body, delta);
    Snoc(body + [delta], MessageStop);
  }

  /** A script between blocks may end with its delta and its stop. */
  lemma TerminalCompletes(body: seq<Event>, delta: Event)
    requires Between(body) && delta.MessageDelta?
    ensures Complete(body + [delta, MessageStop])
  {
    LastTwo(body, delta);
    Assoc(body, [delta], [MessageStop]);
    assert [delta] + [MessageStop] == [delta, MessageStop];
  }

  // ----- The decoder -----

  /** A decoded upstream event. */
  datatype Upstream =
    | UpMessageStart(id: Option<string>, model: Option<string>, usage: Option<Usage>)
    | UpBlockStart(index: int, block: BlockInit)
    | UpText(index: int, text: string)
    | UpJson(index: int, partial: string)
    | UpThinking(index: int, text: string)
    | UpSignature(index: int, signature: string)
    | UpBlockStop(index: int)
    | UpMessageDelta(stopReason: Option<string>, usage: Option<Usage>)
    | UpMessageStop
    | UpError(message: string)

  function DecodeUsage(usage: Option<Json>): Option<Usage> {
    var u := Usage(NumProp(usage, "input_tokens"), NumProp(usage, "output_tokens"),
                   NumProp(usage, "cache_read_input_tokens"), NumProp(usage, "cache_creation_input_tokens"));
    if u == NO_USAGE then None else Some(u)
  }

  function DecodeBlock(block: Option<Json>): Option<BlockInit> {
    match StrProp(block, "type")
    case None => None
    case Some(t) =>
      if t == "text" then Some(TextBlock)
      else if t == "thinking" || t == "redacted_thinking" then Some(ThinkingBlock)
      else if t == "tool_use" then
        Some(ToolBlock(StrProp(block, "id").GetOr(""), StrProp(block, "name").GetOr("")))
      else None
  }

  function DecodeDelta(index: int, delta: Option<Json>): Option<Upstream> {
    match StrProp(delta, "type")
    case None => None
    case Some(t) =>
      if t == "text_delta" then Some(UpText(index, StrProp(delta, "text").GetOr("")))
      else if t == "input_json_delta" then Some(UpJson(index, StrProp(delta, "partial_json").GetOr("")))
      else if t == "thinking_delta" then Some(UpThinking(index, StrProp(delta, "thinking").GetOr("")))
      else if t == "signature_delta" then Some(UpSignature(index, StrProp(delta, "signature").GetOr("")))
      else None
  }

  function DecodeTyped(kind: string, data: Option<Json>): Option<Upstream> {
    var index := NumProp(data, "index").GetOr(0);
    if kind == "message_start" then
      var message := Prop(data, "message");
      Some(UpMessageStart(StrProp(message, "id"), StrProp(message, "model"), DecodeUsage(Prop(message, "usage"))))
    else if kind == "content_block_start" then
      var block := DecodeBlock(Prop(data, "content_block"));
      if block.Some? then Some(UpBlockStart(index, block.value)) else None
    else if kind == "content_block_delta" then DecodeDelta(index, Prop(data, "delta"))
    else if kind == "content_block_stop" then Some(UpBlockStop(index))
    else if kind == "message_delta" then
      Some(UpMessageDelta(StrProp(Prop(data, "delta"), "stop_reason"), DecodeUsage(Prop(data, "usage"))))
    else if kind == "message_stop" then Some(UpMessageStop)
    else if kind == "error" then
      Some(UpError(StrProp(Prop(data, "error"), "message").GetOr("upstream stream error")))
    else None
  }

  function Decode(e: StreamEvent): Option<Upstream> {
    DecodeTyped(StrProp(Some(e.data), "type").GetOr(e.event), Some(e.data))
  }

  function DecodeAll(events: seq<StreamEvent>): seq<Upstream> {
    if events == [] then []
    else
      var first := Decode(events[0]);
      (if first.Some? then [first.value] else []) + DecodeAll(events[1..])
  }

  // ----- Reading back -----

  /** What survives of a usage report on `message_start`, and on `message_delta`. */
  function StartReport(usage: Option<Usage>): Usage {
    var u := usage.GetOr(NO_USAGE);
    Usage(Some(u.input.GetOr(0)), Some(u.output.GetOr(0)), u.cacheRead, u.cacheWrite)
  }

  function DeltaReport(usage: Option<Usage>): Usage {
    var u := usage.GetOr(NO_USAGE);
    Usage(u.input, Some(u.output.GetOr(0)), None, None)
  }

  /** What an upstream reader sees of an event that belongs to block `index`; a ping is not seen. */
  function SeenAs(e: Event, index: int, freshId: string): Option<Upstream> {
    match e
    case MessageStart(model, id, usage) =>
      Some(UpMessageStart(Some(id.GetOr(freshId)), Some(model), Some(StartReport(usage))))
    case BlockStart(block) => Some(UpBlockStart(index, block))
    case TextDelta(text) => Some(UpText(index, text))
    case JsonDelta(partial) => Some(UpJson(index, partial))
    case ThinkingDelta(text) => Some(UpThinking(index, text))
    case SignatureDelta(signature) => Some(UpSignature(index, signature))
    case BlockStop => Some(UpBlockStop(index))
    case MessageDelta(stopReason, _, usage) => Some(UpMessageDelta(Some(stopReason), Some(DeltaReport(usage))))
    case MessageStop => Some(UpMessageStop)
    case Ping => None
  }

  /** A script as a reader sees it: blocks numbered 0, 1, 2, ... in the order they open, after `before` others. */
  function ReadBack(script: seq<Event>, before: nat, freshId: string): seq<Upstream> {
    if script == [] then []
    else
      var now := before + if script[0].BlockStart? then 1 else 0;
      var seen := SeenAs(script[0], now - 1, freshId);
      Optional(seen) + ReadBack(script[1..], now, freshId)
  }

  lemma UsageReads(usage: Option<Usage>)
    ensures DecodeUsage(Some(StartUsage(usage))) == Some(StartReport(usage))
    ensures DecodeUsage(Some(DeltaUsage(usage))) == Some(DeltaReport(usage))
  {
  }

  lemma BlockReads(block: BlockInit)
    ensures DecodeBlock(Some(InitialBlock(block))) == Some(block)
  {
  }

  lemma DeltaReads(e: Event, index: int, freshId: string)
    requires e.Needs().Some?
    ensures DecodeDelta(index, Some(DeltaPayload(e))) == SeenAs(e, index, freshId)
  {
  }

  lemma StartReads(e: Event, index: int, freshId: string)
    requires e.MessageStart?
    ensures DecodeTyped("message_start", Some(Obj(Payload(e, index, freshId)["type" := Str("message_start")]))) ==
            SeenAs(e, index, freshId)
  {
    UsageReads(e.usage);
  }

  lemma MessageDeltaReads(e: Event, index: int, freshId: string)
    requires e.MessageDelta?
    ensures DecodeTyped("message_delta", Some(Obj(Payload(e, index, freshId)["type" := Str("message_delta")]))) ==
            SeenAs(e, index, freshId)
  {
    UsageReads(e.usage);
  }

  lemma PayloadReads(e: Event, index: int, freshId: string)
    ensures DecodeTyped(EventName(e), Some(Obj(Payload(e, index, freshId)["type" := Str(EventName(e))]))) ==
            SeenAs(e, index, freshId)
  {
    if e.MessageStart? {
      StartReads(e, index, freshId);
    } else if e.MessageDelta? {
      MessageDeltaReads(e, index, freshId);
    } else if e.BlockStart? {
      BlockReads(e.block);
    } else if e.Needs().Some? {
      DeltaReads(e, index, freshId);
    }
  }

  lemma NamesAreWords(e: Event)
    ensures Word(EventName(e))
  {
    PlainWord(EventName(e));
  }

  lemma RecordReads(e: Event, index: int, freshId: string)
    ensures Readable(Anthropic, RecordOf(e, index, freshId))
    ensures Decode(EventOf(RecordOf(e, index, freshId))) == SeenAs(e, index, freshId)
  {
    PayloadReads(e, index, freshId);
    NamesAreWords(e);
  }

  lemma DecodeCons(r: Record, rest: seq<Record>)
    ensures DecodeAll(EventsOf([r] + rest)) ==
            (if Decode(EventOf(r)).Some? then [Decode(EventOf(r)).value] else []) + DecodeAll(EventsOf(rest))
  {
    assert ([r] + rest)[1..] == rest;
    assert ([EventOf(r)] + EventsOf(rest))[1..] == EventsOf(rest);
  }

  /** The first step of a run, and the run after it. */
  lemma RunUnfolds(s: EncoderState, script: seq<Event>)
    requires script != [] && Run(Step, s, script).Ok?
    ensures var s1 := After(s, script[0]);
            && Violation(s, script[0]).None? && Run(Step, s1, script[1..]).Ok?
            && Run(Step, s, script).value.out ==
               [RecordOf(script[0], s1.currentIndex, s.freshId)] + Run(Step, s1, script[1..]).value.out
  {
    assert Step(s, script[0]).Ok?;
  }

  lemma {:induction false} RunReadable(s: EncoderState, script: seq<Event>)
    requires Run(Step, s, script).Ok?
    ensures forall r :: r in Run(Step, s, script).value.out ==> Readable(Anthropic, r)
    decreases script
  {
    if script != [] {
      RunUnfolds(s, script);
      var s1 := After(s, script[0]);
      RecordReads(script[0], s1.currentIndex, s.freshId);
      RunReadable(s1, script[1..]);
    }
  }

  function Optional<T>(o: Option<T>): seq<T> {
    if o.Some? then [o.value] else []
  }

  lemma RunReadsStep(s: EncoderState, script: seq<Event>)
    requires script != [] && Run(Step, s, script).Ok?
    ensures var s1 := After(s, script[0]);
            && Run(Step, s1, script[1..]).Ok?
            && DecodeAll(EventsOf(Run(Step, s, script).value.out)) ==
               Optional(SeenAs(script[0], s1.currentIndex, s.freshId))
               + DecodeAll(EventsOf(Run(Step, s1, script[1..]).value.out))
  {
    RunUnfolds(s, script);
    var s1 := After(s, script[0]);
    RecordReads(script[0], s1.currentIndex, s.freshId);
    DecodeCons(RecordOf(script[0], s1.currentIndex, s.freshId), Run(Step, s1, script[1..]).value.out);
  }

  lemma ReadBackStep(s: EncoderState, script: seq<Event>, s1: EncoderState)
    requires script != [] && s.currentIndex == s.nextIndex - 1
    requires Step(s, script[0]).Ok? && s1 == After(s, script[0])
    ensures s1.currentIndex == s1.nextIndex - 1 && s1.freshId == s.freshId
    ensures ReadBack(script, s.nextIndex, s.freshId) ==
            Optional(SeenAs(script[0], s1.currentIndex, s.freshId)) + ReadBack(script[1..], s1.nextIndex, s.freshId)
  {
    IndexStep(s, script[0], s1);
    ReadBackFirst(script, s.nextIndex, s1.nextIndex, s.freshId);
  }

  lemma IndexStep(s: EncoderState, e: Event, s1: EncoderState)
    requires s1 == After(s, e) && s.currentIndex == s.nextIndex - 1
    ensures s1.nextIndex == s.nextIndex + if e.BlockStart? then 1 else 0
    ensures s1.currentIndex == s1.nextIndex - 1 && s1.freshId == s.freshId
  {
  }

  lemma ReadBackFirst(script: seq<Event>, before: nat, now: nat, freshId: string)
    requires script != [] && now == before + if script[0].BlockStart? then 1 else 0
    ensures ReadBack(script, before, freshId) ==
            Optional(SeenAs(script[0], now - 1, freshId)) + ReadBack(script[1..], now, freshId)
  {
  }

  lemma {:induction false} RunReads(s: EncoderState, script: seq<Event>, seen: seq<Upstream>)
    requires Run(Step, s, script).Ok? && s.currentIndex == s.nextIndex - 1
    requires seen == ReadBack(script, s.nextIndex, s.freshId)
    ensures DecodeAll(EventsOf(Run(Step, s, script).value.out)) == seen
    decreases script
  {
    if script != [] {
      var s1 := After(s, script[0]);
      RunUnfolds(s, script);
      ReadBackStep(s, script, s1);
      RunReadsStep(s, script);
      RunReads(s1, script[1..], ReadBack(script[1..], s1.nextIndex, s1.freshId));
    }
  }

  /** For any accepted script and any chunking, the decoder reads back the numbered script. */
  lemma WireRoundTrip(c: Codec, script: seq<Event>, freshId: string)
    requires Lawful(c) && EncodeStream(script, freshId).Ok?
    ensures DecodeAll(Parse(Anthropic, c, RenderAll(c, EncodeStream(script, freshId).value))) ==
            ReadBack(script, 0, freshId)
  {
    RunReads(Initial(freshId), script, ReadBack(script, 0, freshId));
    RunReadable(Initial(freshId), script);
    TranscriptParses(Anthropic, c, EncodeStream(script, freshId).value);
  }
}
