/**
 * The Responses stream encoder and the non-streaming object it must agree with:
 * the terminal snapshot of any accepted stream is the object built from the
 * result that stream describes.
 */
module ResponsesStream {
  import opened Base
  import opened Json
  import opened SseRecords

  datatype Status = InProgress | Completed | Failed | Incomplete

  /** One provider-neutral output. */
  datatype Output = Message(text: string) | FunctionCall(callId: string, name: string, arguments: string)

  datatype Usage = Usage(input: int, output: int, cached: Option<int>, reasoning: Option<int>)

  datatype Fault = Fault(code: Option<string>, message: string)

  /** A canonical result, without a creation time of its own. */
  datatype ResponseResult = ResponseResult(id: Option<string>, model: string, status: Status,
                                           incompleteReason: Option<string>, error: Option<Fault>,
                                           outputs: seq<Output>, usage: Option<Usage>)

  /** What the caller injects: the id generator's answers, the clock's answer, the echoed request fields. */
  datatype Deps = Deps(ids: nat -> string, createdAt: int, echo: map<string, Json>)

  // ----- The non-streaming object -----

  function StripDashes(s: string): string {
    if s == "" then "" else (if s[0] == '-' then "" else [s[0]]) + StripDashes(s[1..])
  }

  function PrefixedId(deps: Deps, n: nat, prefix: string): string {
    prefix + "_" + StripDashes(deps.ids(n))
  }

  function ItemId(o: Output, deps: Deps, n: nat): string {
    PrefixedId(deps, n, if o.Message? then "msg" else "fc")
  }

  function TextPart(text: string): Json {
    Obj(map["type" := Str("output_text"), "text" := Str(text), "annotations" := Arr([])])
  }

  function RenderItem(o: Output, id: string): Json {
    match o
    case Message(text) =>
      Obj(map["type" := Str("message"), "id" := Str(id), "status" := Str("completed"), "role" := Str("assistant"),
              "content" := Arr([TextPart(text)])])
    case FunctionCall(callId, name, arguments) =>
      Obj(map["type" := Str("function_call"), "id" := Str(id), "status" := Str("completed"), "call_id" := Str(callId),
              "name" := Str(name), "arguments" := Str(arguments)])
  }

  /** Rendered items, their ids drawn in order from the `n`th on. */
  function RenderItems(outputs: seq<Output>, deps: Deps, n: nat): (items: seq<Json>) {
    if outputs == [] then []
    else [RenderItem(outputs[0], ItemId(outputs[0], deps, n))] + RenderItems(outputs[1..], deps, n + 1)
  }

  function OutputText(outputs: seq<Output>): string {
    if outputs == [] then ""
    else (if outputs[0].Message? then outputs[0].text else "") + OutputText(outputs[1..])
  }

  function RenderUsage(u: Usage): Json {
    Obj(map["input_tokens" := Num(u.input),
            "input_tokens_details" := Obj(map["cached_tokens" := Num(u.cached.GetOr(0))]),
            "output_tokens" := Num(u.output),
            "output_tokens_details" := Obj(map["reasoning_tokens" := Num(u.reasoning.GetOr(0))]),
            "total_tokens" := Num(u.input + u.output)])
  }

  function StatusText(status: Status): string {
    match status
    case InProgress => "in_progress"
    case Completed => "completed"
    case Failed => "failed"
    case Incomplete => "incomplete"
  }

  function Echoed(echo: map<string, Json>, key: string, default: Json): Json {
    if key in echo && echo[key] != Null then echo[key] else default
  }

  function ErrorJson(r: ResponseResult): Json {
    if r.status != Failed then Null else Obj(map[
      "code" := Str(if r.error.Some? then r.error.value.code.GetOr("server_error") else "server_error"),
      "message" := Str(if r.error.Some? then r.error.value.message else "Response failed")])
  }

  function DetailsJson(r: ResponseResult): Json {
    if r.status != Incomplete then Null
    else Obj(map["reason" := Str(r.incompleteReason.GetOr("max_output_tokens"))])
  }

  /** What the response says of itself. */
  function OwnFields(id: string, r: ResponseResult, items: seq<Json>, createdAt: int): map<string, Json> {
    map[
      "id" := Str(id),
      "object" := Str("response"),
      "created_at" := Num(createdAt),
      "status" := Str(StatusText(r.status)),
      "error" := ErrorJson(r),
      "incomplete_details" := DetailsJson(r),
      "model" := Str(r.model),
      "output" := Arr(items),
      "output_text" := Str(OutputText(r.outputs))]
  }

  /** The request fields it repeats. */
  function EchoFields(echo: map<string, Json>): map<string, Json> {
    map[
      "instructions" := Echoed(echo, "instructions", Null),
      "max_output_tokens" := Echoed(echo, "maxOutputTokens", Null),
      "parallel_tool_calls" := Echoed(echo, "parallelToolCalls", Bool(true)),
      "temperature" := Echoed(echo, "temperature", Null),
      "tool_choice" := Echoed(echo, "toolChoice", Str("auto")),
      "tools" := Echoed(echo, "tools", Arr([])),
      "top_p" := Echoed(echo, "topP", Null),
      "reasoning" := Echoed(echo, "reasoning", Obj(map["effort" := Null, "summary" := Null])),
      "metadata" := Echoed(echo, "metadata", Obj(map[]))]
  }

  /** `renderResponseEnvelope`. */
  function Envelope(id: string, r: ResponseResult, items: seq<Json>, deps: Deps): Json {
    Obj(OwnFields(id, r, items, deps.createdAt) + EchoFields(deps.echo)
        + (if r.usage.Some? then map["usage" := RenderUsage(r.usage.value)] else map[]))
  }

  /** How many ids the response itself draws. */
  function OwnIds(id: Option<string>): nat {
    if id.Some? then 0 else 1
  }

  function ResponseId(id: Option<string>, deps: Deps): string {
    if id.Some? then id.value else PrefixedId(deps, 0, "resp")
  }

  /** `buildResponsesObject`. */
  function BuildResponsesObject(r: ResponseResult, deps: Deps): Json {
    Envelope(ResponseId(r.id, deps), r, RenderItems(r.outputs, deps, OwnIds(r.id)), deps)
  }

  // ----- The encoder -----

  datatype ItemInit = MessageItem | CallItem(callId: string, name: string)

  datatype Event =
    | ResponseCreated(model: string, id: Option<string>)
    | ItemStart(item: ItemInit)
    | TextDelta(text: string)
    | ArgumentsDelta(delta: string)
    | ItemStop
    | ResponseDone(status: Status, usage: Option<Usage>, incompleteReason: Option<string>, error: Option<Fault>)

  datatype Error = AfterDone | CreatedTwice | BeforeCreated | StillOpen | NoOpenItem | WrongItem | NotTerminated

  /** The open item: its place, its id and the output it holds so far. */
  datatype OpenItem = OpenItem(index: nat, id: string, output: Output)

  datatype EncoderState = EncoderState(
    created: bool, done: bool, responseId: string, model: string, sequence: nat, nextIndex: nat,
    open: Option<OpenItem>, outputs: seq<Output>, items: seq<Json>, minted: nat)

  const INITIAL := EncoderState(false, false, "", "", 0, 0, None, [], [], 0)

  /** A frame before its type and sequence number are stamped on. */
  datatype Frame = Frame(kind: string, data: map<string, Json>)

  function Stamp(f: Frame, n: nat): Record {
    Named(f.kind, Obj(f.data["type" := Str(f.kind)]["sequence_number" := Num(n)]))
  }

  function StampAll(frames: seq<Frame>, n: nat): (rs: seq<Record>)
    ensures |rs| == |frames|
    ensures forall i :: 0 <= i < |frames| ==> rs[i] == Stamp(frames[i], n + i)
  {
    if frames == [] then [] else [Stamp(frames[0], n)] + StampAll(frames[1..], n + 1)
  }

  function Violation(s: EncoderState, e: Event): Option<Error> {
    if s.done then Some(AfterDone)
    else
      match e
      case ResponseCreated(_, _) => if s.created then Some(CreatedTwice) else None
      case ItemStart(_) | ResponseDone(_, _, _, _) =>
        if !s.created then Some(BeforeCreated) else if s.open.Some? then Some(StillOpen) else None
      case TextDelta(_) =>
        if !s.created then Some(BeforeCreated)
        else if s.open.None? || !s.open.value.output.Message? then Some(WrongItem) else None
      case ArgumentsDelta(_) =>
        if !s.created then Some(BeforeCreated)
        else if s.open.None? || !s.open.value.output.FunctionCall? then Some(WrongItem) else None
      case ItemStop => if s.open.None? then Some(NoOpenItem) else None
  }

  function Empty(item: ItemInit): Output {
    match item
    case MessageItem => Message("")
    case CallItem(callId, name) => FunctionCall(callId, name, "")
  }

  function Extend(o: Output, e: Event): Output {
    match e
    case TextDelta(text) => if o.Message? then Message(o.text + text) else o
    case ArgumentsDelta(delta) => if o.FunctionCall? then o.(arguments := o.arguments + delta) else o
    case _ => o
  }

  /** The next state but for the sequence number, which the frames drive. */
  function After(s: EncoderState, e: Event, deps: Deps): EncoderState
    requires Violation(s, e).None?
  {
    match e
    case ResponseCreated(model, id) =>
      s.(created := true, model := model, minted := OwnIds(id), responseId := ResponseId(id, deps))
    case ItemStart(item) =>
      s.(open := Some(OpenItem(s.nextIndex, ItemId(Empty(item), deps, s.minted), Empty(item))),
         nextIndex := s.nextIndex + 1, minted := s.minted + 1)
    case ItemStop =>
      var item := s.open.value;
      s.(open := None, outputs := s.outputs + [item.output], items := s.items + [RenderItem(item.output, item.id)])
    case ResponseDone(_, _, _, _) => s.(done := true)
    case _ => s.(open := Some(s.open.value.(output := Extend(s.open.value.output, e))))
  }

  function InProgressResult(s: EncoderState): ResponseResult {
    ResponseResult(None, s.model, InProgress, None, None, s.outputs, None)
  }

  function FinalResult(s: EncoderState, e: Event): ResponseResult
    requires e.ResponseDone?
  {
    ResponseResult(None, s.model, e.status, e.incompleteReason, e.error, s.outputs, e.usage)
  }

  function TerminalKind(status: Status): string {
    if status == Completed then "response.completed"
    else if status == Failed then "response.failed"
    else "response.incomplete"
  }

  function Skeleton(item: ItemInit, id: string): Json {
    match item
    case MessageItem =>
      Obj(map["id" := Str(id), "type" := Str("message"), "status" := Str("in_progress"),
              "role" := Str("assistant"), "content" := Arr([])])
    case CallItem(callId, name) =>
      Obj(map["id" := Str(id), "type" := Str("function_call"), "status" := Str("in_progress"),
              "arguments" := Str(""), "call_id" := Str(callId), "name" := Str(name)])
  }

  /** The frames of one accepted event: `s` before it, `t` after it. */
  function Frames(s: EncoderState, t: EncoderState, e: Event, deps: Deps): seq<Frame>
    requires Violation(s, e).None? && t == After(s, e, deps)
  {
    match e
    case ResponseCreated(_, _) =>
      var snapshot := Envelope(t.responseId, InProgressResult(t), t.items, deps);
      [Frame("response.created", map["response" := snapshot]),
       Frame("response.in_progress", map["response" := snapshot])]
    case ItemStart(item) =>
      var place, id := Num(t.open.value.index), t.open.value.id;
      [Frame("response.output_item.added", map["output_index" := place, "item" := Skeleton(item, id)])]
      + (if item.MessageItem?
         then [Frame("response.content_part.added", map["item_id" := Str(id), "output_index" := place,
                 "content_index" := Num(0), "part" := TextPart("")])]
         else [])
    case TextDelta(text) =>
      [Frame("response.output_text.delta", map["item_id" := Str(t.open.value.id),
         "output_index" := Num(t.open.value.index), "content_index" := Num(0), "delta" := Str(text)])]
    case ArgumentsDelta(delta) =>
      [Frame("response.function_call_arguments.delta", map["item_id" := Str(t.open.value.id),
         "output_index" := Num(t.open.value.index), "delta" := Str(delta)])]
    case ItemStop =>
      var item := s.open.value;
      var place := Num(item.index);
      (if item.output.Message?
       then [Frame("response.output_text.done", map["item_id" := Str(item.id), "output_index" := place,
               "content_index" := Num(0), "text" := Str(item.output.text)]),
             Frame("response.content_part.done", map["item_id" := Str(item.id), "output_index" := place,
               "content_index" := Num(0), "part" := TextPart(item.output.text)])]
       else [Frame("response.function_call_arguments.done", map["item_id" := Str(item.id), "output_index" := place,
               "arguments" := Str(item.output.arguments)])])
      + [Frame("response.output_item.done", map["output_index" := place, "item" := RenderItem(item.output, item.id)])]
    case ResponseDone(status, _, _, _) =>
      [Frame(TerminalKind(status), map["response" := Envelope(t.responseId, FinalResult(t, e), t.items, deps)])]
  }

  /** How many frames an accepted event makes. */
  function FrameCount(s: EncoderState, e: Event): nat {
    match e
    case ResponseCreated(_, _) => 2
    case ItemStart(item) => if item.MessageItem? then 2 else 1
    case ItemStop => if s.open.Some? && s.open.value.output.Message? then 3 else 2
    case _ => 1
  }

  /** An accepted event in the state it was accepted in. */
  datatype Accepted = Accepted(state: EncoderState, event: Event)

  /** The encoder as a machine over its state and what was injected. */
  datatype Machine = Machine(state: EncoderState, deps: Deps)

  function Step(m: Machine, e: Event): Result<Emit<Machine, Accepted>, Error> {
    var broken := Violation(m.state, e);
    if broken.Some? then Err(broken.value)
    else
      var t := After(m.state, e, m.deps).(sequence := m.state.sequence + FrameCount(m.state, e));
      Ok(Emit(Machine(t, m.deps), [Accepted(m.state, e)]))
  }

  /** The records of one accepted event. */
  function Records(a: Accepted, deps: Deps): seq<Record> {
    if Violation(a.state, a.event).Some? then []
    else StampAll(Frames(a.state, After(a.state, a.event, deps), a.event, deps), a.state.sequence)
  }

  function RecordsOf(run: seq<Accepted>, deps: Deps): seq<Record> {
    if run == [] then [] else Records(run[0], deps) + RecordsOf(run[1..], deps)
  }

  /** `encodeResponsesStream`, as the records of the transcript. */
  function EncodeStream(script: seq<Event>, deps: Deps): Result<seq<Record>, Error> {
    match Run(Step, Machine(INITIAL, deps), script)
    case Err(x) => Err(x)
    case Ok(end) => if end.state.state.done then Ok(RecordsOf(end.out, deps)) else Err(NotTerminated)
  }

  class ResponsesSseEncoder {
    const codec: Codec
    const deps: Deps
    var created: bool
    var done: bool
    var responseId: string
    var model: string
    var sequence: nat
    var nextOutputIndex: nat
    var openItem: Option<OpenItem>
    /** Completed canonical outputs, and the items rendered from them. */
    var outputs: seq<Output>
    var renderedItems: seq<Json>
    /** How many ids the generator has given out. */
    var minted: nat

    ghost function State(): EncoderState
      reads this
    {
      EncoderState(created, done, responseId, model, sequence, nextOutputIndex, openItem, outputs, renderedItems,
                   minted)
    }

    constructor (c: Codec, d: Deps)
      ensures State() == INITIAL && codec == c && deps == d
    {
      codec, deps := c, d;
      created, done, responseId, model, sequence, nextOutputIndex := false, false, "", "", 0, 0;
      openItem, outputs, renderedItems, minted := None, [], [], 0;
    }

    /** Frame one record with its type and a fresh sequence number. */
    method Write(f: Frame) returns (text: string)
      modifies this`sequence
      ensures text == Render(codec, Stamp(f, old(sequence))) && sequence == old(sequence) + 1
    {
      text := Render(codec, Stamp(f, sequence));
      sequence := sequence + 1;
    }

    method WriteAll(frames: seq<Frame>) returns (text: string)
      modifies this`sequence
      ensures text == RenderAll(codec, StampAll(frames, old(sequence))) && sequence == old(sequence) + |frames|
    {
      if frames == [] {
        return "";
      }
      RenderStamped(codec, frames, sequence);
      var first := Write(frames[0]);
      var rest := WriteAll(frames[1..]);
      text := first + rest;
    }

    /** Encode one event, or reject it and change nothing. */
    method Encode(e: Event) returns (r: Result<string, Error>)
      modifies this
      ensures Encoded(codec, old(State()), e, deps, r, State())
    {
      if done {
        return Err(AfterDone);
      }
      var frames := OnEvent(e);
      if frames.Err? {
        return Err(frames.error);
      }
      ghost var t := State();
      var text := WriteAll(frames.value);
      EventEncoded(codec, old(State()), e, deps, t, frames.value, text);
      r := Ok(text);
    }

    /** The handler of an event, by its kind. */
    method OnEvent(e: Event) returns (frames: Result<seq<Frame>, Error>)
      requires !done
      modifies this
      ensures Handled(old(State()), e, deps, frames, State())
    {
      match e {
        case ResponseCreated(_, _) => frames := OnResponseCreated(e);
        case ItemStart(_) => frames := OnItemStart(e);
        case TextDelta(_) => frames := OnTextDelta(e);
        case ArgumentsDelta(_) => frames := OnArgumentsDelta(e);
        case ItemStop => frames := OnItemStop();
        case ResponseDone(_, _, _, _) => frames := OnResponseDone(e);
      }
    }

    method OnResponseCreated(e: Event) returns (r: Result<seq<Frame>, Error>)
      requires !done && e.ResponseCreated?
      modifies this
      ensures Handled(old(State()), e, deps, r, State())
    {
      if created {
        return Err(CreatedTwice);
      }
      created := true;
      model := e.model;
      responseId := if e.id.Some? then e.id.value else PrefixedId(deps, 0, "resp");
      minted := if e.id.Some? then 0 else 1;
      var result := ResponseResult(None, model, InProgress, None, None, outputs, None);
      var snapshot := Envelope(responseId, result, renderedItems, deps);
      r := Ok([Frame("response.created", map["response" := snapshot]),
               Frame("response.in_progress", map["response" := snapshot])]);
    }

    method OnItemStart(e: Event) returns (r: Result<seq<Frame>, Error>)
      requires !done && e.ItemStart?
      modifies this
      ensures Handled(old(State()), e, deps, r, State())
    {
      if !created {
        return Err(BeforeCreated);
      }
      if openItem.Some? {
        return Err(StillOpen);
      }
      var id := ItemId(Empty(e.item), deps, minted);
      var place := Num(nextOutputIndex);
      openItem := Some(OpenItem(nextOutputIndex, id, Empty(e.item)));
      nextOutputIndex, minted := nextOutputIndex + 1, minted + 1;
      var frames := [Frame("response.output_item.added",
                       map["output_index" := place, "item" := Skeleton(e.item, id)])];
      assert frames == frames + [];
      if e.item.MessageItem? {
        frames := frames + [Frame("response.content_part.added", map["item_id" := Str(id),
                    "output_index" := place, "content_index" := Num(0), "part" := TextPart("")])];
      }
      r := Ok(frames);
    }

    method OnTextDelta(e: Event) returns (r: Result<seq<Frame>, Error>)
      requires !done && e.TextDelta?
      modifies this
      ensures Handled(old(State()), e, deps, r, State())
    {
      if !created {
        return Err(BeforeCreated);
      }
      if openItem.None? || !openItem.value.output.Message? {
        return Err(WrongItem);
      }
      openItem := Some(openItem.value.(output := Message(openItem.value.output.text + e.text)));
      r := Ok([Frame("response.output_text.delta", map["item_id" := Str(openItem.value.id),
                 "output_index" := Num(openItem.value.index), "content_index" := Num(0), "delta" := Str(e.text)])]);
    }

    method OnArgumentsDelta(e: Event) returns (r: Result<seq<Frame>, Error>)
      requires !done && e.ArgumentsDelta?
      modifies this
      ensures Handled(old(State()), e, deps, r, State())
    {
      if !created {
        return Err(BeforeCreated);
      }
      if openItem.None? || !openItem.value.output.FunctionCall? {
        return Err(WrongItem);
      }
      var call := openItem.value.output;
      openItem := Some(openItem.value.(output := call.(arguments := call.arguments + e.delta)));
      r := Ok([Frame("response.function_call_arguments.delta", map["item_id" := Str(openItem.value.id),
                 "output_index" := Num(openItem.value.index), "delta" := Str(e.delta)])]);
    }

    method OnItemStop() returns (r: Result<seq<Frame>, Error>)
      requires !done
      modifies this
      ensures Handled(old(State()), ItemStop, deps, r, State())
    {
      if openItem.None? {
        return Err(NoOpenItem);
      }
      var item := openItem.value;
      var place, rendered := Num(item.index), RenderItem(item.output, item.id);
      openItem := None;
      outputs := outputs + [item.output];
      renderedItems := renderedItems + [rendered];
      var frames: seq<Frame>;
      if item.output.Message? {
        frames := [Frame("response.output_text.done", map["item_id" := Str(item.id), "output_index" := place,
                     "content_index" := Num(0), "text" := Str(item.output.text)]),
                   Frame("response.content_part.done", map["item_id" := Str(item.id), "output_index" := place,
                     "content_index" := Num(0), "part" := TextPart(item.output.text)])];
      } else {
        frames := [Frame("response.function_call_arguments.done", map["item_id" := Str(item.id),
                     "output_index" := place, "arguments" := Str(item.output.arguments)])];
      }
      r := Ok(frames + [Frame("response.output_item.done", map["output_index" := place, "item" := rendered])]);
    }

    method OnResponseDone(e: Event) returns (r: Result<seq<Frame>, Error>)
      requires !done && e.ResponseDone?
      modifies this
      ensures Handled(old(State()), e, deps, r, State())
    {
      if !created {
        return Err(BeforeCreated);
      }
      if openItem.Some? {
        return Err(StillOpen);
      }
      done := true;
      var result := ResponseResult(None, model, e.status, e.incompleteReason, e.error, outputs, e.usage);
      r := Ok([Frame(TerminalKind(e.status), map["response" := Envelope(responseId, result, renderedItems, deps)])]);
    }
  }

  /** One event is rejected and changes nothing, or is written as its records. */
  ghost predicate Encoded(c: Codec, s: EncoderState, e: Event, deps: Deps, r: Result<string, Error>, t: EncoderState) {
    match Step(Machine(s, deps), e)
    case Err(x) => r == Err(x) && t == s
    case Ok(step) => r == Ok(RenderAll(c, Records(Accepted(s, e), deps))) && t == step.state.state
  }

  lemma EventEncoded(c: Codec, s: EncoderState, e: Event, deps: Deps, t: EncoderState, frames: seq<Frame>, text: string)
    requires Violation(s, e).None? && t == After(s, e, deps) && frames == Frames(s, t, e, deps)
    requires text == RenderAll(c, StampAll(frames, t.sequence))
    ensures Encoded(c, s, e, deps, Ok(text), t.(sequence := t.sequence + |frames|))
  {
    StepIs(s, e, deps);
  }

  /** A handler rejects and changes nothing, or makes the specified change and frames. */
  ghost predicate Handled(s: EncoderState, e: Event, deps: Deps, r: Result<seq<Frame>, Error>, t: EncoderState) {
    if Violation(s, e).Some? then r == Err(Violation(s, e).value) && t == s
    else t == After(s, e, deps) && r == Ok(Frames(s, t, e, deps))
  }

  lemma FrameCounts(s: EncoderState, e: Event, deps: Deps)
    requires Violation(s, e).None?
    ensures |Frames(s, After(s, e, deps), e, deps)| == FrameCount(s, e)
  {
  }

  /** The step of an event that breaks no rule. */
  lemma StepIs(s: EncoderState, e: Event, deps: Deps)
    requires Violation(s, e).None?
    ensures var t := After(s, e, deps);
            && t.sequence == s.sequence && |Frames(s, t, e, deps)| == FrameCount(s, e)
            && Records(Accepted(s, e), deps) == StampAll(Frames(s, t, e, deps), s.sequence)
            && Step(Machine(s, deps), e) ==
               Ok(Emit(Machine(t.(sequence := s.sequence + FrameCount(s, e)), deps), [Accepted(s, e)]))
  {
    FrameCounts(s, e, deps);
    SequenceKept(s, e, deps);
  }

  lemma SequenceKept(s: EncoderState, e: Event, deps: Deps)
    requires Violation(s, e).None?
    ensures After(s, e, deps).sequence == s.sequence
  {
  }

  lemma RenderStamped(c: Codec, frames: seq<Frame>, n: nat)
    requires frames != []
    ensures RenderAll(c, StampAll(frames, n)) ==
            Render(c, Stamp(frames[0], n)) + RenderAll(c, StampAll(frames[1..], n + 1))
  {
    assert StampAll(frames, n)[1..] == StampAll(frames[1..], n + 1);
  }

  /** `encodeResponsesStream` as its loop runs. */
  method EncodeResponsesStream(codec: Codec, script: seq<Event>, deps: Deps) returns (r: Result<string, Error>)
    ensures r == Printed(codec, EncodeStream(script, deps))
  {
    var encoder := new ResponsesSseEncoder(codec, deps);
    var out := "";
    ghost var run: seq<Accepted> := [];
    RunFirst(Step, Machine(INITIAL, deps), script);
    for i := 0 to |script|
      invariant fresh(encoder) && encoder.codec == codec && encoder.deps == deps
      invariant out == RenderAll(codec, RecordsOf(run, deps))
      invariant Run(Step, Machine(INITIAL, deps), script) ==
                match Run(Step, Machine(encoder.State(), deps), script[i..])
                case Err(x) => Err(x)
                case Ok(rest) => Ok(Emit(rest.state, run + rest.out))
    {
      ghost var step := Step(Machine(encoder.State(), deps), script[i]);
      ghost var accepted := Accepted(encoder.State(), script[i]);
      if step.Ok? {
        RunNext(Step, Machine(encoder.State(), deps), script, i, run);
        OneMore(codec, run, accepted, deps);
      }
      var text := encoder.Encode(script[i]);
      if text.Err? {
        return Err(text.error);
      }
      out, run := out + text.value, run + step.value.out;
    }
    RunEnds(Step, Machine(encoder.State(), deps), run);
    if !encoder.done {
      return Err(NotTerminated);
    }
    r := Ok(out);
  }

  lemma RecordsOfOne(a: Accepted, deps: Deps)
    ensures RecordsOf([a], deps) == Records(a, deps)
  {
    var rs := Records(a, deps);
    assert RecordsOf([a], deps) == rs + RecordsOf([a][1..], deps);
    assert rs + [] == rs;
  }

  lemma OneMore(c: Codec, run: seq<Accepted>, a: Accepted, deps: Deps)
    ensures RenderAll(c, RecordsOf(run + [a], deps)) ==
            RenderAll(c, RecordsOf(run, deps)) + RenderAll(c, Records(a, deps))
  {
    RecordsAppend(run, [a], deps);
    RecordsOfOne(a, deps);
    RenderAppend(c, RecordsOf(run, deps), Records(a, deps));
  }

  /** The events that write one completed output. */
  function ItemEvents(o: Output): seq<Event> {
    match o
    case Message(text) => [ItemStart(MessageItem), TextDelta(text), ItemStop]
    case FunctionCall(callId, name, arguments) =>
      [ItemStart(CallItem(callId, name)), ArgumentsDelta(arguments), ItemStop]
  }

  function EventsForOutputs(outputs: seq<Output>): seq<Event> {
    if outputs == [] then [] else ItemEvents(outputs[0]) + EventsForOutputs(outputs[1..])
  }

  /** `streamEventsForResult`. */
  function EventsForResult(r: ResponseResult): seq<Event> {
    [ResponseCreated(r.model, r.id)] + EventsForOutputs(r.outputs)
    + [ResponseDone(r.status, r.usage, r.incompleteReason, r.error)]
  }

  // ----- What a script describes, said of the script alone -----

  /** The output being written after a run of events, and the outputs completed in it. */
  function Writing(past: seq<Event>): Option<Output> {
    if past == [] then None
    else
      var before := Writing(past[..|past| - 1]);
      match past[|past| - 1]
      case ItemStart(item) => Some(Empty(item))
      case ItemStop => None
      case e => if before.Some? then Some(Extend(before.value, e)) else None
  }

  function CompletedOutputs(past: seq<Event>): seq<Output> {
    if past == [] then []
    else
      var before := past[..|past| - 1];
      CompletedOutputs(before)
      + if past[|past| - 1].ItemStop? && Writing(before).Some? then [Writing(before).value] else []
  }

  /** The result a complete script describes. */
  function Described(script: seq<Event>): ResponseResult
    requires Complete(script)
  {
    var last := script[|script| - 1];
    ResponseResult(script[0].id, script[0].model, last.status, last.incompleteReason, last.error,
                   CompletedOutputs(script), last.usage)
  }

  /** The ordering rules: what may follow a run of events. */
  predicate Allowed(past: seq<Event>, e: Event) {
    var writing := Writing(past);
    && (e.ResponseCreated? <==> past == [])
    && (past != [] ==> !past[|past| - 1].ResponseDone?)
    && match e
       case ResponseCreated(_, _) => true
       case ItemStart(_) | ResponseDone(_, _, _, _) => writing.None?
       case ItemStop => writing.Some?
       case TextDelta(_) => writing.Some? && writing.value.Message?
       case ArgumentsDelta(_) => writing.Some? && writing.value.FunctionCall?
  }

  predicate Ordered(script: seq<Event>) {
    forall k :: 0 <= k < |script| ==> Allowed(script[..k], script[k])
  }

  predicate Complete(script: seq<Event>) {
    script != [] && script[0].ResponseCreated? && script[|script| - 1].ResponseDone? && Ordered(script)
  }

  ghost predicate Summarises(s: EncoderState, deps: Deps, past: seq<Event>) {
    && s.created == (past != [])
    && (past != [] ==> past[0].ResponseCreated?)
    && s.done == (past != [] && past[|past| - 1].ResponseDone?)
    && s.outputs == CompletedOutputs(past)
    && s.nextIndex == |s.outputs| + (if s.open.Some? then 1 else 0)
    && s.open.Some? == Writing(past).Some?
    && (past == [] ==> s == INITIAL)
    && (past != [] ==>
          && s.model == past[0].model && s.responseId == ResponseId(past[0].id, deps)
          && s.items == RenderItems(s.outputs, deps, OwnIds(past[0].id))
          && s.minted == OwnIds(past[0].id) + s.nextIndex)
    && (s.open.Some? ==>
          && s.open.value.output == Writing(past).value && s.open.value.index == |s.outputs|
          && past != []
          && s.open.value.id == ItemId(s.open.value.output, deps, OwnIds(past[0].id) + |s.outputs|))
  }

  lemma {:induction false} RenderItemsSnoc(outputs: seq<Output>, o: Output, deps: Deps, n: nat)
    ensures RenderItems(outputs + [o], deps, n) ==
            RenderItems(outputs, deps, n) + [RenderItem(o, ItemId(o, deps, n + |outputs|))]
  {
    if outputs == [] {
      assert RenderItems([o], deps, n) == [RenderItem(o, ItemId(o, deps, n))] + RenderItems([], deps, n + 1);
      assert [] + [o] == [o];
    } else {
      RenderItemsSnoc(outputs[1..], o, deps, n + 1);
      assert (outputs + [o])[1..] == outputs[1..] + [o];
    }
  }

  lemma StepLegal(s: EncoderState, deps: Deps, past: seq<Event>, script: seq<Event>)
    requires Summarises(s, deps, past) && |past| < |script| && past == script[..|past|]
    ensures Violation(s, script[|past|]).None? <==> Allowed(past, script[|past|])
  {
    assert past != [] ==> past[|past| - 1] == script[|past| - 1];
  }

  /** An event out of order is rejected for the first rule it breaks. */
  lemma RejectedFor(s: EncoderState, deps: Deps, past: seq<Event>, e: Event)
    requires Summarises(s, deps, past) && !Allowed(past, e)
    ensures Step(Machine(s, deps), e) ==
            Err(if past != [] && past[|past| - 1].ResponseDone? then AfterDone
                else if e.ResponseCreated? then CreatedTwice
                else if e.ItemStop? then NoOpenItem
                else if past == [] then BeforeCreated
                else if e.ItemStart? || e.ResponseDone? then StillOpen
                else WrongItem)
  {
    var script := past + [e];
    assert script[..|past|] == past;
    StepLegal(s, deps, past, script);
  }

  lemma StepSummarises(s: EncoderState, deps: Deps, past: seq<Event>, e: Event, sequence: nat)
    requires Summarises(s, deps, past) && Violation(s, e).None?
    ensures Summarises(After(s, e, deps).(sequence := sequence), deps, past + [e])
  {
    var now := past + [e];
    assert now[..|now| - 1] == past && now[|now| - 1] == e;
    if e.ItemStop? {
      RenderItemsSnoc(s.outputs, s.open.value.output, deps, OwnIds(past[0].id));
    }
  }

  lemma StepKeepsSummary(m: Machine, past: seq<Event>, script: seq<Event>)
    requires Summarises(m.state, m.deps, past) && |past| < |script| && past == script[..|past|]
    ensures Step(m, script[|past|]).Ok? <==> Allowed(past, script[|past|])
    ensures Step(m, script[|past|]).Ok? ==>
              var next := Step(m, script[|past|]).value.state;
              next.deps == m.deps && Summarises(next.state, m.deps, past + [script[|past|]])
  {
    StepLegal(m.state, m.deps, past, script);
    if Violation(m.state, script[|past|]).None? {
      var next := Step(m, script[|past|]).value.state;
      StepSummarises(m.state, m.deps, past, script[|past|], next.state.sequence);
    }
  }

  /** A run is its first step and the run after it. */
  lemma RunUnfolds(m: Machine, script: seq<Event>, k: nat)
    requires k < |script|
    ensures Run(Step, m, script[k..]).Ok? <==>
            Step(m, script[k]).Ok? && Run(Step, Step(m, script[k]).value.state, script[k + 1..]).Ok?
    ensures Run(Step, m, script[k..]).Ok? ==>
              Run(Step, m, script[k..]).value.state ==
              Run(Step, Step(m, script[k]).value.state, script[k + 1..]).value.state
  {
    assert script[k..][1..] == script[k + 1..];
  }

  ghost predicate SummarisesMachine(m: Machine, deps: Deps, past: seq<Event>) {
    m.deps == deps && Summarises(m.state, deps, past)
  }

  /** The rest of a script is in order. */
  ghost predicate OrderedFrom(script: seq<Event>, k: nat) {
    forall i :: k <= i < |script| ==> Allowed(script[..i], script[i])
  }

  lemma OrderedNext(script: seq<Event>, k: nat)
    requires k < |script|
    ensures OrderedFrom(script, k) <==> Allowed(script[..k], script[k]) && OrderedFrom(script, k + 1)
  {
  }

  lemma {:induction false} AcceptsFrom(m: Machine, k: nat, script: seq<Event>, rest: seq<Event>)
    requires k <= |script| && rest == script[k..] && SummarisesMachine(m, m.deps, script[..k])
    ensures Run(Step, m, rest).Ok? <==> OrderedFrom(script, k)
    ensures Run(Step, m, rest).Ok? ==> SummarisesMachine(Run(Step, m, rest).value.state, m.deps, script)
    decreases |script| - k
  {
    if k < |script| {
      StepKeepsSummary(m, script[..k], script);
      OrderedNext(script, k);
      RunUnfolds(m, script, k);
      if Allowed(script[..k], script[k]) {
        assert script[..k] + [script[k]] == script[..k + 1];
        AcceptsFrom(Step(m, script[k]).value.state, k + 1, script, script[k + 1..]);
      }
    } else {
      assert rest == [] && script == script[..k];
    }
  }

  /** The encoder accepts a script exactly when it keeps the ordering rules and ends with the terminal event. */
  lemma AcceptedIffComplete(script: seq<Event>, deps: Deps)
    ensures EncodeStream(script, deps).Ok? <==> Complete(script)
  {
    assert script[0..] == script && script[..0] == [];
    AcceptsFrom(Machine(INITIAL, deps), 0, script, script);
    if script != [] && Ordered(script) {
      assert Allowed(script[..0], script[0]);
    }
  }

  lemma OrderedSnoc(script: seq<Event>, e: Event)
    ensures Ordered(script + [e]) <==> Ordered(script) && Allowed(script, e)
  {
    var longer := script + [e];
    assert longer[..|script|] == script && longer[|script|] == e;
    assert forall k :: 0 <= k < |script| ==> longer[..k] == script[..k] && longer[k] == script[k];
  }

  function SequenceNumber(r: Record): Option<int> {
    if r.Named? then NumProp(Some(r.data), "sequence_number") else None
  }

  /** Each record is typed by its own name and numbered by its place. */
  ghost predicate NumberedFrom(rs: seq<Record>, n: nat) {
    forall i :: 0 <= i < |rs| ==> SequenceNumber(rs[i]) == Some(n + i) && TypedByName(rs[i])
  }

  predicate TypedByName(r: Record) {
    r.Named? && StrProp(Some(r.data), "type") == Some(r.name)
  }

  lemma StampAllNumbers(frames: seq<Frame>, n: nat)
    ensures NumberedFrom(StampAll(frames, n), n)
  {
    forall i | 0 <= i < |frames|
      ensures SequenceNumber(StampAll(frames, n)[i]) == Some(n + i) && TypedByName(StampAll(frames, n)[i])
    {
      assert StampAll(frames, n)[i] == Stamp(frames[i], n + i);
      StampNumbers(frames[i], n + i);
    }
  }

  lemma StampNumbers(f: Frame, n: nat)
    ensures SequenceNumber(Stamp(f, n)) == Some(n) && TypedByName(Stamp(f, n))
  {
  }

  lemma RecordsNumbered(a: Accepted, deps: Deps)
    requires Violation(a.state, a.event).None?
    ensures |Records(a, deps)| == FrameCount(a.state, a.event)
    ensures NumberedFrom(Records(a, deps), a.state.sequence)
  {
    StampAllNumbers(Frames(a.state, After(a.state, a.event, deps), a.event, deps), a.state.sequence);
  }

  lemma NumberedAppend(a: seq<Record>, b: seq<Record>, n: nat, next: nat)
    requires NumberedFrom(a, n) && NumberedFrom(b, next) && next == n + |a|
    ensures NumberedFrom(a + b, n)
  {
  }

  /** The records of a run are those of its first event, which are numbered, and those of the rest. */
  lemma FirstNumbered(m: Machine, script: seq<Event>, rest: seq<Accepted>)
    requires script != [] && Run(Step, m, script).Ok?
    requires rest == Run(Step, Step(m, script[0]).value.state, script[1..]).value.out
    ensures var accepted := Accepted(m.state, script[0]);
            && NumberedFrom(Records(accepted, m.deps), m.state.sequence)
            && Step(m, script[0]).value.state.state.sequence == m.state.sequence + |Records(accepted, m.deps)|
            && RecordsOf(Run(Step, m, script).value.out, m.deps) == Records(accepted, m.deps) + RecordsOf(rest, m.deps)
  {
    var accepted := Accepted(m.state, script[0]);
    RecordsNumbered(accepted, m.deps);
    assert ([accepted] + rest)[1..] == rest;
  }

  lemma {:induction false} RunSequence(m: Machine, script: seq<Event>, rs: seq<Record>)
    requires Run(Step, m, script).Ok? && rs == RecordsOf(Run(Step, m, script).value.out, m.deps)
    ensures NumberedFrom(rs, m.state.sequence)
    decreases script
  {
    if script != [] {
      var next := Step(m, script[0]).value.state;
      var rest := Run(Step, next, script[1..]).value.out;
      FirstNumbered(m, script, rest);
      RunSequence(next, script[1..], RecordsOf(rest, m.deps));
      NumberedAppend(Records(Accepted(m.state, script[0]), m.deps), RecordsOf(rest, m.deps), m.state.sequence,
                     next.state.sequence);
    }
  }

  /** Sequence numbers run 0, 1, 2, ... over the transcript. */
  lemma SequenceIsGapless(script: seq<Event>, deps: Deps)
    requires EncodeStream(script, deps).Ok?
    ensures NumberedFrom(EncodeStream(script, deps).value, 0)
  {
    RunSequence(Machine(INITIAL, deps), script, EncodeStream(script, deps).value);
  }

  // ----- The snapshot theorem -----

  lemma {:induction false} RecordsAppend(a: seq<Accepted>, b: seq<Accepted>, deps: Deps)
    ensures RecordsOf(a + b, deps) == RecordsOf(a, deps) + RecordsOf(b, deps)
  {
    if a == [] {
      AppendNone(b);
    } else {
      RecordsAppend(a[1..], b, deps);
      HeadFirst(a, b);
      Assoc(Records(a[0], deps), RecordsOf(a[1..], deps), RecordsOf(b, deps));
    }
  }

  lemma EnvelopeIgnoresId(id: string, r: ResponseResult, items: seq<Json>, deps: Deps)
    ensures Envelope(id, r, items, deps) == Envelope(id, r.(id := None), items, deps)
  {
  }

  lemma RunLast(m: Machine, pre: seq<Event>, last: Event)
    requires Run(Step, m, pre).Ok?
    ensures var end := Run(Step, m, pre).value;
            Violation(end.state.state, last).None? ==>
              && Run(Step, m, pre + [last]).Ok?
              && Run(Step, m, pre + [last]).value.out == end.out + [Accepted(end.state.state, last)]
              && Run(Step, m, pre + [last]).value.state.state.done == After(end.state.state, last, end.state.deps).done
  {
    var end := Run(Step, m, pre).value;
    RunAppend(Step, m, pre, [last]);
    if Violation(end.state.state, last).None? {
      var step := Step(end.state, last).value;
      assert Run(Step, step.state, []) == Ok(Emit(step.state, []));
      assert [last][1..] == [];
      assert Run(Step, end.state, [last]) == Ok(Emit(step.state, step.out + []));
    }
  }

  /** A script in order runs, and its state sums it up. */
  lemma PrefixRuns(pre: seq<Event>, m: Machine)
    requires Ordered(pre) && m.state == INITIAL
    ensures Run(Step, m, pre).Ok? && SummarisesMachine(Run(Step, m, pre).value.state, m.deps, pre)
  {
    assert pre[0..] == pre && pre[..0] == [];
    AcceptsFrom(m, 0, pre, pre);
  }

  /** The state a complete script ends in, just before its terminal event. */
  lemma BeforeTerminal(script: seq<Event>, deps: Deps) returns (s: EncoderState, run: seq<Accepted>)
    requires Complete(script)
    ensures Summarises(s, deps, script[..|script| - 1]) && Violation(s, script[|script| - 1]).None?
    ensures EncodeStream(script, deps) == Ok(RecordsOf(run + [Accepted(s, script[|script| - 1])], deps))
  {
    var m := Machine(INITIAL, deps);
    var pre, last := script[..|script| - 1], script[|script| - 1];
    assert pre + [last] == script;
    OrderedSnoc(pre, last);
    PrefixRuns(pre, m);
    var end := Run(Step, m, pre).value;
    s, run := end.state.state, end.out;
    StepLegal(s, deps, pre, script);
    RunLast(m, pre, last);
  }

  function Response(r: Record): Option<Json> {
    if r.Named? then Prop(Some(r.data), "response") else None
  }

  /** After a complete script the state holds what the non-streaming object is built from. */
  lemma FinalEnvelope(script: seq<Event>, s: EncoderState, t: EncoderState, last: Event, deps: Deps)
    requires Complete(script) && last == script[|script| - 1]
    requires Summarises(s, deps, script[..|script| - 1]) && Violation(s, last).None? && t == After(s, last, deps)
    ensures Envelope(t.responseId, FinalResult(t, last), t.items, deps) == BuildResponsesObject(Described(script), deps)
  {
    var pre, described := script[..|script| - 1], Described(script);
    assert pre != [] by {
      assert Allowed(script[..0], script[0]) && script[..0] == [];
      assert Allowed(pre, last);
    }
    assert FinalResult(t, last) == described.(id := None);
    EnvelopeIgnoresId(t.responseId, described, t.items, deps);
  }

  /** The terminal event carries exactly the non-streaming object of the result the script describes. */
  lemma TerminalSnapshot(script: seq<Event>, deps: Deps)
    requires Complete(script)
    ensures EncodeStream(script, deps).Ok? && EncodeStream(script, deps).value != []
    ensures var records := EncodeStream(script, deps).value;
            && Response(records[|records| - 1]) == Some(BuildResponsesObject(Described(script), deps))
            && records[|records| - 1].name == TerminalKind(Described(script).status)
  {
    var s, run := BeforeTerminal(script, deps);
    var last := script[|script| - 1];
    TerminalRecord(s, last, deps);
    FinalEnvelope(script, s, After(s, last, deps), last, deps);
    LastRecord(run, Accepted(s, last), deps, Records(Accepted(s, last), deps));
  }

  lemma LastRecord(run: seq<Accepted>, a: Accepted, deps: Deps, here: seq<Record>)
    requires here == Records(a, deps) && |here| == 1
    ensures RecordsOf(run + [a], deps) == RecordsOf(run, deps) + here
    ensures RecordsOf(run + [a], deps) != []
    ensures RecordsOf(run + [a], deps)[|RecordsOf(run + [a], deps)| - 1] == here[0]
  {
    RecordsAppend(run, [a], deps);
    RecordsOfOne(a, deps);
  }

  lemma TerminalRecord(s: EncoderState, last: Event, deps: Deps)
    requires last.ResponseDone? && Violation(s, last).None?
    ensures var t := After(s, last, deps);
            var records := Records(Accepted(s, last), deps);
            && |records| == 1
            && records[0].Named? && records[0].name == TerminalKind(last.status)
            && Response(records[0]) == Some(Envelope(t.responseId, FinalResult(t, last), t.items, deps))
  {
  }

  // ----- Scripts expanded from a completed result -----

  /** What one more event does to the history. */
  lemma Snoc(past: seq<Event>, e: Event)
    ensures Ordered(past + [e]) <==> Ordered(past) && Allowed(past, e)
    ensures Writing(past + [e]) ==
            match e
            case ItemStart(item) => Some(Empty(item))
            case ItemStop => None
            case _ => if Writing(past).Some? then Some(Extend(Writing(past).value, e)) else None
    ensures CompletedOutputs(past + [e]) ==
            CompletedOutputs(past) + if e.ItemStop? && Writing(past).Some? then [Writing(past).value] else []
  {
    OrderedSnoc(past, e);
    assert (past + [e])[..|past|] == past;
  }

  /** A script in good order between items: something may still follow. */
  ghost predicate Between(past: seq<Event>, outputs: seq<Output>) {
    && past != [] && past[0].ResponseCreated? && !past[|past| - 1].ResponseDone?
    && Ordered(past) && Writing(past).None? && CompletedOutputs(past) == outputs
  }

  /** A script in good order with one item being written after some outputs. */
  ghost predicate During(past: seq<Event>, outputs: seq<Output>, o: Output) {
    && past != [] && past[0].ResponseCreated? && !past[|past| - 1].ResponseDone?
    && Ordered(past) && Writing(past) == Some(o) && CompletedOutputs(past) == outputs
  }

  lemma StartWrites(past: seq<Event>, outputs: seq<Output>, item: ItemInit)
    requires Between(past, outputs)
    ensures During(past + [ItemStart(item)], outputs, Empty(item))
  {
    Snoc(past, ItemStart(item));
    assert outputs + [] == outputs;
  }

  lemma DeltaWrites(past: seq<Event>, outputs: seq<Output>, o: Output, e: Event)
    requires During(past, outputs, o) && (if o.Message? then e.TextDelta? else e.ArgumentsDelta?)
    ensures During(past + [e], outputs, Extend(o, e))
  {
    Snoc(past, e);
    assert outputs + [] == outputs;
  }

  lemma StopWrites(past: seq<Event>, outputs: seq<Output>, o: Output)
    requires During(past, outputs, o)
    ensures Between(past + [ItemStop], outputs + [o])
  {
    Snoc(past, ItemStop);
  }

  lemma WriteItem(past: seq<Event>, outputs: seq<Output>, o: Output)
    requires Between(past, outputs)
    ensures Between(past + ItemEvents(o), outputs + [o])
  {
    var events := ItemEvents(o);
    var p1 := past + [events[0]];
    var p2 := p1 + [events[1]];
    ItemParts(o);
    StartWrites(past, outputs, events[0].item);
    DeltaWrites(p1, outputs, Empty(events[0].item), events[1]);
    StopWrites(p2, outputs, o);
    InThree(past, events);
  }

  lemma InThree(past: seq<Event>, events: seq<Event>)
    requires |events| == 3
    ensures past + events == past + [events[0]] + [events[1]] + [events[2]]
  {
  }

  /** An item is written as its start, one delta that fills it, and its stop. */
  lemma ItemParts(o: Output)
    ensures var events := ItemEvents(o);
            && |events| == 3 && events[0].ItemStart? && events[2] == ItemStop
            && (if Empty(events[0].item).Message? then events[1].TextDelta? else events[1].ArgumentsDelta?)
            && Extend(Empty(events[0].item), events[1]) == o
  {
    assert o.Message? ==> "" + o.text == o.text;
    assert o.FunctionCall? ==> "" + o.arguments == o.arguments;
  }

  lemma {:induction false} WriteAll(past: seq<Event>, before: seq<Output>, outputs: seq<Output>)
    requires Between(past, before)
    ensures Between(past + EventsForOutputs(outputs), before + outputs)
    decreases outputs
  {
    if outputs == [] {
      assert past + [] == past && before + [] == before;
    } else {
      var o, rest := outputs[0], outputs[1..];
      Assoc(past, ItemEvents(o), EventsForOutputs(rest));
      Assoc(before, [o], rest);
      assert [o] + rest == outputs;
      WriteItem(past, before, o);
      WriteAll(past + ItemEvents(o), before + [o], rest);
    }
  }

  lemma Opening(model: string, id: Option<string>)
    ensures Between([ResponseCreated(model, id)], [])
  {
    var start := ResponseCreated(model, id);
    Snoc([], start);
    assert [] + [start] == [start];
  }

  /** Close a written script with its terminal event. */
  lemma Finish(past: seq<Event>, outputs: seq<Output>, last: Event)
    requires Between(past, outputs) && last.ResponseDone?
    ensures Complete(past + [last])
    ensures Described(past + [last]) == ResponseResult(
              past[0].id, past[0].model, last.status, last.incompleteReason, last.error, outputs, last.usage)
  {
    Snoc(past, last);
  }

  lemma ExpandedDescribes(r: ResponseResult)
    ensures Complete(EventsForResult(r)) && Described(EventsForResult(r)) == r
  {
    var start := [ResponseCreated(r.model, r.id)];
    Opening(r.model, r.id);
    WriteAll(start, [], r.outputs);
    assert [] + r.outputs == r.outputs;
    Finish(start + EventsForOutputs(r.outputs), r.outputs,
           ResponseDone(r.status, r.usage, r.incompleteReason, r.error));
  }

  /** Streaming a completed result ends in the very object the non-streaming path builds from it. */
  lemma ExpandedSnapshot(r: ResponseResult, deps: Deps)
    ensures EncodeStream(EventsForResult(r), deps).Ok? && EncodeStream(EventsForResult(r), deps).value != []
    ensures var records := EncodeStream(EventsForResult(r), deps).value;
            Response(records[|records| - 1]) == Some(BuildResponsesObject(r, deps))
  {
    ExpandedDescribes(r);
    TerminalSnapshot(EventsForResult(r), deps);
  }
}
