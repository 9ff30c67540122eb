/**
 * What a client reads out of a Responses object: its id, model, status, output items, usage and text, found by
 * the property names and values of the Responses wire format alone.
 */
module ResponsesReading {
  import opened Base
  import opened Json
  import opened ResponsesStream

  /** An output item and the id it carries. */
  datatype Item = Item(id: string, output: Output)

  /** A response as a client sees it. */
  datatype Answer = Answer(id: string, model: string, createdAt: int, status: Status,
                           incompleteReason: Option<string>, error: Option<Fault>, items: seq<Item>,
                           text: string, usage: Option<Usage>)

  // ----- The reader -----

  function ReadStatus(text: string): Option<Status> {
    if text == "in_progress" then Some(InProgress)
    else if text == "completed" then Some(Completed)
    else if text == "failed" then Some(Failed)
    else if text == "incomplete" then Some(Incomplete)
    else None
  }

  /** The text of a message item: it has exactly one part, of output text. */
  function ReadContent(content: Option<Json>): Option<string> {
    if content.Some? && content.value.Arr? && |content.value.items| == 1 then
      var part := Some(content.value.items[0]);
      if StrProp(part, "type") == Some("output_text") && Prop(part, "annotations") == Some(Arr([]))
      then StrProp(part, "text") else None
    else None
  }

  function ReadOutput(item: Option<Json>): Option<Output> {
    var kind := StrProp(item, "type");
    if kind == Some("message") then
      var text := ReadContent(Prop(item, "content"));
      if StrProp(item, "role") == Some("assistant") && text.Some? then Some(Message(text.value)) else None
    else if kind == Some("function_call") then
      var callId, name, arguments := StrProp(item, "call_id"), StrProp(item, "name"), StrProp(item, "arguments");
      if callId.Some? && name.Some? && arguments.Some?
      then Some(FunctionCall(callId.value, name.value, arguments.value)) else None
    else None
  }

  /** A completed output item. */
  function ReadItem(item: Option<Json>): Option<Item> {
    var id, output := StrProp(item, "id"), ReadOutput(item);
    if StrProp(item, "status") == Some("completed") && id.Some? && output.Some?
    then Some(Item(id.value, output.value)) else None
  }

  function ReadItems(items: seq<Json>): Option<seq<Item>> {
    if items == [] then Some([])
    else
      var first, rest := ReadItem(Some(items[0])), ReadItems(items[1..]);
      if first.Some? && rest.Some? then Some([first.value] + rest.value) else None
  }

  /** The usage block; the total must be the sum. */
  function ReadUsage(usage: Option<Json>): Option<Usage> {
    var input, output := NumProp(usage, "input_tokens"), NumProp(usage, "output_tokens");
    var cached := NumProp(Prop(usage, "input_tokens_details"), "cached_tokens");
    var reasoning := NumProp(Prop(usage, "output_tokens_details"), "reasoning_tokens");
    if input.Some? && output.Some? && NumProp(usage, "total_tokens") == Some(input.value + output.value)
    then Some(Usage(input.value, output.value, cached, reasoning)) else None
  }

  function ReadError(error: Option<Json>): Option<Fault> {
    var message := StrProp(error, "message");
    if message.Some? then Some(Fault(StrProp(error, "code"), message.value)) else None
  }

  function ReadResponse(response: Json): Option<Answer> {
    var r := Some(response);
    var id, model, createdAt := StrProp(r, "id"), StrProp(r, "model"), NumProp(r, "created_at");
    var status := StrProp(r, "status");
    var output, text := Prop(r, "output"), StrProp(r, "output_text");
    if || StrProp(r, "object") != Some("response") || id.None? || model.None? || createdAt.None? || status.None?
       || ReadStatus(status.value).None? || text.None? || output.None? || !output.value.Arr?
       || ReadItems(output.value.items).None?
    then None
    else
      Some(Answer(id.value, model.value, createdAt.value, ReadStatus(status.value).value,
                  StrProp(Prop(r, "incomplete_details"), "reason"), ReadError(Prop(r, "error")),
                  ReadItems(output.value.items).value, text.value, ReadUsage(Prop(r, "usage"))))
  }

  // ----- What the object of a result says -----

  /** The items of some outputs, their ids drawn in order from the `n`th on. */
  function ItemsFor(outputs: seq<Output>, ids: nat -> string, n: nat): seq<Item> {
    if outputs == [] then []
    else [Item((if outputs[0].Message? then "msg_" else "fc_") + StripDashes(ids(n)), outputs[0])]
         + ItemsFor(outputs[1..], ids, n + 1)
  }

  function TextFor(outputs: seq<Output>): string {
    if outputs == [] then ""
    else if outputs[0].Message? then outputs[0].text + TextFor(outputs[1..])
    else TextFor(outputs[1..])
  }

  /** What a client is to read of a result. */
  function AnswerFor(r: ResponseResult, deps: Deps): Answer {
    Answer(if r.id.Some? then r.id.value else "resp_" + StripDashes(deps.ids(0)), r.model, deps.createdAt, r.status,
           if r.status != Incomplete then None
           else Some(if r.incompleteReason.Some? then r.incompleteReason.value else "max_output_tokens"),
           if r.status != Failed then None
           else if r.error.None? then Some(Fault(Some("server_error"), "Response failed"))
           else Some(Fault(Some(if r.error.value.code.Some? then r.error.value.code.value else "server_error"),
                           r.error.value.message)),
           ItemsFor(r.outputs, deps.ids, if r.id.Some? then 0 else 1), TextFor(r.outputs),
           if r.usage.None? then None
           else Some(Usage(r.usage.value.input, r.usage.value.output,
                           Some(if r.usage.value.cached.Some? then r.usage.value.cached.value else 0),
                           Some(if r.usage.value.reasoning.Some? then r.usage.value.reasoning.value else 0))))
  }

  lemma ItemReads(o: Output, id: string)
    ensures ReadItem(Some(RenderItem(o, id))) == Some(Item(id, o))
  {
    var item := Some(RenderItem(o, id));
    assert StrProp(item, "id") == Some(id) && StrProp(item, "status") == Some("completed");
    if o.Message? {
      var part := Some(TextPart(o.text));
      assert Prop(item, "content") == Some(Arr([part.value])) && StrProp(item, "role") == Some("assistant");
      assert StrProp(part, "text") == Some(o.text);
    } else {
      assert StrProp(item, "call_id") == Some(o.callId) && StrProp(item, "name") == Some(o.name);
      assert StrProp(item, "arguments") == Some(o.arguments);
    }
  }

  lemma {:induction false} ItemsRead(outputs: seq<Output>, deps: Deps, n: nat)
    ensures ReadItems(RenderItems(outputs, deps, n)) == Some(ItemsFor(outputs, deps.ids, n))
  {
    if outputs != [] {
      var id := ItemId(outputs[0], deps, n);
      assert "msg" + "_" == "msg_" && "fc" + "_" == "fc_";
      ItemReads(outputs[0], id);
      ItemsRead(outputs[1..], deps, n + 1);
      assert RenderItems(outputs, deps, n)[1..] == RenderItems(outputs[1..], deps, n + 1);
    }
  }

  lemma UsageReads(u: Usage)
    ensures ReadUsage(Some(RenderUsage(u))) == Some(Usage(u.input, u.output, Some(u.cached.GetOr(0)),
                                                          Some(u.reasoning.GetOr(0))))
  {
    var usage := Some(RenderUsage(u));
    assert NumProp(usage, "input_tokens") == Some(u.input) && NumProp(usage, "output_tokens") == Some(u.output);
  }

  lemma {:induction false} TextJoins(outputs: seq<Output>)
    ensures OutputText(outputs) == TextFor(outputs)
  {
    if outputs != [] {
      TextJoins(outputs[1..]);
    }
  }

  /** Joining fields of other names changes no property. */
  lemma OtherFields(fields: map<string, Json>, more: map<string, Json>, key: string)
    requires key !in more
    ensures Prop(Some(Obj(fields + more)), key) == Prop(Some(Obj(fields)), key)
  {
  }

  /** A property of the response itself is found among the echoed ones. */
  lemma OwnField(id: string, r: ResponseResult, items: seq<Json>, deps: Deps, key: string)
    requires key !in EchoFields(deps.echo) && key != "usage"
    ensures Prop(Some(Envelope(id, r, items, deps)), key) ==
            Prop(Some(Obj(OwnFields(id, r, items, deps.createdAt))), key)
  {
    var own, echoed := OwnFields(id, r, items, deps.createdAt), EchoFields(deps.echo);
    OtherFields(own + echoed, if r.usage.Some? then map["usage" := RenderUsage(r.usage.value)] else map[], key);
    OtherFields(own, echoed, key);
  }

  lemma IdNotEchoed(echo: map<string, Json>)
    ensures "id" !in EchoFields(echo) && "id" != "usage"
  {
  }

  lemma ObjectNotEchoed(echo: map<string, Json>)
    ensures "object" !in EchoFields(echo) && "object" != "usage"
  {
  }

  lemma IdReads(id: string, r: ResponseResult, items: seq<Json>, deps: Deps)
    ensures StrProp(Some(Envelope(id, r, items, deps)), "id") == Some(id)
  {
    IdNotEchoed(deps.echo);
    OwnField(id, r, items, deps, "id");
  }

  lemma KindReads(id: string, r: ResponseResult, items: seq<Json>, deps: Deps)
    ensures StrProp(Some(Envelope(id, r, items, deps)), "object") == Some("response")
  {
    ObjectNotEchoed(deps.echo);
    OwnField(id, r, items, deps, "object");
  }

  lemma TimeReads(id: string, r: ResponseResult, items: seq<Json>, deps: Deps)
    ensures NumProp(Some(Envelope(id, r, items, deps)), "created_at") == Some(deps.createdAt)
  {
    OwnField(id, r, items, deps, "created_at");
  }

  lemma ModelReads(id: string, r: ResponseResult, items: seq<Json>, deps: Deps)
    ensures StrProp(Some(Envelope(id, r, items, deps)), "model") == Some(r.model)
  {
    OwnField(id, r, items, deps, "model");
  }

  lemma StatusReads(id: string, r: ResponseResult, items: seq<Json>, deps: Deps)
    ensures StrProp(Some(Envelope(id, r, items, deps)), "status") == Some(StatusText(r.status))
  {
    OwnField(id, r, items, deps, "status");
  }

  lemma StatusTextReads(status: Status)
    ensures ReadStatus(StatusText(status)) == Some(status)
  {
  }

  lemma OutputReads(id: string, r: ResponseResult, items: seq<Json>, deps: Deps)
    ensures Prop(Some(Envelope(id, r, items, deps)), "output") == Some(Arr(items))
  {
    OwnField(id, r, items, deps, "output");
  }

  lemma TextReads(id: string, r: ResponseResult, items: seq<Json>, deps: Deps)
    ensures StrProp(Some(Envelope(id, r, items, deps)), "output_text") == Some(TextFor(r.outputs))
  {
    OwnField(id, r, items, deps, "output_text");
    TextJoins(r.outputs);
  }

  lemma DetailsRead(r: ResponseResult, deps: Deps)
    ensures StrProp(Some(DetailsJson(r)), "reason") == AnswerFor(r, deps).incompleteReason
    ensures ReadError(Some(ErrorJson(r))) == AnswerFor(r, deps).error
  {
  }

  lemma ReasonReads(id: string, r: ResponseResult, items: seq<Json>, deps: Deps)
    ensures StrProp(Prop(Some(Envelope(id, r, items, deps)), "incomplete_details"), "reason") ==
            AnswerFor(r, deps).incompleteReason
  {
    OwnField(id, r, items, deps, "incomplete_details");
    DetailsRead(r, deps);
    assert Prop(Some(Obj(OwnFields(id, r, items, deps.createdAt))), "incomplete_details") == Some(DetailsJson(r));
  }

  lemma ErrorReads(id: string, r: ResponseResult, items: seq<Json>, deps: Deps)
    ensures ReadError(Prop(Some(Envelope(id, r, items, deps)), "error")) == AnswerFor(r, deps).error
  {
    OwnField(id, r, items, deps, "error");
    DetailsRead(r, deps);
    assert Prop(Some(Obj(OwnFields(id, r, items, deps.createdAt))), "error") == Some(ErrorJson(r));
  }

  lemma UsageNotOwn(id: string, r: ResponseResult, items: seq<Json>, createdAt: int)
    ensures "usage" !in OwnFields(id, r, items, createdAt)
  {
  }

  lemma UsageNotEchoed(echo: map<string, Json>)
    ensures "usage" !in EchoFields(echo)
  {
  }

  lemma UsageFieldReads(id: string, r: ResponseResult, items: seq<Json>, deps: Deps)
    ensures ReadUsage(Prop(Some(Envelope(id, r, items, deps)), "usage")) == AnswerFor(r, deps).usage
  {
    if r.usage.Some? {
      UsageReads(r.usage.value);
      assert Prop(Some(Envelope(id, r, items, deps)), "usage") == Some(RenderUsage(r.usage.value));
    } else {
      UsageNotOwn(id, r, items, deps.createdAt);
      UsageNotEchoed(deps.echo);
    }
  }

  /** A client reads out of an envelope what was put in. */
  lemma EnvelopeReads(id: string, r: ResponseResult, items: seq<Json>, deps: Deps, read: seq<Item>)
    requires ReadItems(items) == Some(read)
    ensures ReadResponse(Envelope(id, r, items, deps)) == Some(AnswerFor(r, deps).(id := id, items := read))
  {
    IdReads(id, r, items, deps);
    KindReads(id, r, items, deps);
    TimeReads(id, r, items, deps);
    ModelReads(id, r, items, deps);
    StatusReads(id, r, items, deps);
    StatusTextReads(r.status);
    OutputReads(id, r, items, deps);
    TextReads(id, r, items, deps);
    ReasonReads(id, r, items, deps);
    ErrorReads(id, r, items, deps);
    UsageFieldReads(id, r, items, deps);
  }

  /** Reading the object built from a result gives the result back, with its defaults filled in. */
  lemma ObjectReads(r: ResponseResult, deps: Deps)
    ensures ReadResponse(BuildResponsesObject(r, deps)) == Some(AnswerFor(r, deps))
  {
    ItemsRead(r.outputs, deps, OwnIds(r.id));
    assert "resp" + "_" == "resp_";
    EnvelopeReads(ResponseId(r.id, deps), r, RenderItems(r.outputs, deps, OwnIds(r.id)), deps,
                  AnswerFor(r, deps).items);
  }

  /** The name of the record that ends a stream, by the status it ends with. */
  predicate EndsAs(name: string, status: Status) {
    match status
    case Completed => name == "response.completed"
    case Failed => name == "response.failed"
    case Incomplete | InProgress => name == "response.incomplete"
  }

  /** The last record of any accepted stream is named by its status and read as the result its script describes. */
  lemma TerminalReads(script: seq<Event>, deps: Deps)
    requires Complete(script)
    ensures EncodeStream(script, deps).Ok? && EncodeStream(script, deps).value != []
    ensures var records := EncodeStream(script, deps).value;
            var last := records[|records| - 1];
            && last.Named? && EndsAs(last.name, Described(script).status)
            && Prop(Some(last.data), "response").Some?
            && ReadResponse(Prop(Some(last.data), "response").value) == Some(AnswerFor(Described(script), deps))
  {
    TerminalSnapshot(script, deps);
    ObjectReads(Described(script), deps);
  }

  // ----- The echoed request fields and the generated ids -----

  /** A request field, unless it is missing or null. */
  function Asked(deps: Deps, key: string, default: Json): Option<Json> {
    Some(if key in deps.echo && deps.echo[key] != Null then deps.echo[key] else default)
  }

  lemma EchoField(id: string, r: ResponseResult, items: seq<Json>, deps: Deps, key: string)
    requires key in EchoFields(deps.echo) && key != "usage"
    ensures Prop(Some(Envelope(id, r, items, deps)), key) == Some(EchoFields(deps.echo)[key])
  {
  }

  lemma LimitsEchoed(id: string, r: ResponseResult, items: seq<Json>, deps: Deps)
    ensures var e := Some(Envelope(id, r, items, deps));
            && Prop(e, "instructions") == Asked(deps, "instructions", Null)
            && Prop(e, "max_output_tokens") == Asked(deps, "maxOutputTokens", Null)
  {
    EchoField(id, r, items, deps, "instructions");
    EchoField(id, r, items, deps, "max_output_tokens");
  }

  lemma ToolsEchoed(id: string, r: ResponseResult, items: seq<Json>, deps: Deps)
    ensures var e := Some(Envelope(id, r, items, deps));
            && Prop(e, "tools") == Asked(deps, "tools", Arr([]))
            && Prop(e, "tool_choice") == Asked(deps, "toolChoice", Str("auto"))
            && Prop(e, "parallel_tool_calls") == Asked(deps, "parallelToolCalls", Bool(true))
  {
    EchoField(id, r, items, deps, "tools");
    EchoField(id, r, items, deps, "tool_choice");
    EchoField(id, r, items, deps, "parallel_tool_calls");
  }

  lemma SamplingEchoed(id: string, r: ResponseResult, items: seq<Json>, deps: Deps)
    ensures var e := Some(Envelope(id, r, items, deps));
            && Prop(e, "temperature") == Asked(deps, "temperature", Null)
            && Prop(e, "top_p") == Asked(deps, "topP", Null)
  {
    EchoField(id, r, items, deps, "temperature");
    EchoField(id, r, items, deps, "top_p");
  }

  lemma OthersEchoed(id: string, r: ResponseResult, items: seq<Json>, deps: Deps)
    ensures var e := Some(Envelope(id, r, items, deps));
            && Prop(e, "reasoning") == Asked(deps, "reasoning", Obj(map["effort" := Null, "summary" := Null]))
            && Prop(e, "metadata") == Asked(deps, "metadata", Obj(map[]))
  {
    EchoField(id, r, items, deps, "reasoning");
    EchoField(id, r, items, deps, "metadata");
  }

  /** A generated id keeps every character of its source in order, but for the dashes. */
  lemma DashesStripped(a: string, b: string)
    ensures StripDashes(a + b) == StripDashes(a) + StripDashes(b)
    ensures '-' !in StripDashes(a)
    ensures '-' !in a ==> StripDashes(a) == a
  {
    StripJoins(a, b);
    StripsDashes(a);
  }

  lemma {:induction false} StripJoins(a: string, b: string)
    ensures StripDashes(a + b) == StripDashes(a) + StripDashes(b)
  {
    if a == "" {
      AppendNone(b);
    } else {
      var first := if a[0] == '-' then "" else [a[0]];
      HeadFirst(a, b);
      StripJoins(a[1..], b);
      Assoc(first, StripDashes(a[1..]), StripDashes(b));
    }
  }

  lemma {:induction false} StripsDashes(a: string)
    ensures '-' !in StripDashes(a)
    ensures '-' !in a ==> StripDashes(a) == a
  {
    if a != "" {
      StripsDashes(a[1..]);
      assert a == [a[0]] + a[1..];
    }
  }
}
