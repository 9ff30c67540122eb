/**
 * The chunks a Chat Completions upstream may send, whichever fields they carry, and what the decoder makes of
 * them.
 */
module ChatUpstream {
  import opened Base
  import opened Json
  import opened SseRecords
  import opened ChatStream

  /** One entry of a chunk's `tool_calls`: any of its fields may be missing. */
  datatype Fragment = Fragment(index: Option<int>, id: Option<string>, name: Option<string>, arguments: Option<string>)

  /** A chunk with one choice; any of its fields may be missing. */
  datatype Sent = Sent(id: Option<string>, model: Option<string>, role: Option<string>,
                       reasoningContent: Option<string>, reasoning: Option<string>, content: Option<string>,
                       calls: seq<Fragment>, finish: Option<string>, usage: Option<Usage>)

  function StrField(key: string, value: Option<string>): map<string, Json> {
    if value.Some? then map[key := Str(value.value)] else map[]
  }

  function NumField(key: string, value: Option<int>): map<string, Json> {
    if value.Some? then map[key := Num(value.value)] else map[]
  }

  /** A field holding an object, when the object has anything in it. */
  function ObjField(key: string, fields: map<string, Json>): map<string, Json> {
    if fields == map[] then map[] else map[key := Obj(fields)]
  }

  function FragmentJson(f: Fragment): Json {
    Obj(NumField("index", f.index) + StrField("id", f.id)
        + map["type" := Str("function"),
              "function" := Obj(StrField("name", f.name) + StrField("arguments", f.arguments))])
  }

  function FragmentsJson(calls: seq<Fragment>): seq<Json> {
    if calls == [] then [] else [FragmentJson(calls[0])] + FragmentsJson(calls[1..])
  }

  function SentUsage(u: Usage): Json {
    Obj(map["prompt_tokens" := Num(u.prompt), "completion_tokens" := Num(u.completion)]
        + ObjField("prompt_tokens_details", NumField("cached_tokens", u.cached))
        + ObjField("completion_tokens_details", NumField("reasoning_tokens", u.reasoning)))
  }

  function DeltaOf(role: Option<string>, reasoningContent: Option<string>, reasoning: Option<string>,
                   content: Option<string>, calls: seq<Json>): Json {
    Obj(StrField("role", role) + StrField("reasoning_content", reasoningContent) + StrField("reasoning", reasoning)
        + StrField("content", content) + map["tool_calls" := Arr(calls)])
  }

  function SentDelta(c: Sent): Json {
    DeltaOf(c.role, c.reasoningContent, c.reasoning, c.content, FragmentsJson(c.calls))
  }

  function SentChoice(c: Sent): Json {
    Obj(map["index" := Num(0), "delta" := SentDelta(c)] + StrField("finish_reason", c.finish))
  }

  function ChunkOf(id: Option<string>, model: Option<string>, choice: Json, usage: Option<Json>): Json {
    Obj(StrField("id", id) + StrField("model", model) + map["choices" := Arr([choice])]
        + if usage.Some? then map["usage" := usage.value] else map[])
  }

  function SentJson(c: Sent): Json {
    ChunkOf(c.id, c.model, SentChoice(c), if c.usage.Some? then Some(SentUsage(c.usage.value)) else None)
  }

  // ----- What they say -----

  /** A fragment with an id or a name opens its call; arguments that are not empty extend it, in that order. */
  function FragmentSays(f: Fragment): seq<Upstream> {
    var index := if f.index.Some? then f.index.value else 0;
    (if f.id.Some? || f.name.Some?
     then [UpToolCallStart(index, if f.id.Some? then f.id.value else "", if f.name.Some? then f.name.value else "")]
     else [])
    + (if f.arguments.Some? && f.arguments.value != "" then [UpToolArgs(index, f.arguments.value)] else [])
  }

  function FragmentsSay(calls: seq<Fragment>): seq<Upstream> {
    if calls == [] then [] else FragmentSays(calls[0]) + FragmentsSay(calls[1..])
  }

  /** The reasoning a chunk carries: `reasoning_content` hides `reasoning`, even when it is empty. */
  function ReasoningOf(c: Sent): string {
    if c.reasoningContent.Some? then c.reasoningContent.value
    else if c.reasoning.Some? then c.reasoning.value
    else ""
  }

  function SentSays(c: Sent): seq<Upstream> {
    (if c.role.Some? then [UpStart(c.id, c.model)] else [])
    + (if ReasoningOf(c) != "" then [UpReasoning(ReasoningOf(c))] else [])
    + (if c.content.Some? && c.content.value != "" then [UpText(c.content.value)] else [])
    + FragmentsSay(c.calls)
    + (if c.finish.Some? then [UpFinish(c.finish)] else [])
    + (if c.usage.Some? then [UpUsage(c.usage.value)] else [])
  }

  lemma FragmentReads(f: Fragment)
    ensures DecodeCall(FragmentJson(f)) == FragmentSays(f)
  {
    var entry := Some(FragmentJson(f));
    assert NumProp(entry, "index") == f.index && StrProp(entry, "id") == f.id;
    var fn := Prop(entry, "function");
    assert StrProp(fn, "name") == f.name && StrProp(fn, "arguments") == f.arguments;
  }

  lemma {:induction false} FragmentsRead(calls: seq<Fragment>)
    ensures DecodeCalls(FragmentsJson(calls)) == FragmentsSay(calls)
  {
    if calls != [] {
      FragmentReads(calls[0]);
      FragmentsRead(calls[1..]);
      assert FragmentsJson(calls)[1..] == FragmentsJson(calls[1..]);
    }
  }

  lemma DetailReads(outer: string, key: string, value: Option<int>, fields: map<string, Json>)
    requires outer !in fields
    ensures NumProp(Prop(Some(Obj(fields + ObjField(outer, NumField(key, value)))), outer), key) == value
  {
    if value.Some? {
      assert key in NumField(key, value);
    }
  }

  lemma UsageSentReads(u: Usage)
    ensures DecodeUsage(Some(SentUsage(u))) == Some(u)
  {
    var counts := map["prompt_tokens" := Num(u.prompt), "completion_tokens" := Num(u.completion)];
    var cached := counts + ObjField("prompt_tokens_details", NumField("cached_tokens", u.cached));
    var usage := Some(SentUsage(u));
    DetailReads("prompt_tokens_details", "cached_tokens", u.cached, counts);
    DetailReads("completion_tokens_details", "reasoning_tokens", u.reasoning, cached);
    assert Prop(usage, "prompt_tokens_details") == Prop(Some(Obj(cached)), "prompt_tokens_details");
    assert NumProp(usage, "prompt_tokens") == Some(u.prompt);
    assert NumProp(usage, "completion_tokens") == Some(u.completion);
  }

  /** Joining fields of other names changes no property. */
  lemma OtherFields(fields: map<string, Json>, more: map<string, Json>, key: string)
    requires key !in more
    ensures Prop(Some(Obj(fields + more)), key) == Prop(Some(Obj(fields)), key)
  {
  }

  lemma DeltaFields(role: Option<string>, reasoningContent: Option<string>, reasoning: Option<string>,
                    content: Option<string>, calls: seq<Json>)
    ensures var delta := Some(DeltaOf(role, reasoningContent, reasoning, content, calls));
            && StrProp(delta, "role") == role && StrProp(delta, "reasoning_content") == reasoningContent
            && StrProp(delta, "reasoning") == reasoning && StrProp(delta, "content") == content
            && Prop(delta, "tool_calls") == Some(Arr(calls))
  {
    var first := StrField("role", role) + StrField("reasoning_content", reasoningContent);
    var second := first + StrField("reasoning", reasoning);
    var third := second + StrField("content", content);
    var last := map["tool_calls" := Arr(calls)];
    OtherFields(third, last, "role");
    OtherFields(second, StrField("content", content), "role");
    OtherFields(first, StrField("reasoning", reasoning), "role");
    OtherFields(third, last, "reasoning_content");
    OtherFields(second, StrField("content", content), "reasoning_content");
    OtherFields(first, StrField("reasoning", reasoning), "reasoning_content");
    OtherFields(third, last, "reasoning");
    OtherFields(second, StrField("content", content), "reasoning");
    OtherFields(third, last, "content");
  }

  lemma ChoiceFields(c: Sent)
    ensures Prop(Some(SentChoice(c)), "delta") == Some(SentDelta(c))
    ensures StrProp(Some(SentChoice(c)), "finish_reason") == c.finish
  {
  }

  lemma ChunkFields(id: Option<string>, model: Option<string>, choice: Json, usage: Option<Json>)
    ensures var data := Some(ChunkOf(id, model, choice, usage));
            && StrProp(data, "id") == id && StrProp(data, "model") == model
            && Prop(data, "choices") == Some(Arr([choice])) && Prop(data, "usage") == usage
  {
  }

  /** What a choice decodes to, given what its properties are. */
  lemma ChoiceSays(c: Sent, choice: Option<Json>, delta: Option<Json>, data: Json, calls: seq<Json>)
    requires StrProp(Some(data), "id") == c.id && StrProp(Some(data), "model") == c.model
    requires Prop(choice, "delta") == delta && StrProp(choice, "finish_reason") == c.finish
    requires StrProp(delta, "role") == c.role && StrProp(delta, "reasoning_content") == c.reasoningContent
    requires StrProp(delta, "reasoning") == c.reasoning && StrProp(delta, "content") == c.content
    requires Prop(delta, "tool_calls") == Some(Arr(calls)) && DecodeCalls(calls) == FragmentsSay(c.calls)
    ensures DecodeChoice(choice, data) + [] == SentSays(c.(usage := None))
  {
  }

  lemma ChoiceReads(c: Sent, data: Json)
    requires StrProp(Some(data), "id") == c.id && StrProp(Some(data), "model") == c.model
    ensures DecodeChoice(Some(SentChoice(c)), data) == SentSays(c.(usage := None))
  {
    var choice, delta := Some(SentChoice(c)), Some(SentDelta(c));
    DeltaFields(c.role, c.reasoningContent, c.reasoning, c.content, FragmentsJson(c.calls));
    ChoiceFields(c);
    FragmentsRead(c.calls);
    ChoiceSays(c, choice, delta, data, FragmentsJson(c.calls));
    AppendNone(DecodeChoice(choice, data));
  }

  lemma UsageLast(c: Sent)
    ensures SentSays(c) == SentSays(c.(usage := None)) + if c.usage.Some? then [UpUsage(c.usage.value)] else []
  {
    AppendNone(SentSays(c.(usage := None)));
  }

  /** What a record decodes to, given what its properties are. */
  lemma RecordSays(event: string, data: Json, choice: Json, usage: Option<Json>)
    requires event != "done" && data.Obj? && Prop(Some(data), "choices") == Some(Arr([choice]))
    requires Prop(Some(data), "usage") == usage
    ensures Decode(StreamEvent(event, data)) ==
            DecodeChoice(Some(choice), data)
            + if DecodeUsage(usage).Some? then [UpUsage(DecodeUsage(usage).value)] else []
  {
  }

  /** Whatever fields a chunk carries, all of them and nothing else are decoded, in this order. */
  lemma ChunkSays(c: Sent, event: string)
    requires event != "done"
    ensures Decode(StreamEvent(event, SentJson(c))) == SentSays(c)
  {
    var data, usage := SentJson(c), if c.usage.Some? then Some(SentUsage(c.usage.value)) else None;
    ChunkFields(c.id, c.model, SentChoice(c), usage);
    ChoiceReads(c, data);
    RecordSays(event, data, SentChoice(c), usage);
    UsageLast(c);
    if c.usage.Some? {
      UsageSentReads(c.usage.value);
    }
  }

  /** The terminator ends the stream under either spelling, and data that is no object says nothing. */
  lemma OthersSay(event: string, data: Json)
    ensures event == "done" || data == Str("[DONE]") ==> Decode(StreamEvent(event, data)) == [UpDone]
    ensures event != "done" && data != Str("[DONE]") && !data.Obj? ==> Decode(StreamEvent(event, data)) == []
  {
  }

  // ----- What the encoder writes on every chunk -----

  /** A chunk of this completion: its id, creation time and model, and at most the one choice numbered 0. */
  predicate Stamped(r: Record, id: string, created: int, model: string) {
    r.Terminator? ||
    (r.Bare? && r.data.Obj?
     && StrProp(Some(r.data), "id") == Some(id) && StrProp(Some(r.data), "object") == Some("chat.completion.chunk")
     && NumProp(Some(r.data), "created") == Some(created) && StrProp(Some(r.data), "model") == Some(model)
     && var choices := Prop(Some(r.data), "choices");
        && choices.Some? && choices.value.Arr? && |choices.value.items| <= 1
        && forall c :: c in choices.value.items ==> NumProp(Some(c), "index") == Some(0))
  }

  lemma RecordsStamped(e: Event, stamp: Stamp)
    ensures forall r :: r in RecordsOf(e, stamp) ==> Stamped(r, stamp.id, stamp.created, stamp.model)
  {
  }

  lemma {:induction false} RunStamped(s: EncoderState, script: seq<Event>)
    requires s.started && Run(Step, s, script).Ok?
    ensures forall r :: r in Run(Step, s, script).value.out ==>
              Stamped(r, s.stamp.id, s.stamp.created, s.stamp.model)
    decreases script
  {
    if script != [] {
      var s1 := After(s, script[0]);
      assert Step(s, script[0]) == Ok(Emit(s1, RecordsOf(script[0], s1.stamp)));
      RecordsStamped(script[0], s1.stamp);
      RunStamped(s1, script[1..]);
    }
  }

  /** Every chunk of a transcript carries the id and model of the script's start and the one creation time. */
  lemma EveryChunkStamped(script: seq<Event>, freshId: string, nowSec: int)
    requires EncodeStream(script, freshId, nowSec).Ok?
    ensures script != [] && script[0].Start?
    ensures forall r :: r in EncodeStream(script, freshId, nowSec).value ==>
              Stamped(r, if script[0].id.Some? then script[0].id.value else freshId, nowSec, script[0].model)
  {
    AcceptedIffInOrder(script, freshId, nowSec);
    assert InOrder(script, 0);
    var s0, e := Initial(freshId, nowSec), script[0];
    var s1 := After(s0, e);
    assert Step(s0, e) == Ok(Emit(s1, RecordsOf(e, s1.stamp)));
    RecordsStamped(e, s1.stamp);
    RunStamped(s1, script[1..]);
  }
}
