/**
 * The Chat Completions stream: the chunk encoder, the upstream decoder, and the
 * proof that the decoder reads back what the encoder wrote.
 */
module ChatStream {
  import opened Base
  import opened Json
  import opened SseRecords

  datatype Usage = Usage(prompt: int, completion: int, cached: Option<int>, reasoning: Option<int>)

  /** A canonical chat stream event, as the encoder takes it. */
  datatype Event =
    | Start(model: string, id: Option<string>)
    | Text(text: string)
    | ToolCallStart(index: int, callId: string, name: string)
    | ToolArgs(index: int, delta: string)
    | Finish(reason: string, usage: Option<Usage>)

  datatype Error = AfterDone | StartedTwice | BeforeStart | AfterFinish | NotFinished

  // ----- The wire payloads -----

  /** The fields repeated on every chunk of one completion. */
  datatype Stamp = Stamp(id: string, created: int, model: string)

  function ChunkWith(stamp: Stamp, choices: seq<Json>): map<string, Json> {
    map["id" := Str(stamp.id), "object" := Str("chat.completion.chunk"), "created" := Num(stamp.created),
        "model" := Str(stamp.model), "choices" := Arr(choices)]
  }

  function Chunk(stamp: Stamp, delta: Json, finish: Json): Record {
    Bare(Obj(ChunkWith(stamp, [Obj(map["index" := Num(0), "delta" := delta, "finish_reason" := finish])])))
  }

  function UsageJson(u: Usage): Json {
    Obj(map["prompt_tokens" := Num(u.prompt), "completion_tokens" := Num(u.completion),
            "total_tokens" := Num(u.prompt + u.completion)]
        + (if u.cached.Some? then map["prompt_tokens_details" := Obj(map["cached_tokens" := Num(u.cached.value)])]
           else map[])
        + (if u.reasoning.Some?
           then map["completion_tokens_details" := Obj(map["reasoning_tokens" := Num(u.reasoning.value)])]
           else map[]))
  }

  function StartedCall(index: int, id: string, name: string): Json {
    Obj(map["index" := Num(index), "id" := Str(id), "type" := Str("function"),
            "function" := Obj(map["name" := Str(name), "arguments" := Str("")])])
  }

  function MoreArguments(index: int, delta: string): Json {
    Obj(map["index" := Num(index), "function" := Obj(map["arguments" := Str(delta)])])
  }

  function UsageTrailer(stamp: Stamp, usage: Usage): Record {
    Bare(Obj(ChunkWith(stamp, [])["usage" := UsageJson(usage)]))
  }

  function RecordsOf(e: Event, stamp: Stamp): seq<Record> {
    match e
    case Start(_, _) => [Chunk(stamp, Obj(map["role" := Str("assistant")]), Null)]
    case Text(text) => [Chunk(stamp, Obj(map["content" := Str(text)]), Null)]
    case ToolCallStart(index, id, name) =>
      [Chunk(stamp, Obj(map["tool_calls" := Arr([StartedCall(index, id, name)])]), Null)]
    case ToolArgs(index, delta) =>
      [Chunk(stamp, Obj(map["tool_calls" := Arr([MoreArguments(index, delta)])]), Null)]
    case Finish(reason, usage) =>
      [Chunk(stamp, Obj(map[]), Str(reason))]
      + (if usage.Some? then [UsageTrailer(stamp, usage.value)] else [])
      + [Terminator]
  }

  // ----- The encoder -----

  /** `freshId` and `nowSec` are what the id generator and the clock answer if asked. */
  datatype EncoderState = EncoderState(started: bool, finished: bool, done: bool, stamp: Stamp,
                                       freshId: string, nowSec: int)

  function Initial(freshId: string, nowSec: int): EncoderState {
    EncoderState(false, false, false, Stamp("", 0, ""), freshId, nowSec)
  }

  function Violation(s: EncoderState, e: Event): Option<Error> {
    if s.done then Some(AfterDone)
    else if e.Start? then (if s.started then Some(StartedTwice) else None)
    else if !s.started then Some(BeforeStart)
    else if s.finished then Some(AfterFinish)
    else None
  }

  function After(s: EncoderState, e: Event): EncoderState {
    match e
    case Start(model, id) => s.(started := true, stamp := Stamp(id.GetOr(s.freshId), s.nowSec, model))
    case Finish(_, _) => s.(finished := true, done := true)
    case _ => s
  }

  function Step(s: EncoderState, e: Event): Result<Emit<EncoderState, Record>, Error> {
    var broken := Violation(s, e);
    if broken.Some? then Err(broken.value) else Ok(Emit(After(s, e), RecordsOf(e, After(s, e).stamp)))
  }

  /** `encodeChatStream`, as the records of the transcript. */
  function EncodeStream(script: seq<Event>, freshId: string, nowSec: int): Result<seq<Record>, Error> {
    match Run(Step, Initial(freshId, nowSec), script)
    case Err(x) => Err(x)
    case Ok(end) => if end.state.done then Ok(end.out) else Err(NotFinished)
  }

  class ChatChunkEncoder {
    const codec: Codec
    const freshId: string
    const nowSec: int
    var started: bool
    var finished: bool
    var done: bool
    var id: string
    var model: string
    var created: int

    ghost function State(): EncoderState
      reads this
    {
      EncoderState(started, finished, done, Stamp(id, created, model), freshId, nowSec)
    }

    constructor (c: Codec, fresh_: string, now: int)
      ensures State() == Initial(fresh_, now) && codec == c
    {
      codec, freshId, nowSec := c, fresh_, now;
      started, finished, done, id, model, created := false, false, false, "", "", 0;
    }

    /** Encode one event, or reject it and change nothing. */
    method Encode(e: Event) returns (r: Result<string, Error>)
      modifies this
      ensures match Step(old(State()), e)
              case Err(x) => r == Err(x) && State() == old(State())
              case Ok(step) => r == Ok(RenderAll(codec, step.out)) && State() == step.state
    {
      if done {
        return Err(AfterDone);
      }
      if e.Start? {
        if started {
          return Err(StartedTwice);
        }
        started := true;
        model := e.model;
        id := e.id.GetOr(freshId);
        created := nowSec;
      } else if !started {
        return Err(BeforeStart);
      } else if finished {
        return Err(AfterFinish);
      }
      var records := RecordsOf(e, Stamp(id, created, model));
      if e.Finish? {
        finished := true;
        done := true;
      }
      r := Ok(RenderAll(codec, records));
    }
  }

  /** `encodeChatStream` as its loop runs. */
  method EncodeChatStream(codec: Codec, script: seq<Event>, freshId: string, nowSec: int)
    returns (r: Result<string, Error>)
    ensures r == Printed(codec, EncodeStream(script, freshId, nowSec))
  {
    var encoder := new ChatChunkEncoder(codec, freshId, nowSec);
    var out := "";
    ghost var written: seq<Record> := [];
    RunFirst(Step, Initial(freshId, nowSec), script);
    for i := 0 to |script|
      invariant fresh(encoder) && encoder.codec == codec && out == RenderAll(codec, written)
      invariant Run(Step, Initial(freshId, nowSec), script) ==
                match Run(Step, encoder.State(), script[i..])
                case Err(x) => Err(x)
                case Ok(rest) => Ok(Emit(rest.state, written + rest.out))
    {
      ghost var step := Step(encoder.State(), script[i]);
      if step.Ok? {
        RunNext(Step, encoder.State(), script, i, written);
      }
      var text := encoder.Encode(script[i]);
      if text.Err? {
        return Err(text.error);
      }
      RenderAppend(codec, written, step.value.out);
      out, written := out + text.value, written + step.value.out;
    }
    RunEnds(Step, encoder.State(), written);
    if !encoder.done {
      return Err(NotFinished);
    }
    r := Ok(out);
  }

  /** Position `k` keeps the ordering rules: one start, at the front, and one finish, at the end. */
  predicate InOrder(script: seq<Event>, k: nat)
    requires k < |script|
  {
    (script[k].Start? <==> k == 0) && (script[k].Finish? ==> k == |script| - 1)
  }

  /** The encoder's state after some accepted events. */
  predicate Summarises(s: EncoderState, past: seq<Event>) {
    s.started == (past != []) && s.done == s.finished == (past != [] && past[|past| - 1].Finish?)
  }

  /** An event out of order is rejected for the first rule it breaks. */
  lemma RejectedFor(s: EncoderState, past: seq<Event>, e: Event)
    requires Summarises(s, past)
    ensures Step(s, e).Ok? <==> (past == [] || !past[|past| - 1].Finish?) && (e.Start? <==> past == [])
    ensures Step(s, e).Err? ==>
              Step(s, e).error == if past != [] && past[|past| - 1].Finish? then AfterDone
                                  else if e.Start? then StartedTwice
                                  else BeforeStart
    ensures Step(s, e).Ok? ==> Summarises(Step(s, e).value.state, past + [e])
  {
  }

  lemma {:induction false} AcceptsFrom(s: EncoderState, script: seq<Event>, k: nat)
    requires k <= |script|
    requires s.started == (k > 0) && s.done == s.finished == (k > 0 && script[k - 1].Finish?)
    ensures Run(Step, s, script[k..]).Ok? <==>
            (s.done ==> k == |script|) && forall i :: k <= i < |script| ==> InOrder(script, i)
    ensures Run(Step, s, script[k..]).Ok? ==>
              Run(Step, s, script[k..]).value.state.done == (script != [] && script[|script| - 1].Finish?)
    decreases |script| - k
  {
    if k < |script| {
      assert script[k..][1..] == script[k + 1..];
      assert Violation(s, script[k]).None? <==> !s.done && (script[k].Start? <==> k == 0);
      if Violation(s, script[k]).None? {
        AcceptsFrom(After(s, script[k]), script, k + 1);
        assert InOrder(script, k) <==> (script[k].Finish? ==> k + 1 == |script|);
      } else {
        assert s.done || !InOrder(script, k);
      }
    }
  }

  /** The encoder accepts a script exactly when it opens once, at the front, and finishes once, at the end. */
  lemma AcceptedIffInOrder(script: seq<Event>, freshId: string, nowSec: int)
    ensures EncodeStream(script, freshId, nowSec).Ok? <==>
            script != [] && script[|script| - 1].Finish? && forall k :: 0 <= k < |script| ==> InOrder(script, k)
  {
    AcceptsFrom(Initial(freshId, nowSec), script, 0);
    assert script[0..] == script;
  }

  // ----- The decoder -----

  /** A decoded upstream event. */
  datatype Upstream =
    | UpStart(id: Option<string>, model: Option<string>)
    | UpText(text: string)
    | UpReasoning(text: string)
    | UpToolCallStart(index: int, callId: string, name: string)
    | UpToolArgs(index: int, delta: string)
    | UpFinish(reason: Option<string>)
    | UpUsage(usage: Usage)
    | UpDone

  function DecodeUsage(usage: Option<Json>): Option<Usage> {
    var prompt, completion := NumProp(usage, "prompt_tokens"), NumProp(usage, "completion_tokens");
    if prompt.None? && completion.None? then None
    else Some(Usage(prompt.GetOr(0), completion.GetOr(0),
                    NumProp(Prop(usage, "prompt_tokens_details"), "cached_tokens"),
                    NumProp(Prop(usage, "completion_tokens_details"), "reasoning_tokens")))
  }

  /** One entry of `tool_calls`: a name or id opens the call, arguments extend it. */
  function DecodeCall(entry: Json): seq<Upstream> {
    var index := NumProp(Some(entry), "index").GetOr(0);
    var fn := Prop(Some(entry), "function");
    var name, id, args := StrProp(fn, "name"), StrProp(Some(entry), "id"), StrProp(fn, "arguments");
    (if name.Some? || id.Some? then [UpToolCallStart(index, id.GetOr(""), name.GetOr(""))] else [])
    + (if args.GetOr("") != "" then [UpToolArgs(index, args.value)] else [])
  }

  function DecodeCalls(entries: seq<Json>): seq<Upstream> {
    if entries == [] then [] else DecodeCall(entries[0]) + DecodeCalls(entries[1..])
  }

  /** `decodeToolCalls` as its loop runs. */
  method DecodeToolCalls(toolCalls: Option<Json>) returns (events: seq<Upstream>)
    ensures events == if toolCalls.Some? && toolCalls.value.Arr? then DecodeCalls(toolCalls.value.items) else []
  {
    if toolCalls.None? || !toolCalls.value.Arr? {
      return [];
    }
    var entries := toolCalls.value.items;
    events := [];
    for i := 0 to |entries|
      invariant DecodeCalls(entries) == events + DecodeCalls(entries[i..])
    {
      assert entries[i..][1..] == entries[i + 1..];
      var index := NumProp(Some(entries[i]), "index").GetOr(0);
      var fn := Prop(Some(entries[i]), "function");
      var name, id := StrProp(fn, "name"), StrProp(Some(entries[i]), "id");
      var args := StrProp(fn, "arguments");
      MoreCalls(events, entries[i], DecodeCalls(entries[i + 1..]));
      if name.Some? || id.Some? {
        events := events + [UpToolCallStart(index, id.GetOr(""), name.GetOr(""))];
      }
      if args.Some? && |args.value| > 0 {
        events := events + [UpToolArgs(index, args.value)];
      }
    }
  }

  lemma MoreCalls(events: seq<Upstream>, entry: Json, rest: seq<Upstream>)
    ensures var index := NumProp(Some(entry), "index").GetOr(0);
            var fn := Prop(Some(entry), "function");
            var name, id, args := StrProp(fn, "name"), StrProp(Some(entry), "id"), StrProp(fn, "arguments");
            var named := if name.Some? || id.Some?
                         then events + [UpToolCallStart(index, id.GetOr(""), name.GetOr(""))] else events;
            events + (DecodeCall(entry) + rest) ==
            (if args.Some? && |args.value| > 0 then named + [UpToolArgs(index, args.value)] else named) + rest
  {
  }

  predicate NonEmpty(text: Option<string>) {
    text.GetOr("") != ""
  }

  function DecodeChoice(choice: Option<Json>, data: Json): seq<Upstream> {
    var delta := Prop(choice, "delta");
    var reasoning := StrProp(delta, "reasoning_content").OrElse(StrProp(delta, "reasoning"));
    var content := StrProp(delta, "content");
    var calls := Prop(delta, "tool_calls");
    var finish := StrProp(choice, "finish_reason");
    (if StrProp(delta, "role").Some? then [UpStart(StrProp(Some(data), "id"), StrProp(Some(data), "model"))] else [])
    + (if NonEmpty(reasoning) then [UpReasoning(reasoning.value)] else [])
    + (if NonEmpty(content) then [UpText(content.value)] else [])
    + (if calls.Some? && calls.value.Arr? then DecodeCalls(calls.value.items) else [])
    + (if finish.Some? then [UpFinish(finish)] else [])
  }

  /** `decodeChatStreamEvent`. */
  function Decode(e: StreamEvent): seq<Upstream> {
    if e.event == "done" || e.data == Str("[DONE]") then [UpDone]
    else if !e.data.Obj? then []
    else
      var choices := Prop(Some(e.data), "choices");
      var choice := if choices.Some? && choices.value.Arr? && choices.value.items != []
                    then Some(choices.value.items[0]) else None;
      var usage := DecodeUsage(Prop(Some(e.data), "usage"));
      DecodeChoice(choice, e.data) + (if usage.Some? then [UpUsage(usage.value)] else [])
  }

  function DecodeAll(events: seq<StreamEvent>): seq<Upstream> {
    if events == [] then [] else Decode(events[0]) + DecodeAll(events[1..])
  }

  // ----- Reading back -----

  /** What an upstream reader sees of an event; empty deltas are not seen. */
  function SeenAs(e: Event, freshId: string): seq<Upstream> {
    match e
    case Start(model, id) => [UpStart(Some(id.GetOr(freshId)), Some(model))]
    case Text(text) => if text == "" then [] else [UpText(text)]
    case ToolCallStart(index, id, name) => [UpToolCallStart(index, id, name)]
    case ToolArgs(index, delta) => if delta == "" then [] else [UpToolArgs(index, delta)]
    case Finish(reason, usage) =>
      [UpFinish(Some(reason))] + (if usage.Some? then [UpUsage(usage.value)] else []) + [UpDone]
  }

  function ReadBack(script: seq<Event>, freshId: string): seq<Upstream> {
    if script == [] then [] else SeenAs(script[0], freshId) + ReadBack(script[1..], freshId)
  }

  lemma ChunkNames(stamp: Stamp, delta: Json, finish: Json)
    ensures var data := Chunk(stamp, delta, finish).data;
            StrProp(Some(data), "id") == Some(stamp.id) && StrProp(Some(data), "model") == Some(stamp.model)
  {
  }

  lemma ChunkDecodes(stamp: Stamp, delta: Json, finish: Json)
    ensures var record := Chunk(stamp, delta, finish);
            && Readable(OpenAI, record)
            && Decode(EventOf(record)) ==
               DecodeChoice(Some(Obj(map["index" := Num(0), "delta" := delta, "finish_reason" := finish])), record.data)
  {
    var choice := Obj(map["index" := Num(0), "delta" := delta, "finish_reason" := finish]);
    var data := Obj(ChunkWith(stamp, [choice]));
    assert Prop(Some(data), "usage").None?;
    assert Prop(Some(data), "choices") == Some(Arr([choice]));
    assert "chat.completion.chunk" != "done";
    var seen := DecodeChoice(Some(choice), data);
    assert seen + [] == seen;
  }

  lemma ChunkReads(stamp: Stamp, delta: Json, finish: Json)
    requires delta.Obj?
    ensures var record := Chunk(stamp, delta, finish);
            && Readable(OpenAI, record)
            && Decode(EventOf(record)) ==
               DecodeChoice(Some(Obj(map["index" := Num(0), "delta" := delta, "finish_reason" := finish])), record.data)
            && StrProp(Some(record.data), "id") == Some(stamp.id)
            && StrProp(Some(record.data), "model") == Some(stamp.model)
  {
    ChunkNames(stamp, delta, finish);
    ChunkDecodes(stamp, delta, finish);
  }

  lemma UsageReads(usage: Usage)
    ensures DecodeUsage(Some(UsageJson(usage))) == Some(usage)
  {
  }

  lemma TrailerReads(stamp: Stamp, usage: Usage)
    ensures Readable(OpenAI, UsageTrailer(stamp, usage))
    ensures Decode(EventOf(UsageTrailer(stamp, usage))) == [UpUsage(usage)]
  {
    UsageReads(usage);
    var data := UsageTrailer(stamp, usage).data;
    assert Prop(Some(data), "choices") == Some(Arr([]));
    assert Prop(Some(data), "usage") == Some(UsageJson(usage));
    assert "chat.completion.chunk" != "done";
    assert DecodeChoice(None, data) == [];
  }

  lemma CallsRead(index: int, id: string, name: string, delta: string)
    ensures DecodeCalls([StartedCall(index, id, name)]) == [UpToolCallStart(index, id, name)]
    ensures DecodeCalls([MoreArguments(index, delta)]) == if delta == "" then [] else [UpToolArgs(index, delta)]
  {
    assert DecodeCalls([]) == [];
    assert DecodeCall(StartedCall(index, id, name)) == [UpToolCallStart(index, id, name)];
  }

  /** The decoded choice of a chunk whose delta has the one given field. */
  lemma FieldReads(field: string, value: Json, data: Json)
    requires field == "role" || field == "content" || field == "tool_calls"
    ensures var choice := Obj(map["index" := Num(0), "delta" := Obj(map[field := value]), "finish_reason" := Null]);
            DecodeChoice(Some(choice), data) ==
            if field == "role" && value.Str? then [UpStart(StrProp(Some(data), "id"), StrProp(Some(data), "model"))]
            else if field == "content" && value.Str? && value.s != "" then [UpText(value.s)]
            else if field == "tool_calls" && value.Arr? then DecodeCalls(value.items)
            else []
  {
    var delta := Some(Obj(map[field := value]));
    var choice := Some(Obj(map["index" := Num(0), "delta" := Obj(map[field := value]), "finish_reason" := Null]));
    assert "role" != "content" && "content" != "tool_calls" && "role" != "tool_calls";
    assert Prop(choice, "delta") == delta;
    assert StrProp(choice, "finish_reason").None?;
    assert StrProp(delta, "reasoning_content").None? && StrProp(delta, "reasoning").None?;
  }

  lemma FinishReads(reason: string, data: Json)
    ensures DecodeChoice(Some(Obj(map["index" := Num(0), "delta" := Obj(map[]), "finish_reason" := Str(reason)])), data)
            == [UpFinish(Some(reason))]
  {
  }

  lemma OneReads(r: Record)
    ensures DecodeAll(EventsOf([r])) == Decode(EventOf(r))
  {
    assert DecodeAll([EventOf(r)]) == Decode(EventOf(r)) + DecodeAll([]);
    assert EventsOf([r]) == [EventOf(r)] + EventsOf([]);
  }

  lemma DecodeAppend(a: seq<Record>, b: seq<Record>)
    ensures DecodeAll(EventsOf(a + b)) == DecodeAll(EventsOf(a)) + DecodeAll(EventsOf(b))
  {
    if a == [] {
      assert a + b == b;
    } else {
      assert (a + b)[1..] == a[1..] + b;
      DecodeAppend(a[1..], b);
      assert EventsOf(a)[1..] == EventsOf(a[1..]) && EventsOf(a + b)[1..] == EventsOf((a + b)[1..]);
    }
  }

  lemma DeltaReads(e: Event, stamp: Stamp, freshId: string)
    requires !e.Finish? && !e.Start?
    ensures DecodeAll(EventsOf(RecordsOf(e, stamp))) == SeenAs(e, freshId)
    ensures forall r :: r in RecordsOf(e, stamp) ==> Readable(OpenAI, r)
  {
    var record := RecordsOf(e, stamp)[0];
    OneReads(record);
    match e {
      case Text(text) =>
        ChunkReads(stamp, Obj(map["content" := Str(text)]), Null);
        FieldReads("content", Str(text), record.data);
      case ToolCallStart(index, id, name) =>
        var calls := Arr([StartedCall(index, id, name)]);
        ChunkReads(stamp, Obj(map["tool_calls" := calls]), Null);
        FieldReads("tool_calls", calls, record.data);
        CallsRead(index, id, name, "");
      case ToolArgs(index, delta) =>
        var calls := Arr([MoreArguments(index, delta)]);
        ChunkReads(stamp, Obj(map["tool_calls" := calls]), Null);
        FieldReads("tool_calls", calls, record.data);
        CallsRead(index, "", "", delta);
    }
  }

  lemma StartReads(e: Event, stamp: Stamp, freshId: string)
    requires e.Start? && stamp.id == e.id.GetOr(freshId) && stamp.model == e.model
    ensures DecodeAll(EventsOf(RecordsOf(e, stamp))) == SeenAs(e, freshId)
    ensures forall r :: r in RecordsOf(e, stamp) ==> Readable(OpenAI, r)
  {
    var record := RecordsOf(e, stamp)[0];
    OneReads(record);
    ChunkReads(stamp, Obj(map["role" := Str("assistant")]), Null);
    FieldReads("role", Str("assistant"), record.data);
  }

  lemma OptionalTrailerReads(stamp: Stamp, usage: Option<Usage>)
    ensures var trailer := if usage.Some? then [UsageTrailer(stamp, usage.value)] else [];
            && DecodeAll(EventsOf(trailer)) == (if usage.Some? then [UpUsage(usage.value)] else [])
            && forall r :: r in trailer ==> Readable(OpenAI, r)
  {
    if usage.Some? {
      TrailerReads(stamp, usage.value);
      OneReads(UsageTrailer(stamp, usage.value));
    }
  }

  lemma LastChunkReads(stamp: Stamp, reason: string, last: Record)
    requires last == Chunk(stamp, Obj(map[]), Str(reason))
    ensures DecodeAll(EventsOf([last])) == [UpFinish(Some(reason))] && Readable(OpenAI, last)
  {
    ChunkReads(stamp, Obj(map[]), Str(reason));
    FinishReads(reason, last.data);
    OneReads(last);
  }

  lemma FinishRecordsRead(e: Event, stamp: Stamp, freshId: string)
    requires e.Finish?
    ensures DecodeAll(EventsOf(RecordsOf(e, stamp))) == SeenAs(e, freshId)
    ensures forall r :: r in RecordsOf(e, stamp) ==> Readable(OpenAI, r)
  {
    var last := Chunk(stamp, Obj(map[]), Str(e.reason));
    var trailer := if e.usage.Some? then [UsageTrailer(stamp, e.usage.value)] else [];
    LastChunkReads(stamp, e.reason, last);
    OneReads(Terminator);
    OptionalTrailerReads(stamp, e.usage);
    DecodeAppend([last], trailer);
    DecodeAppend([last] + trailer, [Terminator]);
  }

  lemma {:induction false} RunReads(s: EncoderState, script: seq<Event>)
    requires Run(Step, s, script).Ok?
    ensures DecodeAll(EventsOf(Run(Step, s, script).value.out)) == ReadBack(script, s.freshId)
    ensures forall r :: r in Run(Step, s, script).value.out ==> Readable(OpenAI, r)
    decreases script
  {
    if script != [] {
      var e := script[0];
      var s1 := After(s, e);
      assert Step(s, e) == Ok(Emit(s1, RecordsOf(e, s1.stamp)));
      EventReads(e, s1.stamp, s.freshId);
      RunReads(s1, script[1..]);
      DecodeAppend(RecordsOf(e, s1.stamp), Run(Step, s1, script[1..]).value.out);
    }
  }

  lemma EventReads(e: Event, stamp: Stamp, freshId: string)
    requires e.Start? ==> stamp.id == e.id.GetOr(freshId) && stamp.model == e.model
    ensures DecodeAll(EventsOf(RecordsOf(e, stamp))) == SeenAs(e, freshId)
    ensures forall r :: r in RecordsOf(e, stamp) ==> Readable(OpenAI, r)
  {
    if e.Start? {
      StartReads(e, stamp, freshId);
    } else if e.Finish? {
      FinishRecordsRead(e, stamp, freshId);
    } else {
      DeltaReads(e, stamp, freshId);
    }
  }

  /** For any accepted script and any chunking, the decoder reads back the script without its empty deltas. */
  lemma WireRoundTrip(c: Codec, script: seq<Event>, freshId: string, nowSec: int)
    requires Lawful(c) && EncodeStream(script, freshId, nowSec).Ok?
    ensures DecodeAll(Parse(OpenAI, c, RenderAll(c, EncodeStream(script, freshId, nowSec).value))) ==
            ReadBack(script, freshId)
  {
    RunReads(Initial(freshId, nowSec), script);
    TranscriptParses(OpenAI, c, EncodeStream(script, freshId, nowSec).value);
  }
}
