/**
 * Streaming Chat to Responses agrees with the batch translation: the terminal
 * snapshot is the object the non-streaming path builds, up to the generated id.
 */
module ResponsesAgreement {
  import opened Base
  import opened Json
  import SR = SseRecords
  import C = ChatStream
  import R = ResponsesStream
  import opened ResponsesReading
  import opened ChatResult
  import opened ChatToResponses
  import opened ChatHistory

  // ----- The batch translation -----

  /** `finishReasonToStatus`. */
  function FinishToStatus(finish: Option<string>): (R.Status, Option<string>) {
    if finish == Some("length") then (R.Incomplete, Some("max_output_tokens"))
    else if finish == Some("content_filter") then (R.Incomplete, Some("content_filter"))
    else (R.Completed, None)
  }

  function CallOutputs(calls: seq<Call>): seq<R.Output> {
    if calls == [] then []
    else [R.FunctionCall(calls[0].id, calls[0].name, calls[0].arguments)] + CallOutputs(calls[1..])
  }

  function BatchUsage(u: UsageFields): R.Usage {
    R.Usage(u.prompt.GetOr(0), u.completion.GetOr(0), u.cached, u.reasoning)
  }

  /** `chatResponseToCanonical`. */
  function BatchResult(c: Completion, model: string): R.ResponseResult {
    var (status, reason) := FinishToStatus(c.finishReason);
    R.ResponseResult(c.id, model, status, reason, None,
                     (if c.content.GetOr("") == "" then [] else [R.Message(c.content.value)]) + CallOutputs(c.calls),
                     if c.usage.Some? then Some(BatchUsage(c.usage.value)) else None)
  }

  /** `chatResponseToCanonical` as it pushes its outputs. */
  method ChatResponseToCanonical(c: Completion, model: string) returns (r: R.ResponseResult)
    ensures r == BatchResult(c, model)
  {
    var outputs := [];
    if c.content.Some? && |c.content.value| > 0 {
      outputs := outputs + [R.Message(c.content.value)];
    }
    ghost var before := outputs;
    assert c.calls[0..] == c.calls;
    for i := 0 to |c.calls|
      invariant before + CallOutputs(c.calls) == outputs + CallOutputs(c.calls[i..])
    {
      assert c.calls[i..][1..] == c.calls[i + 1..];
      var output := R.FunctionCall(c.calls[i].id, c.calls[i].name, c.calls[i].arguments);
      Assoc(outputs, [output], CallOutputs(c.calls[i + 1..]));
      outputs := outputs + [output];
    }
    assert CallOutputs(c.calls[|c.calls|..]) == [] && outputs + [] == outputs;
    var (status, reason) := FinishToStatus(c.finishReason);
    r := R.ResponseResult(c.id, model, status, reason, None, outputs,
                          if c.usage.Some? then Some(BatchUsage(c.usage.value)) else None);
  }

  // ----- The stream of a completion groups back into it -----

  lemma OutputsSnoc(past: seq<C.Upstream>, e: C.Upstream)
    ensures Outputs(past + [e]) == Grouped(Outputs(past), e)
    ensures Reason(past + [e]) == (if e.UpFinish? then e.reason.OrElse(Reason(past)) else Reason(past))
    ensures Reported(past + [e]) == (if e.UpUsage? then Some(e.usage) else Reported(past))
  {
    assert (past + [e])[..|past|] == past;
  }

  lemma OneCallGroups(past: seq<C.Upstream>, call: Call, index: nat)
    ensures var seen := [C.UpToolCallStart(index, call.id, call.name)]
                        + (if call.arguments == "" then [] else [C.UpToolArgs(index, call.arguments)]);
            Outputs(past + seen) == Outputs(past) + [R.FunctionCall(call.id, call.name, call.arguments)]
  {
    var start, args := C.UpToolCallStart(index, call.id, call.name), C.UpToolArgs(index, call.arguments);
    var begun := Outputs(past) + [R.FunctionCall(call.id, call.name, "")];
    OutputsSnoc(past, start);
    if call.arguments == "" {
      assert past + ([start] + []) == past + [start];
    } else {
      OutputsSnoc(past + [start], args);
      assert past + ([start] + [args]) == past + [start] + [args];
      assert "" + call.arguments == call.arguments;
      assert begun[|begun| - 1 := R.FunctionCall(call.id, call.name, call.arguments)] ==
             Outputs(past) + [R.FunctionCall(call.id, call.name, call.arguments)];
    }
  }

  lemma {:induction false} CallsGroup(past: seq<C.Upstream>, calls: seq<Call>, index: nat)
    ensures Outputs(past + CallsSeen(calls, index)) == Outputs(past) + CallOutputs(calls)
    decreases calls
  {
    if calls == [] {
      assert past + [] == past && Outputs(past) + [] == Outputs(past);
    } else {
      var call, rest := calls[0], calls[1..];
      var seen := [C.UpToolCallStart(index, call.id, call.name)]
                  + (if call.arguments == "" then [] else [C.UpToolArgs(index, call.arguments)]);
      OneCallGroups(past, call, index);
      CallsGroup(past + seen, rest, index + 1);
      Assoc(past, seen, CallsSeen(rest, index + 1));
      Assoc(Outputs(past), [R.FunctionCall(call.id, call.name, call.arguments)], CallOutputs(rest));
    }
  }

  lemma {:induction false} CallsSayNothingElse(past: seq<C.Upstream>, more: seq<C.Upstream>)
    requires forall e :: e in more ==> !e.UpFinish? && !e.UpUsage?
    ensures Reason(past + more) == Reason(past) && Reported(past + more) == Reported(past)
    decreases more
  {
    if more == [] {
      assert past + [] == past;
    } else {
      OutputsSnoc(past, more[0]);
      CallsSayNothingElse(past + [more[0]], more[1..]);
      assert past + more == past + [more[0]] + more[1..];
    }
  }

  lemma {:induction false} CallsSeenPlain(calls: seq<Call>, index: nat)
    ensures forall e :: e in CallsSeen(calls, index) ==> e.UpToolCallStart? || e.UpToolArgs?
  {
    if calls != [] {
      CallsSeenPlain(calls[1..], index + 1);
    }
  }

  lemma OpeningGroups(r: CanonicalChat, start: C.Upstream)
    requires start.UpStart?
    ensures var opening := [start] + (if r.text == "" then [] else [C.UpText(r.text)]);
            && Outputs(opening) == (if r.text == "" then [] else [R.Message(r.text)])
            && Reason(opening) == None && Reported(opening) == None
  {
    OutputsSnoc([], start);
    assert [] + [start] == [start];
    if r.text != "" {
      OutputsSnoc([start], C.UpText(r.text));
    } else {
      assert [start] + [] == [start];
    }
  }

  /** What the reader of an expanded result has grouped before its finish. */
  lemma ContentGroups(r: CanonicalChat, freshId: string)
    ensures var content := [C.UpStart(Some(r.id.GetOr(freshId)), Some(r.model))]
                           + (if r.text == "" then [] else [C.UpText(r.text)]) + CallsSeen(r.calls, 0);
            && Outputs(content) == (if r.text == "" then [] else [R.Message(r.text)]) + CallOutputs(r.calls)
            && Reason(content) == None && Reported(content) == None && C.UpDone !in content
  {
    var start := C.UpStart(Some(r.id.GetOr(freshId)), Some(r.model));
    var opening := [start] + (if r.text == "" then [] else [C.UpText(r.text)]);
    OpeningGroups(r, start);
    CallsGroup(opening, r.calls, 0);
    CallsSeenPlain(r.calls, 0);
    CallsSayNothingElse(opening, CallsSeen(r.calls, 0));
  }

  lemma FinishGroups(content: seq<C.Upstream>, reason: string, usage: Option<C.Usage>)
    requires Reported(content) == None && C.UpDone !in content
    ensures var all := content + [C.UpFinish(Some(reason))] + (if usage.Some? then [C.UpUsage(usage.value)] else []);
            && Outputs(all) == Outputs(content) && Reason(all) == Some(reason) && Reported(all) == usage
            && C.UpDone !in all
  {
    var finish := C.UpFinish(Some(reason));
    OutputsSnoc(content, finish);
    if usage.Some? {
      OutputsSnoc(content + [finish], C.UpUsage(usage.value));
    } else {
      assert content + [finish] + [] == content + [finish];
    }
  }

  lemma SeenGroups(r: CanonicalChat, freshId: string)
    ensures var seen := ResultSeen(r, freshId);
            && Outputs(seen) == (if r.text == "" then [] else [R.Message(r.text)]) + CallOutputs(r.calls)
            && Reason(seen) == Some(r.finishReason) && Reported(seen) == r.usage && C.UpDone !in seen
  {
    ContentGroups(r, freshId);
    var content := [C.UpStart(Some(r.id.GetOr(freshId)), Some(r.model))]
                   + (if r.text == "" then [] else [C.UpText(r.text)]) + CallsSeen(r.calls, 0);
    FinishGroups(content, r.finishReason, r.usage);
  }

  /** The stream of a completion describes the result the batch translation gives, but for its id. */
  lemma StreamDescribesBatch(c: Completion, model: string, freshId: string)
    ensures ResultOf(model, ResultSeen(ToCanonical(c), freshId) + [C.UpDone]) == BatchResult(c, model).(id := None)
  {
    var r := ToCanonical(c);
    SeenGroups(r, freshId);
    LiveUntilDone(ResultSeen(r, freshId));
    assert "stop" != "length" && "stop" != "content_filter";
  }

  /**
   * The whole path: a completion is expanded, encoded, cut into chunks in any way, parsed, decoded,
   * translated and encoded again; the terminal snapshot is the non-streaming object of the same
   * completion under a generated id.
   */
  lemma StreamingAgreesWithBatch(c: Codec, completion: Completion, model: string, freshId: string, nowSec: int,
                                 deps: R.Deps)
    requires Lawful(c)
    ensures var sent := C.EncodeStream(EventsForResult(ToCanonical(completion)), freshId, nowSec);
            && sent.Ok?
            && var received := C.DecodeAll(SR.Parse(SR.OpenAI, c, SR.RenderAll(c, sent.value)));
               var transcript := R.EncodeStream(Translate(model, received), deps);
               && transcript.Ok? && transcript.value != []
               && R.Response(transcript.value[|transcript.value| - 1]) ==
                  Some(R.BuildResponsesObject(BatchResult(completion, model).(id := None), deps))
  {
    ResultOverTheWire(c, ToCanonical(completion), freshId, nowSec);
    StreamDescribesBatch(completion, model, freshId);
    AnyStreamSnapshot(model, ResultSeen(ToCanonical(completion), freshId) + [C.UpDone], deps);
  }

  /** The status a client reads is the one the finish reason calls for. */
  ghost predicate StatusRead(answer: Answer, finish: Option<string>) {
    && answer.error == None
    && answer.status ==
       (if finish == Some("length") || finish == Some("content_filter") then R.Incomplete else R.Completed)
    && answer.incompleteReason ==
       (if finish == Some("length") then Some("max_output_tokens")
        else if finish == Some("content_filter") then Some("content_filter")
        else None)
  }

  /** The items are the content, if there is any, as a message, and then the calls in order. */
  ghost predicate ContentRead(answer: Answer, content: string, calls: seq<Call>) {
    var own := if content == "" then 0 else 1;
    && answer.text == content && |answer.items| == own + |calls|
    && (own == 1 ==> answer.items[0].output == R.Message(content))
    && forall i :: 0 <= i < |calls| ==>
         answer.items[own + i].output == R.FunctionCall(calls[i].id, calls[i].name, calls[i].arguments)
  }

  ghost predicate UsageRead(answer: Answer, usage: Option<UsageFields>) {
    && (usage.None? <==> answer.usage.None?)
    && (usage.Some? ==>
          answer.usage == Some(R.Usage(usage.value.prompt.GetOr(0), usage.value.completion.GetOr(0),
                                       Some(usage.value.cached.GetOr(0)), Some(usage.value.reasoning.GetOr(0)))))
  }

  /** What a client reads of a whole completion, streamed or not. */
  ghost predicate CompletionRead(answer: Answer, completion: Completion, model: string) {
    && answer.model == model && StatusRead(answer, completion.finishReason)
    && ContentRead(answer, completion.content.GetOr(""), completion.calls) && UsageRead(answer, completion.usage)
  }

  lemma {:induction false} CallOutputsAt(calls: seq<Call>)
    ensures |CallOutputs(calls)| == |calls| && TextFor(CallOutputs(calls)) == ""
    ensures forall i :: 0 <= i < |calls| ==>
              CallOutputs(calls)[i] == R.FunctionCall(calls[i].id, calls[i].name, calls[i].arguments)
  {
    if calls != [] {
      CallOutputsAt(calls[1..]);
    }
  }

  lemma {:induction false} ItemsAt(outputs: seq<R.Output>, ids: nat -> string, n: nat)
    ensures |ItemsFor(outputs, ids, n)| == |outputs|
    ensures forall i :: 0 <= i < |outputs| ==> ItemsFor(outputs, ids, n)[i].output == outputs[i]
    decreases outputs
  {
    if outputs != [] {
      ItemsAt(outputs[1..], ids, n + 1);
    }
  }

  lemma MessageFirst(text: string, calls: seq<R.Output>)
    requires TextFor(calls) == ""
    ensures TextFor([R.Message(text)] + calls) == text
  {
    assert ([R.Message(text)] + calls)[1..] == calls;
  }

  lemma ContentReads(answer: Answer, content: string, calls: seq<Call>, outputs: seq<R.Output>, ids: nat -> string,
                     n: nat)
    requires outputs == (if content == "" then [] else [R.Message(content)]) + CallOutputs(calls)
    requires answer.items == ItemsFor(outputs, ids, n) && answer.text == TextFor(outputs)
    ensures ContentRead(answer, content, calls)
  {
    CallOutputsAt(calls);
    ItemsAt(outputs, ids, n);
    if content == "" {
      assert outputs == CallOutputs(calls);
    } else {
      MessageFirst(content, CallOutputs(calls));
    }
  }

  lemma StatusReads(answer: Answer, completion: Completion, model: string, result: R.ResponseResult, deps: R.Deps)
    requires result == BatchResult(completion, model) || result == BatchResult(completion, model).(id := None)
    requires answer == AnswerFor(result, deps)
    ensures answer.model == model && StatusRead(answer, completion.finishReason) && UsageRead(answer, completion.usage)
  {
    assert "content_filter" != "length";
  }

  lemma BatchReads(completion: Completion, model: string, deps: R.Deps, result: R.ResponseResult)
    requires result == BatchResult(completion, model) || result == BatchResult(completion, model).(id := None)
    ensures CompletionRead(AnswerFor(result, deps), completion, model)
  {
    StatusReads(AnswerFor(result, deps), completion, model, result, deps);
    ContentReads(AnswerFor(result, deps), completion.content.GetOr(""), completion.calls, result.outputs, deps.ids,
                 if result.id.Some? then 0 else 1);
  }

  /**
   * Streamed or not, a client reads the completion's text, calls, usage and status; only the ids differ.
   */
  lemma ClientReadsCompletion(c: Codec, completion: Completion, model: string, freshId: string, nowSec: int,
                              deps: R.Deps)
    requires Lawful(c)
    ensures var batch := ReadResponse(R.BuildResponsesObject(BatchResult(completion, model), deps));
            batch.Some? && CompletionRead(batch.value, completion, model)
    ensures var sent := C.EncodeStream(EventsForResult(ToCanonical(completion)), freshId, nowSec);
            && sent.Ok?
            && var received := C.DecodeAll(SR.Parse(SR.OpenAI, c, SR.RenderAll(c, sent.value)));
               var transcript := R.EncodeStream(Translate(model, received), deps);
               && transcript.Ok? && transcript.value != []
               && var response := R.Response(transcript.value[|transcript.value| - 1]);
                  && response.Some? && ReadResponse(response.value).Some?
                  && CompletionRead(ReadResponse(response.value).value, completion, model)
  {
    var result := BatchResult(completion, model);
    StreamingAgreesWithBatch(c, completion, model, freshId, nowSec, deps);
    ObjectReads(result, deps);
    ObjectReads(result.(id := None), deps);
    BatchReads(completion, model, deps, result);
    BatchReads(completion, model, deps, result.(id := None));
  }
}
