/** Chat scripts every encoder accepts. */
module ChatScripts {
  import opened Base
  import opened ChatStream

  /** Deltas between a start and a finish are all the encoder asks for. */
  lemma ScriptEncodes(model: string, id: Option<string>, middle: seq<Event>, reason: string, usage: Option<Usage>,
                      freshId: string, nowSec: int)
    requires forall e :: e in middle ==> !e.Start? && !e.Finish?
    ensures EncodeStream([Start(model, id)] + middle + [Finish(reason, usage)], freshId, nowSec).Ok?
  {
    var script := [Start(model, id)] + middle + [Finish(reason, usage)];
    forall k | 0 < k < |script| - 1
      ensures InOrder(script, k)
    {
      assert script[k] == middle[k - 1];
      assert middle[k - 1] in middle;
    }
    assert InOrder(script, 0) && InOrder(script, |script| - 1);
    AcceptedIffInOrder(script, freshId, nowSec);
  }
}

/** Completed chat results, and their expansion into a chunk stream. */
module ChatResult {
  import opened Base
  import opened Json
  import SR = SseRecords
  import opened ChatStream
  import opened ChatScripts

  datatype Call = Call(id: string, name: string, arguments: string)

  /** A canonical chat result; no text and no calls are the empty ones. */
  datatype CanonicalChat = CanonicalChat(id: Option<string>, model: string, finishReason: string,
                                         text: string, calls: seq<Call>, usage: Option<Usage>)

  /** The usage block of a `chat.completion` object: any of its counts may be missing. */
  datatype UsageFields = UsageFields(prompt: Option<int>, completion: Option<int>,
                                     cached: Option<int>, reasoning: Option<int>)

  /** A `chat.completion` object, as far as the translations read it. */
  datatype Completion = Completion(id: Option<string>, model: Option<string>, finishReason: Option<string>,
                                   content: Option<string>, calls: seq<Call>, usage: Option<UsageFields>)

  function CanonicalUsage(u: UsageFields): Usage {
    Usage(u.prompt.GetOr(0), u.completion.GetOr(0), u.cached, u.reasoning)
  }

  /** `chatCompletionToCanonical`. */
  function ToCanonical(c: Completion): CanonicalChat {
    CanonicalChat(c.id, c.model.GetOr(""), c.finishReason.GetOr("stop"), c.content.GetOr(""), c.calls,
               if c.usage.Some? then Some(CanonicalUsage(c.usage.value)) else None)
  }

  function CallEvents(calls: seq<Call>, index: nat): seq<Event> {
    if calls == [] then []
    else [ToolCallStart(index, calls[0].id, calls[0].name), ToolArgs(index, calls[0].arguments)]
         + CallEvents(calls[1..], index + 1)
  }

  /** `streamEventsForChatResult`. */
  function EventsForResult(r: CanonicalChat): seq<Event> {
    [Start(r.model, r.id)] + (if r.text == "" then [] else [Text(r.text)]) + CallEvents(r.calls, 0)
    + [Finish(r.finishReason, r.usage)]
  }

  /** `streamEventsForChatResult` as it pushes. */
  method StreamEventsForChatResult(r: CanonicalChat) returns (events: seq<Event>)
    ensures events == EventsForResult(r)
  {
    events := [Start(r.model, r.id)];
    if |r.text| > 0 {
      events := events + [Text(r.text)];
    }
    ghost var before := events;
    assert r.calls[0..] == r.calls;
    for i := 0 to |r.calls|
      invariant before + CallEvents(r.calls, 0) == events + CallEvents(r.calls[i..], i)
    {
      assert r.calls[i..][1..] == r.calls[i + 1..];
      Assoc(events, [ToolCallStart(i, r.calls[i].id, r.calls[i].name), ToolArgs(i, r.calls[i].arguments)],
            CallEvents(r.calls[i + 1..], i + 1));
      events := events + [ToolCallStart(i, r.calls[i].id, r.calls[i].name), ToolArgs(i, r.calls[i].arguments)];
    }
    assert CallEvents(r.calls[|r.calls|..], |r.calls|) == [] && events + [] == events;
    events := events + [Finish(r.finishReason, r.usage)];
  }

  lemma {:induction false} CallEventsAreDeltas(calls: seq<Call>, index: nat)
    ensures forall e :: e in CallEvents(calls, index) ==> !e.Start? && !e.Finish?
  {
    if calls != [] {
      CallEventsAreDeltas(calls[1..], index + 1);
    }
  }

  /** The encoder accepts every expanded result. */
  lemma ResultEncodes(r: CanonicalChat, freshId: string, nowSec: int)
    ensures EncodeStream(EventsForResult(r), freshId, nowSec).Ok?
  {
    var middle := (if r.text == "" then [] else [Text(r.text)]) + CallEvents(r.calls, 0);
    CallEventsAreDeltas(r.calls, 0);
    ScriptEncodes(r.model, r.id, middle, r.finishReason, r.usage, freshId, nowSec);
    assert EventsForResult(r) == [Start(r.model, r.id)] + middle + [Finish(r.finishReason, r.usage)];
  }

  // ----- What a reader sees of it -----

  function CallsSeen(calls: seq<Call>, index: nat): seq<Upstream> {
    if calls == [] then []
    else [UpToolCallStart(index, calls[0].id, calls[0].name)]
         + (if calls[0].arguments == "" then [] else [UpToolArgs(index, calls[0].arguments)])
         + CallsSeen(calls[1..], index + 1)
  }

  /** The reader's view of an expanded result, up to its terminator. */
  function ResultSeen(r: CanonicalChat, freshId: string): seq<Upstream> {
    [UpStart(Some(r.id.GetOr(freshId)), Some(r.model))] + (if r.text == "" then [] else [UpText(r.text)])
    + CallsSeen(r.calls, 0)
    + [UpFinish(Some(r.finishReason))] + (if r.usage.Some? then [UpUsage(r.usage.value)] else [])
  }

  lemma {:induction false} ReadBackConcat(a: seq<Event>, b: seq<Event>, freshId: string)
    ensures ReadBack(a + b, freshId) == ReadBack(a, freshId) + ReadBack(b, freshId)
  {
    if a == [] {
      assert a + b == b;
    } else {
      assert (a + b)[1..] == a[1..] + b;
      ReadBackConcat(a[1..], b, freshId);
    }
  }

  lemma ReadBackOne(e: Event, freshId: string)
    ensures ReadBack([e], freshId) == SeenAs(e, freshId)
  {
    assert SeenAs(e, freshId) + [] == SeenAs(e, freshId);
  }

  lemma {:induction false} CallsReadBack(calls: seq<Call>, index: nat, freshId: string)
    ensures ReadBack(CallEvents(calls, index), freshId) == CallsSeen(calls, index)
  {
    if calls != [] {
      var first := [ToolCallStart(index, calls[0].id, calls[0].name), ToolArgs(index, calls[0].arguments)];
      ReadBackConcat(first, CallEvents(calls[1..], index + 1), freshId);
      CallsReadBack(calls[1..], index + 1, freshId);
      ReadBackConcat([first[0]], [first[1]], freshId);
      ReadBackOne(first[0], freshId);
      ReadBackOne(first[1], freshId);
      assert first == [first[0]] + [first[1]];
    }
  }

  lemma ResultReadBack(r: CanonicalChat, freshId: string)
    ensures ReadBack(EventsForResult(r), freshId) == ResultSeen(r, freshId) + [UpDone]
  {
    var start, finish := Start(r.model, r.id), Finish(r.finishReason, r.usage);
    var text := if r.text == "" then [] else [Text(r.text)];
    ReadBackConcat([start] + text + CallEvents(r.calls, 0), [finish], freshId);
    ReadBackConcat([start] + text, CallEvents(r.calls, 0), freshId);
    ReadBackConcat([start], text, freshId);
    CallsReadBack(r.calls, 0, freshId);
    ReadBackOne(start, freshId);
    ReadBackOne(finish, freshId);
    if r.text != "" {
      ReadBackOne(Text(r.text), freshId);
    }
  }

  /** Over the wire, in any chunking, an expanded result is seen as exactly that. */
  lemma ResultOverTheWire(c: Codec, r: CanonicalChat, freshId: string, nowSec: int)
    requires Lawful(c)
    ensures EncodeStream(EventsForResult(r), freshId, nowSec).Ok?
    ensures DecodeAll(SR.Parse(SR.OpenAI, c, SR.RenderAll(c, EncodeStream(EventsForResult(r), freshId, nowSec).value)))
            == ResultSeen(r, freshId) + [UpDone]
  {
    ResultEncodes(r, freshId, nowSec);
    WireRoundTrip(c, EventsForResult(r), freshId, nowSec);
    ResultReadBack(r, freshId);
  }
}
