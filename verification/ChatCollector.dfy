/** What a client makes of a decoded chat stream: it joins the deltas. */
module ChatCollector {
  import opened Base
  import opened ChatStream
  import opened ChatResult

  /** A call under construction, at the index the stream gave it. */
  datatype OpenCall = OpenCall(index: int, call: Call)

  datatype Collected = Collected(text: string, calls: seq<OpenCall>, reason: Option<string>, usage: Option<Usage>)

  const NOTHING := Collected("", [], None, None)

  /** Extend the arguments of the latest call at an index. */
  function Extend(calls: seq<OpenCall>, index: int, delta: string): seq<OpenCall> {
    if calls == [] then []
    else
      var n := |calls| - 1;
      if calls[n].index == index
      then calls[..n] + [OpenCall(index, calls[n].call.(arguments := calls[n].call.arguments + delta))]
      else Extend(calls[..n], index, delta) + [calls[n]]
  }

  function Add(acc: Collected, e: Upstream): Collected {
    match e
    case UpText(text) => acc.(text := acc.text + text)
    case UpToolCallStart(index, id, name) => acc.(calls := acc.calls + [OpenCall(index, Call(id, name, ""))])
    case UpToolArgs(index, delta) => acc.(calls := Extend(acc.calls, index, delta))
    case UpFinish(reason) => acc.(reason := reason.OrElse(acc.reason))
    case UpUsage(usage) => acc.(usage := Some(usage))
    case _ => acc
  }

  function Collect(acc: Collected, events: seq<Upstream>): Collected
    decreases events
  {
    if events == [] then acc else Collect(Add(acc, events[0]), events[1..])
  }

  lemma {:induction false} CollectAppend(acc: Collected, a: seq<Upstream>, b: seq<Upstream>)
    ensures Collect(acc, a + b) == Collect(Collect(acc, a), b)
    decreases a
  {
    if a == [] {
      assert a + b == b;
    } else {
      assert (a + b)[1..] == a[1..] + b;
      CollectAppend(Add(acc, a[0]), a[1..], b);
    }
  }

  function Indexed(calls: seq<Call>, index: nat): seq<OpenCall> {
    if calls == [] then [] else [OpenCall(index, calls[0])] + Indexed(calls[1..], index + 1)
  }

  /** A completed result, as a client that streamed it should hold it. */
  function FromResult(r: CanonicalChat): Collected {
    Collected(r.text, Indexed(r.calls, 0), Some(r.finishReason), r.usage)
  }

  lemma CollectOne(acc: Collected, e: Upstream)
    ensures Collect(acc, [e]) == Add(acc, e)
  {
  }

  /** A call's start and arguments add that call. */
  lemma CallCollects(acc: Collected, index: int, call: Call)
    ensures var seen := [UpToolCallStart(index, call.id, call.name)]
                        + (if call.arguments == "" then [] else [UpToolArgs(index, call.arguments)]);
            Collect(acc, seen) == acc.(calls := acc.calls + [OpenCall(index, call)])
  {
    var start, args := UpToolCallStart(index, call.id, call.name), UpToolArgs(index, call.arguments);
    CollectOne(acc, start);
    if call.arguments == "" {
      assert [start] + [] == [start];
    } else {
      CollectAppend(acc, [start], [args]);
      CollectOne(Add(acc, start), args);
      var begun := Add(acc, start).calls;
      assert begun[..|begun| - 1] == acc.calls;
      assert "" + call.arguments == call.arguments;
    }
  }

  lemma {:induction false} CallsCollect(acc: Collected, calls: seq<Call>, index: nat)
    ensures Collect(acc, CallsSeen(calls, index)) == acc.(calls := acc.calls + Indexed(calls, index))
    decreases calls
  {
    if calls == [] {
      assert acc.calls + [] == acc.calls;
    } else {
      var call := calls[0];
      var seen := [UpToolCallStart(index, call.id, call.name)]
                  + (if call.arguments == "" then [] else [UpToolArgs(index, call.arguments)]);
      CallCollects(acc, index, call);
      CollectAppend(acc, seen, CallsSeen(calls[1..], index + 1));
      CallsCollect(acc.(calls := acc.calls + [OpenCall(index, call)]), calls[1..], index + 1);
      Assoc(acc.calls, [OpenCall(index, call)], Indexed(calls[1..], index + 1));
    }
  }

  /** Collecting a stream expanded from a result gives the result back. */
  lemma ResultCollects(r: CanonicalChat, freshId: string)
    ensures Collect(NOTHING, ResultSeen(r, freshId) + [UpDone]) == FromResult(r)
  {
    var start := [UpStart(Some(r.id.GetOr(freshId)), Some(r.model))];
    var text := if r.text == "" then [] else [UpText(r.text)];
    var finish := [UpFinish(Some(r.finishReason))];
    var usage := if r.usage.Some? then [UpUsage(r.usage.value)] else [];
    CollectAppend(NOTHING, start + text + CallsSeen(r.calls, 0) + finish + usage, [UpDone]);
    CollectAppend(NOTHING, start + text + CallsSeen(r.calls, 0) + finish, usage);
    CollectAppend(NOTHING, start + text + CallsSeen(r.calls, 0), finish);
    CollectAppend(NOTHING, start + text, CallsSeen(r.calls, 0));
    CollectAppend(NOTHING, start, text);
    TextCollects(r.text);
    CallsCollect(NOTHING.(text := r.text), r.calls, 0);
    assert [] + Indexed(r.calls, 0) == Indexed(r.calls, 0);
  }

  lemma TextCollects(text: string)
    ensures Collect(NOTHING, if text == "" then [] else [UpText(text)]) == NOTHING.(text := text)
  {
    assert "" + text == text;
  }
}
