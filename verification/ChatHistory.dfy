/** What a chat upstream reported, as far as it counts: before its terminator. */
module ChatHistory {
  import opened Base
  import C = ChatStream

  /** The events that count: those before the terminator. */
  function Live(events: seq<C.Upstream>): seq<C.Upstream> {
    if events == [] || events[0].UpDone? then [] else [events[0]] + Live(events[1..])
  }

  function Before(past: seq<C.Upstream>): seq<C.Upstream>
    requires past != []
  {
    past[..|past| - 1]
  }

  /** The last finish reason and the last usage reported. */
  function Reason(events: seq<C.Upstream>): Option<string> {
    if events == [] then None
    else
      match events[|events| - 1]
      case UpFinish(reason) => reason.OrElse(Reason(Before(events)))
      case _ => Reason(Before(events))
  }

  function Reported(events: seq<C.Upstream>): Option<C.Usage> {
    if events == [] then None
    else
      match events[|events| - 1]
      case UpUsage(usage) => Some(usage)
      case _ => Reported(Before(events))
  }

  /** The usage reported last is the one that counts. */
  lemma {:induction false} LastReported(before: seq<C.Upstream>, usage: C.Usage, after: seq<C.Upstream>)
    requires forall e :: e in after ==> !e.UpUsage?
    ensures Reported(before + [C.UpUsage(usage)] + after) == Some(usage)
    decreases after
  {
    var all := before + [C.UpUsage(usage)] + after;
    if after != [] {
      var n := |after| - 1;
      assert after[n] in after && all[|all| - 1] == after[n];
      assert Before(all) == before + [C.UpUsage(usage)] + after[..n];
      LastReported(before, usage, after[..n]);
    }
  }

  lemma {:induction false} NeverReported(events: seq<C.Upstream>)
    requires forall e :: e in events ==> !e.UpUsage?
    ensures Reported(events) == None
  {
    if events != [] {
      assert events[|events| - 1] in events;
      NeverReported(Before(events));
    }
  }

  /** The finish reason given last is the one that counts; a finish without a reason takes none back. */
  lemma {:induction false} LastReason(before: seq<C.Upstream>, reason: string, after: seq<C.Upstream>)
    requires forall e :: e in after && e.UpFinish? ==> e.reason.None?
    ensures Reason(before + [C.UpFinish(Some(reason))] + after) == Some(reason)
    decreases after
  {
    var all := before + [C.UpFinish(Some(reason))] + after;
    if after != [] {
      var n := |after| - 1;
      assert after[n] in after && all[|all| - 1] == after[n];
      assert Before(all) == before + [C.UpFinish(Some(reason))] + after[..n];
      LastReason(before, reason, after[..n]);
    }
  }

  lemma {:induction false} NoReason(events: seq<C.Upstream>)
    requires forall e :: e in events && e.UpFinish? ==> e.reason.None?
    ensures Reason(events) == None
  {
    if events != [] {
      assert events[|events| - 1] in events;
      NoReason(Before(events));
    }
  }

  /** The last cached count any usage reported, though a later usage may have come without one. */
  function LastCached(events: seq<C.Upstream>): Option<int> {
    if events == [] then None
    else
      match events[|events| - 1]
      case UpUsage(usage) => usage.cached.OrElse(LastCached(Before(events)))
      case _ => LastCached(Before(events))
  }

  lemma {:induction false} NeverCached(events: seq<C.Upstream>)
    ensures LastCached(events).None? <==> forall e :: e in events && e.UpUsage? ==> e.usage.cached.None?
  {
    if events != [] {
      var last := events[|events| - 1];
      NeverCached(Before(events));
      assert events == Before(events) + [last];
    }
  }

  lemma {:induction false} LiveSplits(events: seq<C.Upstream>)
    ensures C.UpDone !in Live(events)
    ensures Live(events) <= events
    ensures C.UpDone in events <==> |Live(events)| < |events| && events[|Live(events)|].UpDone?
    ensures C.UpDone !in events ==> Live(events) == events
  {
    if events != [] && !events[0].UpDone? {
      LiveSplits(events[1..]);
      assert events == [events[0]] + events[1..];
    }
  }

  lemma SplitAtDone(events: seq<C.Upstream>) returns (rest: seq<C.Upstream>)
    requires C.UpDone in events
    ensures events == Live(events) + ([C.UpDone] + rest)
  {
    LiveSplits(events);
    rest := events[|Live(events)| + 1..];
  }

  lemma {:induction false} LiveUntilDone(live: seq<C.Upstream>)
    requires C.UpDone !in live
    ensures Live(live + [C.UpDone]) == live
  {
    if live != [] {
      assert (live + [C.UpDone])[1..] == live[1..] + [C.UpDone];
      LiveUntilDone(live[1..]);
    }
  }

  /** The first `i` events were live; the next is live too unless it is the terminator. */
  lemma StillLive(events: seq<C.Upstream>, live: seq<C.Upstream>, i: nat)
    requires live == Live(events) && i <= |live| && i < |events|
    ensures if events[i].UpDone? then i == |live| else i < |live| && live[i] == events[i]
  {
    LiveSplits(events);
  }

  lemma AllLive(events: seq<C.Upstream>, live: seq<C.Upstream>)
    requires live == Live(events) && |events| <= |live|
    ensures live == events
  {
    LiveSplits(events);
  }
}
