/** The fixed-window per-client limiter of the estimate endpoint. */
module RateLimiter {
  import opened Base

  datatype Window = Window(count: nat, start: int)

  datatype Limits = Limits(limit: int, windowMs: int)

  datatype Answer = Allowed | Refused(retryAfterMs: int)

  predicate Over(l: Limits, w: Window, now: int) {
    now - w.start >= l.windowMs
  }

  /** One call of a client whose window, if it has one, is this. */
  function Checked(l: Limits, w: Option<Window>, now: int): (Answer, Window) {
    if w.None? || Over(l, w.value, now) then (Allowed, Window(1, now))
    else if w.value.count >= l.limit then (Refused(l.windowMs - (now - w.value.start)), w.value)
    else (Allowed, w.value.(count := w.value.count + 1))
  }

  function Purged(l: Limits, w: Option<Window>, now: int): Option<Window> {
    if w.Some? && Over(l, w.value, now) then None else w
  }

  class EstimateRateLimiter {
    const limits: Limits
    var windows: map<string, Window>

    ghost function Of(client: string): Option<Window>
      reads this
    {
      if client in windows then Some(windows[client]) else None
    }

    constructor (l: Limits)
      ensures limits == l && windows == map[]
    {
      limits, windows := l, map[];
    }

    method Check(client: string, now: int) returns (answer: Answer)
      modifies this
      ensures answer == Checked(limits, old(Of(client)), now).0
      ensures Of(client) == Some(Checked(limits, old(Of(client)), now).1)
      ensures forall other :: other != client ==> Of(other) == old(Of(other))
    {
      if client !in windows || now - windows[client].start >= limits.windowMs {
        windows := windows[client := Window(1, now)];
        return Allowed;
      }
      var entry := windows[client];
      if entry.count >= limits.limit {
        return Refused(limits.windowMs - (now - entry.start));
      }
      windows := windows[client := entry.(count := entry.count + 1)];
      answer := Allowed;
    }

    /** Drop the windows that are over. */
    method Purge(now: int)
      modifies this
      ensures forall client :: Of(client) == Purged(limits, old(Of(client)), now)
    {
      windows := map client | client in windows && now - windows[client].start < limits.windowMs :: windows[client];
    }
  }

  // ----- Runs of one client -----

  /** The client's window after some calls. */
  function After(l: Limits, calls: seq<int>): Option<Window> {
    if calls == [] then None
    else Some(Checked(l, After(l, calls[..|calls| - 1]), calls[|calls| - 1]).1)
  }

  /** Whether the last of some calls is allowed. */
  predicate LastAllowed(l: Limits, calls: seq<int>)
    requires calls != []
  {
    Checked(l, After(l, calls[..|calls| - 1]), calls[|calls| - 1]).0.Allowed?
  }

  /** The calls allowed from `from` on and before `to`. */
  function AllowedBetween(l: Limits, calls: seq<int>, from: int, to: int): nat {
    if calls == [] then 0
    else
      AllowedBetween(l, calls[..|calls| - 1], from, to)
      + if LastAllowed(l, calls) && from <= calls[|calls| - 1] < to then 1 else 0
  }

  ghost predicate Clocked(calls: seq<int>) {
    forall i, j :: 0 <= i < j < |calls| ==> calls[i] <= calls[j]
  }

  /** A window always lets one call through, even with no limit to speak of. */
  function PerWindow(l: Limits): int {
    if l.limit >= 1 then l.limit else 1
  }

  /** What the client's window says of the calls allowed in the interval so far. */
  ghost predicate Bounded(l: Limits, w: Window, seen: nat, from: int, last: int) {
    && 1 <= w.count <= PerWindow(l) && w.start <= last
    && (last < from ==> seen == 0)
    && (w.start < from ==> seen <= w.count - 1)
    && (from <= w.start < from + l.windowMs ==> seen <= PerWindow(l) - 1 + w.count)
    && seen <= 2 * PerWindow(l) - 1
  }

  lemma CallBounded(l: Limits, w: Option<Window>, seen: nat, from: int, last: int, now: int)
    requires last <= now
    requires if w.Some? then Bounded(l, w.value, seen, from, last) else seen == 0
    ensures var (answer, next) := Checked(l, w, now);
            Bounded(l, next, seen + (if answer.Allowed? && from <= now < from + l.windowMs then 1 else 0), from, now)
  {
  }

  lemma {:induction false} RunBounded(l: Limits, calls: seq<int>, from: int)
    requires Clocked(calls) && calls != []
    ensures Bounded(l, After(l, calls).value, AllowedBetween(l, calls, from, from + l.windowMs), from,
                    calls[|calls| - 1])
    decreases calls
  {
    var n := |calls| - 1;
    if n > 0 {
      RunBounded(l, calls[..n], from);
      CallBounded(l, After(l, calls[..n]), AllowedBetween(l, calls[..n], from, from + l.windowMs), from, calls[n - 1],
                  calls[n]);
    } else {
      CallBounded(l, None, 0, from, calls[0], calls[0]);
      assert calls[..0] == [];
    }
  }

  /**
   * In any half-open interval as long as a window, a client gets fewer calls than two windows allow:
   * an interval that reaches into a second window has left the first call of the first behind.
   */
  lemma FewerThanTwiceTheLimit(l: Limits, calls: seq<int>, from: int)
    requires Clocked(calls)
    ensures AllowedBetween(l, calls, from, from + l.windowMs) < 2 * PerWindow(l)
  {
    if calls != [] {
      RunBounded(l, calls, from);
    }
  }

  /** `n` calls at once. */
  function Burst(n: nat, at: int): seq<int> {
    if n == 0 then [] else Burst(n - 1, at) + [at]
  }

  lemma {:induction false} BurstIs(n: nat, at: int)
    ensures |Burst(n, at)| == n && forall i :: 0 <= i < n ==> Burst(n, at)[i] == at
  {
    if n > 0 {
      BurstIs(n - 1, at);
    }
  }

  /** A burst that fits the window is allowed to the last call. */
  lemma {:induction false} BurstFits(l: Limits, calls: seq<int>, w: Window, n: nat, at: int, from: int, to: int,
                                     all: seq<int>, seen: nat)
    requires After(l, calls) == Some(w) && w.count + n <= l.limit && !Over(l, w, at) && from <= at < to
    requires all == calls + Burst(n, at) && seen == AllowedBetween(l, calls, from, to)
    ensures After(l, all) == Some(w.(count := w.count + n))
    ensures AllowedBetween(l, all, from, to) == seen + n
    decreases n
  {
    if n == 0 {
      assert all == calls;
    } else {
      var before := calls + Burst(n - 1, at);
      BurstFits(l, calls, w, n - 1, at, from, to, before, seen);
      assert all == before + [at];
      OneMore(l, before, w.(count := w.count + n - 1), at, from, to);
    }
  }

  lemma OneMore(l: Limits, calls: seq<int>, w: Window, at: int, from: int, to: int)
    requires After(l, calls) == Some(w) && w.count < l.limit && !Over(l, w, at) && from <= at < to
    ensures After(l, calls + [at]) == Some(w.(count := w.count + 1))
    ensures AllowedBetween(l, calls + [at], from, to) == AllowedBetween(l, calls, from, to) + 1
  {
    assert (calls + [at])[..|calls|] == calls;
  }

  /** One early call, a burst at the end of its window, one call and a burst at the start of the next. */
  function Straddle(n: nat, windowMs: int): seq<int> {
    [0] + Burst(n, windowMs - 1) + [windowMs] + Burst(n, windowMs)
  }

  lemma StraddleClocked(n: nat, windowMs: int)
    requires windowMs >= 2
    ensures Clocked(Straddle(n, windowMs))
  {
    BurstIs(n, windowMs - 1);
    BurstIs(n, windowMs);
  }

  lemma FirstBurst(l: Limits)
    requires l.limit >= 1 && l.windowMs >= 2
    ensures var first := [0] + Burst(l.limit - 1, l.windowMs - 1);
            After(l, first) == Some(Window(l.limit, 0)) && AllowedBetween(l, first, 1, 1 + l.windowMs) == l.limit - 1
  {
    var w := l.windowMs;
    assert [0][..0] == [] && After(l, [0]) == Some(Window(1, 0)) && AllowedBetween(l, [0], 1, 1 + w) == 0;
    BurstFits(l, [0], Window(1, 0), l.limit - 1, w - 1, 1, 1 + w, [0] + Burst(l.limit - 1, w - 1), 0);
  }

  lemma NextWindow(l: Limits, first: seq<int>, w: Window, seen: nat)
    requires After(l, first) == Some(w) && w.start == 0 && l.windowMs >= 2
    requires AllowedBetween(l, first, 1, 1 + l.windowMs) == seen
    ensures After(l, first + [l.windowMs]) == Some(Window(1, l.windowMs))
    ensures AllowedBetween(l, first + [l.windowMs], 1, 1 + l.windowMs) == seen + 1
  {
    assert (first + [l.windowMs])[..|first|] == first;
  }

  /** The bound is reached for every limit of at least 1 and every window of at least 2 ms. */
  lemma BoundReached(l: Limits)
    requires l.limit >= 1 && l.windowMs >= 2
    ensures var calls := Straddle(l.limit - 1, l.windowMs);
            Clocked(calls) && AllowedBetween(l, calls, 1, 1 + l.windowMs) == 2 * l.limit - 1
  {
    var w := l.windowMs;
    var first := [0] + Burst(l.limit - 1, w - 1);
    StraddleClocked(l.limit - 1, w);
    FirstBurst(l);
    NextWindow(l, first, Window(l.limit, 0), l.limit - 1);
    BurstFits(l, first + [w], Window(1, w), l.limit - 1, w, 1, 1 + w, first + [w] + Burst(l.limit - 1, w), l.limit);
  }

  /** A refused client that waits as long as it is told is then allowed. */
  lemma WaitIsEnough(l: Limits, w: Window, now: int)
    requires Checked(l, Some(w), now).0.Refused?
    ensures var wait := Checked(l, Some(w), now).0.retryAfterMs;
            wait > 0 && Checked(l, Some(w), now + wait).0.Allowed?
            && forall t :: now <= t < now + wait ==> Checked(l, Some(w), t).0.Refused?
  {
  }

  // ----- Purging is not observable -----

  /** One step of a client's history: a call, or a purge of the whole table. */
  datatype Step = Call(at: int) | Sweep(at: int)

  function AfterSteps(l: Limits, steps: seq<Step>): Option<Window> {
    if steps == [] then None
    else
      var before := AfterSteps(l, steps[..|steps| - 1]);
      match steps[|steps| - 1]
      case Call(at) => Some(Checked(l, before, at).1)
      case Sweep(at) => Purged(l, before, at)
  }

  function CallsOf(steps: seq<Step>): seq<int> {
    if steps == [] then []
    else CallsOf(steps[..|steps| - 1]) + if steps[|steps| - 1].Call? then [steps[|steps| - 1].at] else []
  }

  ghost predicate StepsClocked(steps: seq<Step>) {
    forall i, j :: 0 <= i < j < |steps| ==> steps[i].at <= steps[j].at
  }

  /** The same window, or none where the other is over. */
  ghost predicate Alike(l: Limits, swept: Option<Window>, kept: Option<Window>, now: int) {
    swept == kept || (swept.None? && kept.Some? && Over(l, kept.value, now))
  }

  lemma {:induction false} SweepsLeaveAlike(l: Limits, steps: seq<Step>, now: int)
    requires StepsClocked(steps) && (steps != [] ==> steps[|steps| - 1].at <= now)
    ensures Alike(l, AfterSteps(l, steps), After(l, CallsOf(steps)), now)
    decreases steps
  {
    if steps != [] {
      var n := |steps| - 1;
      SweepsLeaveAlike(l, steps[..n], steps[n].at);
      if steps[n].Call? {
        var calls := CallsOf(steps[..n]) + [steps[n].at];
        assert calls[..|calls| - 1] == CallsOf(steps[..n]);
      } else {
        assert CallsOf(steps[..n]) + [] == CallsOf(steps[..n]);
      }
    }
  }

  /** Purges anywhere in a history change no answer. */
  lemma PurgeChangesNothing(l: Limits, steps: seq<Step>, now: int)
    requires StepsClocked(steps) && (steps != [] ==> steps[|steps| - 1].at <= now)
    ensures Checked(l, AfterSteps(l, steps), now) == Checked(l, After(l, CallsOf(steps)), now)
  {
    SweepsLeaveAlike(l, steps, now);
  }
}
