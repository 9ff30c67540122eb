/** The cooldown breaker: a provider that fails too often within a window is passed over for a while. */
module Cooldown {
  import opened Base

  datatype Config = Config(enabled: bool, allowedFails: int, windowMs: int, cooldownMs: nat)

  datatype Health = Health(failures: seq<int>, cooledUntil: Option<int>)

  const HEALTHY := Health([], None)

  /** The failures less than a window old. */
  function Recent(failures: seq<int>, now: int, windowMs: int): seq<int> {
    if failures == [] then []
    else
      Recent(failures[..|failures| - 1], now, windowMs)
      + if now - failures[|failures| - 1] < windowMs then [failures[|failures| - 1]] else []
  }

  function AfterFailure(c: Config, h: Health, now: int): Health {
    var failures := Recent(h.failures, now, c.windowMs) + [now];
    Health(failures, if |failures| >= c.allowedFails then Some(now + c.cooldownMs) else h.cooledUntil)
  }

  /** Cooled until 0 counts as not cooled, 0 being false. */
  predicate Cooled(h: Health) {
    h.cooledUntil.Some? && h.cooledUntil.value != 0
  }

  predicate Available(h: Health, now: int) {
    !Cooled(h) || now > h.cooledUntil.value
  }

  /** Asking heals a provider whose cooldown is over. */
  function AfterAsking(h: Health, now: int): Health {
    if Cooled(h) && now > h.cooledUntil.value then HEALTHY else h
  }

  class CooldownManager {
    const config: Config
    var health: map<string, Health>

    ghost function Of(provider: string): Health
      reads this
    {
      if provider in health then health[provider] else HEALTHY
    }

    constructor (c: Config)
      ensures config == c && health == map[]
    {
      config, health := c, map[];
    }

    method RecordFailure(provider: string, now: int)
      modifies this
      ensures Of(provider) == if config.enabled then AfterFailure(config, old(Of(provider)), now) else old(Of(provider))
      ensures forall p :: p != provider ==> Of(p) == old(Of(p))
    {
      if !config.enabled {
        return;
      }
      var h := if provider in health then health[provider] else HEALTHY;
      var failures := Recent(h.failures, now, config.windowMs) + [now];
      var cooledUntil := h.cooledUntil;
      if |failures| >= config.allowedFails {
        cooledUntil := Some(now + config.cooldownMs);
      }
      health := health[provider := Health(failures, cooledUntil)];
    }

    method RecordSuccess(provider: string)
      modifies this
      ensures Of(provider) == HEALTHY
      ensures forall p :: p != provider ==> Of(p) == old(Of(p))
    {
      if provider in health {
        health := health[provider := HEALTHY];
      }
    }

    method IsAvailable(provider: string, now: int) returns (available: bool)
      modifies this
      ensures available == (!config.enabled || Available(old(Of(provider)), now))
      ensures Of(provider) == if config.enabled then AfterAsking(old(Of(provider)), now) else old(Of(provider))
      ensures forall p :: p != provider ==> Of(p) == old(Of(p))
    {
      if !config.enabled {
        return true;
      }
      if provider !in health || health[provider].cooledUntil.None? || health[provider].cooledUntil.value == 0 {
        return true;
      }
      if now > health[provider].cooledUntil.value {
        health := health[provider := HEALTHY];
        return true;
      }
      return false;
    }
  }

  // ----- A breaker that forgets nothing -----

  datatype Op = Fail(at: int) | Succeed(at: int) | Ask(at: int)

  /** The `k`-th failure came with enough failures less than a window before it, itself included. */
  predicate Trips(c: Config, failures: seq<int>, k: nat)
    requires k < |failures|
  {
    |Recent(failures[..k], failures[k], c.windowMs)| + 1 >= c.allowedFails
  }

  /** The failures before the `n`-th that are less than a window old at some time. */
  function Young(failures: seq<int>, n: nat, now: int, windowMs: int): set<nat>
    requires n <= |failures|
  {
    set i: nat | i < n && now - failures[i] < windowMs
  }

  lemma {:induction false} RecentCounts(failures: seq<int>, n: nat, now: int, windowMs: int)
    requires n <= |failures|
    ensures |Recent(failures[..n], now, windowMs)| == |Young(failures, n, now, windowMs)|
    decreases n
  {
    if n == 0 {
      assert Young(failures, 0, now, windowMs) == {};
    } else {
      var m := n - 1;
      RecentCounts(failures, m, now, windowMs);
      assert failures[..n][..m] == failures[..m];
      var older, young := Young(failures, m, now, windowMs), Young(failures, n, now, windowMs);
      assert young == older + if now - failures[m] < windowMs then {m} else {};
      assert m !in older;
    }
  }

  /** A failure trips the breaker when it makes enough failures less than a window old, itself included. */
  lemma TripsIs(c: Config, failures: seq<int>, k: nat)
    requires k < |failures|
    ensures Trips(c, failures, k) <==> |Young(failures, k, failures[k], c.windowMs)| + 1 >= c.allowedFails
  {
    RecentCounts(failures, k, failures[k], c.windowMs);
  }

  /** Some failure tripped the breaker, and its cooldown is not over. */
  ghost predicate Cooling(c: Config, failures: seq<int>, now: int) {
    exists k :: 0 <= k < |failures| && Trips(c, failures, k) && now <= failures[k] + c.cooldownMs
  }

  ghost predicate Tripped(c: Config, failures: seq<int>) {
    exists k :: 0 <= k < |failures| && Trips(c, failures, k)
  }

  /** Every failure since the provider last succeeded, or was last asked for once its cooldown was over. */
  ghost function Since(c: Config, trace: seq<Op>): seq<int> {
    if trace == [] then []
    else
      var before := Since(c, trace[..|trace| - 1]);
      match trace[|trace| - 1]
      case Fail(at) => before + [at]
      case Succeed(_) => []
      case Ask(at) => if Tripped(c, before) && !Cooling(c, before, at) then [] else before
  }

  /** What the breaker holds of a provider after some operations on it. */
  function HealthAfter(c: Config, trace: seq<Op>): Health {
    if trace == [] then HEALTHY
    else
      var before := HealthAfter(c, trace[..|trace| - 1]);
      match trace[|trace| - 1]
      case Fail(at) => AfterFailure(c, before, at)
      case Succeed(_) => HEALTHY
      case Ask(at) => AfterAsking(before, at)
  }

  /** A clock that runs, and does not run backwards. */
  ghost predicate Clocked(trace: seq<Op>) {
    && (forall i :: 0 <= i < |trace| ==> trace[i].at > 0)
    && forall i, j :: 0 <= i < j < |trace| ==> trace[i].at <= trace[j].at
  }

  ghost predicate Sorted(failures: seq<int>) {
    forall i, j :: 0 <= i < j < |failures| ==> failures[i] <= failures[j]
  }

  /** The last failure that tripped the breaker. */
  function LastTrip(c: Config, failures: seq<int>): Option<int> {
    if failures == [] then None
    else
      var n := |failures| - 1;
      if Trips(c, failures, n) then Some(failures[n]) else LastTrip(c, failures[..n])
  }

  lemma {:induction false} RecentTwice(failures: seq<int>, earlier: int, now: int, windowMs: int)
    requires earlier <= now
    ensures Recent(Recent(failures, earlier, windowMs), now, windowMs) == Recent(failures, now, windowMs)
  {
    if failures != [] {
      var n := |failures| - 1;
      RecentTwice(failures[..n], earlier, now, windowMs);
      var kept := Recent(failures[..n], earlier, windowMs);
      assert kept + [] == kept && Recent(failures[..n], now, windowMs) + [] == Recent(failures[..n], now, windowMs);
      if earlier - failures[n] < windowMs {
        RecentSnoc(kept, failures[n], now, windowMs);
      }
    }
  }

  lemma RecentSnoc(failures: seq<int>, at: int, now: int, windowMs: int)
    ensures Recent(failures + [at], now, windowMs) ==
            Recent(failures, now, windowMs) + if now - at < windowMs then [at] else []
  {
    var longer := failures + [at];
    assert longer[..|longer| - 1] == failures && longer[|longer| - 1] == at;
  }

  lemma TripsBefore(c: Config, failures: seq<int>, at: int, k: nat)
    requires k < |failures|
    ensures Trips(c, failures + [at], k) == Trips(c, failures, k)
  {
    assert (failures + [at])[..k] == failures[..k];
  }

  /** One more failure. */
  lemma TripSnoc(c: Config, failures: seq<int>, at: int, now: int)
    ensures var longer := failures + [at];
            var trips := Trips(c, longer, |failures|);
            && (Tripped(c, longer) <==> Tripped(c, failures) || trips)
            && (Cooling(c, longer, now) <==> Cooling(c, failures, now) || (trips && now <= at + c.cooldownMs))
  {
    var longer := failures + [at];
    forall k | 0 <= k < |failures|
      ensures Trips(c, longer, k) == Trips(c, failures, k) && longer[k] == failures[k]
    {
      TripsBefore(c, failures, at, k);
    }
    if Tripped(c, failures) {
      var k :| 0 <= k < |failures| && Trips(c, failures, k);
      assert Trips(c, longer, k);
    }
    if Cooling(c, failures, now) {
      var k :| 0 <= k < |failures| && Trips(c, failures, k) && now <= failures[k] + c.cooldownMs;
      assert Trips(c, longer, k);
    }
  }

  /** Failures only get later, so the last trip decides. */
  lemma {:induction false} LastTripDecides(c: Config, failures: seq<int>, now: int, last: Option<int>)
    requires Sorted(failures) && last == LastTrip(c, failures)
    ensures Tripped(c, failures) <==> last.Some?
    ensures Cooling(c, failures, now) <==> last.Some? && now <= last.value + c.cooldownMs
    ensures last.Some? ==> last.value in failures
    decreases failures
  {
    if failures != [] {
      var n := |failures| - 1;
      var before := LastTrip(c, failures[..n]);
      LastTripDecides(c, failures[..n], now, before);
      assert failures == failures[..n] + [failures[n]];
      TripSnoc(c, failures[..n], failures[n], now);
    }
  }

  /** The breaker holds the failures that can still count, and the end of the last cooldown. */
  ghost predicate Remembers(c: Config, h: Health, failures: seq<int>) {
    && h.failures == (if failures == [] then []
                      else Recent(failures[..|failures| - 1], failures[|failures| - 1], c.windowMs)
                           + [failures[|failures| - 1]])
    && h.cooledUntil == match LastTrip(c, failures) case None => None case Some(at) => Some(at + c.cooldownMs)
  }

  lemma FailureRemembered(c: Config, h: Health, failures: seq<int>, at: int)
    requires Remembers(c, h, failures) && (failures != [] ==> failures[|failures| - 1] <= at)
    ensures Remembers(c, AfterFailure(c, h, at), failures + [at])
  {
    var longer := failures + [at];
    assert longer[..|longer| - 1] == failures && longer[|longer| - 1] == at;
    if failures != [] {
      var n := |failures| - 1;
      RecentSnoc(Recent(failures[..n], failures[n], c.windowMs), failures[n], at, c.windowMs);
      RecentTwice(failures[..n], failures[n], at, c.windowMs);
    }
  }

  lemma AnswerRemembered(c: Config, h: Health, failures: seq<int>, now: int)
    requires Remembers(c, h, failures) && Sorted(failures) && forall at :: at in failures ==> at > 0
    ensures Available(h, now) <==> !Cooling(c, failures, now)
    ensures Cooled(h) && now > h.cooledUntil.value <==> Tripped(c, failures) && !Cooling(c, failures, now)
  {
    LastTripDecides(c, failures, now, LastTrip(c, failures));
  }

  ghost predicate Past(failures: seq<int>, now: int) {
    Sorted(failures) && forall at :: at in failures ==> 0 < at <= now
  }

  lemma PastSnoc(failures: seq<int>, earlier: int, at: int)
    requires Past(failures, earlier) && earlier <= at && 0 < at
    ensures Past(failures + [at], at) && Past(failures, at)
  {
    forall i | 0 <= i < |failures|
      ensures failures[i] <= at
    {
      assert failures[i] in failures;
    }
  }

  lemma {:induction false} SinceIsPast(c: Config, trace: seq<Op>, now: int)
    requires Clocked(trace) && 0 < now && forall op :: op in trace ==> op.at <= now
    ensures Past(Since(c, trace), now)
    decreases trace
  {
    if trace != [] {
      var n := |trace| - 1;
      assert trace[n] in trace;
      assert forall op :: op in trace[..n] ==> op.at <= trace[n].at;
      SinceIsPast(c, trace[..n], trace[n].at);
      PastSnoc(Since(c, trace[..n]), trace[n].at, trace[n].at);
    }
  }

  /** Whatever happens to a provider, the breaker remembers what matters of its failures. */
  lemma {:induction false} AlwaysRemembers(c: Config, trace: seq<Op>)
    requires Clocked(trace)
    ensures Remembers(c, HealthAfter(c, trace), Since(c, trace))
  {
    if trace != [] {
      var n := |trace| - 1;
      var before, failures := HealthAfter(c, trace[..n]), Since(c, trace[..n]);
      AlwaysRemembers(c, trace[..n]);
      assert forall op :: op in trace[..n] ==> op.at <= trace[n].at;
      SinceIsPast(c, trace[..n], trace[n].at);
      match trace[n] {
        case Fail(at) =>
          assert failures != [] ==> failures[|failures| - 1] in failures;
          FailureRemembered(c, before, failures, at);
        case Succeed(_) =>
        case Ask(at) => AnswerRemembered(c, before, failures, at);
      }
    }
  }

  /**
   * Pruning is not observable: on a clock that does not run backwards the breaker answers as one that
   * keeps every failure since the last clear. A provider is passed over exactly while the cooldown of a
   * failure that tripped the breaker lasts.
   */
  lemma AnswersAsIfNothingPruned(c: Config, trace: seq<Op>, now: int)
    requires Clocked(trace + [Ask(now)])
    ensures Available(HealthAfter(c, trace), now) <==> !Cooling(c, Since(c, trace), now)
  {
    var all := trace + [Ask(now)];
    assert all[|trace|] == Ask(now);
    assert forall i :: 0 <= i < |trace| ==> all[i] == trace[i];
    assert Clocked(trace);
    forall op | op in trace
      ensures op.at <= now
    {
      var i :| 0 <= i < |trace| && trace[i] == op;
      assert all[i].at <= all[|trace|].at;
    }
    AlwaysRemembers(c, trace);
    SinceIsPast(c, trace, now);
    AnswerRemembered(c, HealthAfter(c, trace), Since(c, trace), now);
  }
}
