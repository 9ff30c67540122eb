/**
 * The work queue of the gateway's attempt loop: planned hops, same-model retry,
 * account rotation and reliability fallback.
 */
module Routing {
  import opened Base

  datatype Category =
    | ClientValidation | ClientAuth | PolicyRejected | CapabilityUnsupported | ProviderAuth | ProviderRateLimited
    | ProviderOverloaded | ProviderValidation | ProviderTimeout | ProviderConnection | ProviderStream
    | ClientCancelled | BudgetExceeded | Internal

  /** Faults a further attempt cannot help with. */
  const DETERMINISTIC := {ClientCancelled, ClientValidation, ClientAuth, PolicyRejected, CapabilityUnsupported,
                          ProviderValidation, BudgetExceeded}

  /** Faults that justify another candidate, and those that justify the same one again. */
  const RELIABILITY := {ProviderRateLimited, ProviderOverloaded, ProviderTimeout, ProviderConnection}
  const RETRYABLE := {ProviderConnection, ProviderTimeout}

  datatype Trigger = Reliability | Downgrade | Rotation

  datatype Hop = Hop(provider: string, model: string, account: Option<string>, fallbackFrom: Option<string>,
                     trigger: Option<Trigger>, retryCount: nat)

  datatype RetryPolicy = RetryPolicy(maxRetries: nat, baseDelayMs: nat, maxDelayMs: nat, jitter: bool)

  datatype Config = Config(policy: RetryPolicy, triggerStatuses: seq<int>, accounts: string -> seq<string>)

  /** The random source: a number in [0, 1). */
  type Fraction = r: real | 0.0 <= r < 1.0 witness 0.0

  /** `Math.round`. */
  function Round(x: real): (n: int)
    ensures x - 0.5 < n as real <= x + 0.5
  {
    (x + 0.5).Floor
  }

  lemma Scaled(rand: Fraction, half: real)
    requires 0.0 <= half
    ensures 0.0 <= rand * half <= half
  {
  }

  lemma RoundBetween(low: real, x: real, high: int)
    requires low <= x <= high as real
    ensures low - 0.5 < Round(x) as real && Round(x) <= high
  {
    var r := Round(x);
    assert r as real <= x + 0.5 < r as real + 1.0;
    assert r as real < (high + 1) as real;
  }

  /** Full jitter over the upper half of a delay. */
  function Jitter(exp: nat, rand: Fraction): (ms: int)
    ensures exp <= 2 * ms && ms <= exp
    ensures var half := exp as real / 2.0; half + rand * half - 0.5 < ms as real <= half + rand * half + 0.5
  {
    var half := exp as real / 2.0;
    Scaled(rand, half);
    RoundBetween(half, half + rand * half, exp);
    Round(half + rand * half)
  }

  /** `backoffDelayMs`: between half the capped exponential delay and the whole of it. */
  function Backoff(retry: nat, policy: RetryPolicy, rand: Fraction): (ms: int)
    ensures var exp := Min(policy.maxDelayMs, policy.baseDelayMs * Pow2(retry));
            && exp <= 2 * ms && ms <= exp <= policy.maxDelayMs
            && (if policy.jitter then ms == Jitter(exp, rand) else ms == exp)
  {
    var exp := Min(policy.maxDelayMs, policy.baseDelayMs * Pow2(retry));
    if policy.jitter then Jitter(exp, rand) else exp
  }

  predicate ShouldRetry(category: Category, retryCount: nat, policy: RetryPolicy, preStream: bool) {
    preStream && category in RETRYABLE && retryCount < policy.maxRetries
  }

  predicate IsReliability(category: Category, status: Option<int>, triggerStatuses: seq<int>) {
    category in RELIABILITY || (status.Some? && status.value in triggerStatuses)
  }

  /** The hops still planned, and how many accounts of each provider have been rotated past. */
  datatype Work = Work(hops: seq<Hop>, cursor: map<string, nat>) {
    function Used(provider: string): nat {
      if provider in cursor then cursor[provider] else 0
    }
  }

  /** A candidate linked to the hop it stands in for. */
  function Stamped(next: Hop, failed: Hop): Hop {
    next.(fallbackFrom := Some(failed.model), trigger := Some(Reliability))
  }

  function RetryOf(hop: Hop): Hop {
    hop.(retryCount := hop.retryCount + 1, fallbackFrom := Some(hop.model), trigger := Some(Reliability))
  }

  function RotationOf(hop: Hop, account: string): Hop {
    Hop(hop.provider, hop.model, Some(account), Some(hop.model), Some(Rotation), 0)
  }

  /** `nextFallbackHop`: the work that goes on, or nothing when the failure is terminal. */
  function Fallback(w: Work, hop: Hop, category: Category, status: Option<int>, config: Config): Option<Work> {
    var accounts := config.accounts(hop.provider);
    var used := w.Used(hop.provider);
    if category in DETERMINISTIC then None
    else if category == ProviderAuth then
      if used + 1 < |accounts|
      then Some(Work([RotationOf(hop, accounts[used + 1])] + w.hops, w.cursor[hop.provider := used + 1]))
      else None
    else if w.hops != [] && IsReliability(category, status, config.triggerStatuses) then
      Some(w.(hops := [Stamped(w.hops[0], hop)] + w.hops[1..]))
    else None
  }

  /** `advanceAfterFailure`. */
  function Advance(w: Work, hop: Hop, category: Category, status: Option<int>, preStream: bool, config: Config)
    : Option<Work>
  {
    if ShouldRetry(category, hop.retryCount, config.policy, preStream) then Some(w.(hops := [RetryOf(hop)] + w.hops))
    else Fallback(w, hop, category, status, config)
  }

  /** A lost connection or a timeout before the stream, with a retry left, puts the same hop back. */
  lemma RetryIs(w: Work, hop: Hop, category: Category, status: Option<int>, preStream: bool, config: Config)
    requires preStream && (category == ProviderConnection || category == ProviderTimeout)
    requires hop.retryCount < config.policy.maxRetries
    ensures Advance(w, hop, category, status, preStream, config) ==
            Some(w.(hops := [Hop(hop.provider, hop.model, hop.account, Some(hop.model), Some(Reliability),
                                 hop.retryCount + 1)] + w.hops))
  {
    assert ShouldRetry(category, hop.retryCount, config.policy, preStream);
  }

  /** A provider's refusal of the account goes to exactly its next account while there is one, and nowhere else. */
  lemma RotationIs(w: Work, hop: Hop, status: Option<int>, preStream: bool, config: Config)
    ensures var accounts := config.accounts(hop.provider);
            var used := if hop.provider in w.cursor then w.cursor[hop.provider] else 0;
            Advance(w, hop, ProviderAuth, status, preStream, config) ==
            if used + 1 < |accounts| then
              Some(Work([Hop(hop.provider, hop.model, Some(accounts[used + 1]), Some(hop.model), Some(Rotation), 0)]
                        + w.hops, w.cursor[hop.provider := used + 1]))
            else None
  {
    assert !ShouldRetry(ProviderAuth, hop.retryCount, config.policy, preStream);
  }

  /** The failures worth another candidate. */
  predicate WorthAnother(category: Category, status: Option<int>, config: Config) {
    && category != ClientCancelled && category != ClientValidation && category != ClientAuth
    && category != PolicyRejected && category != CapabilityUnsupported && category != ProviderValidation
    && category != BudgetExceeded && category != ProviderAuth
    && (|| category == ProviderRateLimited || category == ProviderOverloaded
        || category == ProviderTimeout || category == ProviderConnection
        || (status.Some? && status.value in config.triggerStatuses))
  }

  /**
   * Any other fault goes to the waiting candidate, on its own provider and model, when it is one of the four
   * reliability faults or came with a trigger status, and nowhere else.
   */
  lemma FallbackIs(w: Work, hop: Hop, category: Category, status: Option<int>, preStream: bool, config: Config)
    requires category != ProviderAuth
    requires !(preStream && (category == ProviderConnection || category == ProviderTimeout)
               && hop.retryCount < config.policy.maxRetries)
    ensures Advance(w, hop, category, status, preStream, config) ==
            if WorthAnother(category, status, config) && w.hops != [] then
              Some(w.(hops := [Hop(w.hops[0].provider, w.hops[0].model, w.hops[0].account, Some(hop.model),
                                   Some(Reliability), w.hops[0].retryCount)] + w.hops[1..]))
            else None
  {
    assert !ShouldRetry(category, hop.retryCount, config.policy, preStream);
  }

  class WorkQueue {
    var hops: seq<Hop>
    var cursor: map<string, nat>

    ghost function Contents(): Work
      reads this
    {
      Work(hops, cursor)
    }

    constructor (planned: seq<Hop>)
      ensures Contents() == Work(planned, map[])
    {
      hops, cursor := planned, map[];
    }

    /** Take the next hop off the queue. */
    method Shift() returns (hop: Hop)
      requires hops != []
      modifies this
      ensures Contents() == Work(old(hops)[1..], old(cursor)) && hop == old(hops)[0]
    {
      hop := hops[0];
      hops := hops[1..];
    }

    /** Link the next candidate to the hop it stands in for. */
    method StampNext(failed: Hop)
      requires hops != []
      modifies this
      ensures Contents() == old(Contents()).(hops := [Stamped(old(hops)[0], failed)] + old(hops)[1..])
    {
      hops := hops[0 := Stamped(hops[0], failed)];
    }

    method NextFallbackHop(category: Category, status: Option<int>, hop: Hop, config: Config) returns (more: bool)
      modifies this
      ensures var next := Fallback(old(Contents()), hop, category, status, config);
              more == next.Some? && Contents() == next.GetOr(old(Contents()))
    {
      if category in DETERMINISTIC {
        return false;
      }
      if category == ProviderAuth {
        var accounts := config.accounts(hop.provider);
        var used := if hop.provider in cursor then cursor[hop.provider] else 0;
        if used + 1 < |accounts| {
          cursor := cursor[hop.provider := used + 1];
          hops := [RotationOf(hop, accounts[used + 1])] + hops;
          return true;
        }
        return false;
      }
      if |hops| > 0 && IsReliability(category, status, config.triggerStatuses) {
        StampNext(hop);
        return true;
      }
      return false;
    }

    /** Also says how long it slept. */
    method AdvanceAfterFailure(category: Category, status: Option<int>, preStream: bool, hop: Hop, config: Config,
                               rand: Fraction)
      returns (more: bool, slept: int)
      modifies this
      ensures var next := Advance(old(Contents()), hop, category, status, preStream, config);
              more == next.Some? && Contents() == next.GetOr(old(Contents()))
      ensures slept == if ShouldRetry(category, hop.retryCount, config.policy, preStream)
                       then Backoff(hop.retryCount, config.policy, rand) else 0
    {
      if ShouldRetry(category, hop.retryCount, config.policy, preStream) {
        slept := Backoff(hop.retryCount, config.policy, rand);
        hops := [RetryOf(hop)] + hops;
        return true, slept;
      }
      slept := 0;
      more := NextFallbackHop(category, status, hop, config);
    }
  }

  // ----- How much work is left -----

  /** The distinct providers of some hops. */
  function Providers(hops: seq<Hop>): (ps: seq<string>)
    ensures forall i, j :: 0 <= i < j < |ps| ==> ps[i] != ps[j]
    ensures forall h :: h in hops ==> h.provider in ps
  {
    if hops == [] then []
    else
      var rest := Providers(hops[1..]);
      if hops[0].provider in rest then rest else [hops[0].provider] + rest
  }

  function Spare(accounts: seq<string>, used: nat): nat {
    if used + 1 < |accounts| then |accounts| - 1 - used else 0
  }

  /** The rotations still possible. */
  function RotationsLeft(ps: seq<string>, config: Config, w: Work): nat {
    if ps == [] then 0
    else Spare(config.accounts(ps[0]), w.Used(ps[0])) + RotationsLeft(ps[1..], config, w)
  }

  lemma {:induction false} RotationsElsewhere(ps: seq<string>, config: Config, w: Work, w': Work, p: string)
    requires p !in ps && forall q :: q != p ==> w.Used(q) == w'.Used(q)
    ensures RotationsLeft(ps, config, w') == RotationsLeft(ps, config, w)
    decreases ps
  {
    if ps != [] {
      RotationsElsewhere(ps[1..], config, w, w', p);
    }
  }

  lemma {:induction false} RotationSpends(ps: seq<string>, config: Config, w: Work, w': Work, p: string)
    requires p in ps && forall i, j :: 0 <= i < j < |ps| ==> ps[i] != ps[j]
    requires forall q :: q != p ==> w.Used(q) == w'.Used(q)
    requires w'.Used(p) == w.Used(p) + 1 < |config.accounts(p)|
    ensures RotationsLeft(ps, config, w') == RotationsLeft(ps, config, w) - 1
    decreases ps
  {
    if ps[0] == p {
      RotationsElsewhere(ps[1..], config, w, w', p);
    } else {
      RotationSpends(ps[1..], config, w, w', p);
    }
  }

  lemma {:induction false} RotationsSame(ps: seq<string>, config: Config, w: Work, w': Work)
    requires w.cursor == w'.cursor
    ensures RotationsLeft(ps, config, w') == RotationsLeft(ps, config, w)
    decreases ps
  {
    if ps != [] {
      RotationsSame(ps[1..], config, w, w');
    }
  }

  /** The queue at a loop head: never empty, only its head ever retried, its providers all known. */
  ghost predicate Planned(ps: seq<string>, config: Config, w: Work) {
    && w.hops != [] && w.hops[0].retryCount <= config.policy.maxRetries
    && (forall i :: 1 <= i < |w.hops| ==> w.hops[i].retryCount == 0)
    && (forall h :: h in w.hops ==> h.provider in ps)
    && (forall i, j :: 0 <= i < j < |ps| ==> ps[i] != ps[j])
  }

  /** Upstream calls, and same-model retries, the queue can still cost. */
  function CallsLeft(ps: seq<string>, config: Config, w: Work): int
    requires w.hops != []
  {
    (|w.hops| + RotationsLeft(ps, config, w)) * (config.policy.maxRetries + 1) - w.hops[0].retryCount
  }

  function RetriesLeft(ps: seq<string>, config: Config, w: Work): int
    requires w.hops != []
  {
    (|w.hops| + RotationsLeft(ps, config, w)) * config.policy.maxRetries - w.hops[0].retryCount
  }

  lemma Fewer(a: nat, b: nat, m: nat)
    requires b < a
    ensures b * m <= a * m - m
  {
    assert a * m - b * m == (a - b) * m;
    assert (a - b - 1) * m >= 0;
  }

  /** The linkage an attempt carries: the model of the hop before it, and why it was made. */
  predicate Follows(before: Hop, next: Hop) {
    next.fallbackFrom == Some(before.model) && next.trigger.Some?
  }

  /** The measure of the loop: hops, then rotations, then retries of the head. */
  predicate Smaller(ps: seq<string>, config: Config, w: Work, w': Work)
    requires w.hops != [] && w'.hops != []
  {
    || |w'.hops| < |w.hops|
    || (|w'.hops| == |w.hops|
        && (|| RotationsLeft(ps, config, w') < RotationsLeft(ps, config, w)
            || (RotationsLeft(ps, config, w') == RotationsLeft(ps, config, w)
                && w'.hops[0].retryCount > w.hops[0].retryCount)))
  }

  /** What one superseded hop leaves. */
  ghost predicate MovesOn(ps: seq<string>, config: Config, w: Work, w': Work, retried: bool)
    requires w.hops != []
  {
    && Planned(ps, config, w') && Follows(w.hops[0], w'.hops[0]) && Smaller(ps, config, w, w')
    && CallsLeft(ps, config, w') < CallsLeft(ps, config, w)
    && RetriesLeft(ps, config, w') + (if retried then 1 else 0) <= RetriesLeft(ps, config, w)
  }

  lemma FewerHopsMoveOn(ps: seq<string>, config: Config, w: Work, w': Work)
    requires Planned(ps, config, w) && Planned(ps, config, w') && Follows(w.hops[0], w'.hops[0])
    requires |w'.hops| + RotationsLeft(ps, config, w') < |w.hops| + RotationsLeft(ps, config, w)
    requires Smaller(ps, config, w, w')
    ensures MovesOn(ps, config, w, w', false)
  {
    var a, b := |w.hops| + RotationsLeft(ps, config, w), |w'.hops| + RotationsLeft(ps, config, w');
    Fewer(a, b, config.policy.maxRetries + 1);
    Fewer(a, b, config.policy.maxRetries);
  }

  /** Skipping to the next candidate. */
  lemma SkipMovesOn(ps: seq<string>, config: Config, w: Work)
    requires Planned(ps, config, w) && |w.hops| > 1
    ensures MovesOn(ps, config, w, w.(hops := [Stamped(w.hops[1], w.hops[0])] + w.hops[2..]), false)
  {
    var w' := w.(hops := [Stamped(w.hops[1], w.hops[0])] + w.hops[2..]);
    RotationsSame(ps, config, w, w');
    assert w.hops[1] in w.hops;
    assert forall i :: 1 <= i < |w'.hops| ==> w'.hops[i] == w.hops[i + 1];
    FewerHopsMoveOn(ps, config, w, w');
  }

  lemma RetryMovesOn(ps: seq<string>, config: Config, w: Work)
    requires Planned(ps, config, w) && w.hops[0].retryCount < config.policy.maxRetries
    ensures MovesOn(ps, config, w, w.(hops := [RetryOf(w.hops[0])] + w.hops[1..]), true)
  {
    var w' := w.(hops := [RetryOf(w.hops[0])] + w.hops[1..]);
    RotationsSame(ps, config, w, w');
    assert w.hops[0] in w.hops;
    assert forall i :: 1 <= i < |w'.hops| ==> w'.hops[i] == w.hops[i];
  }

  lemma RotationMovesOn(ps: seq<string>, config: Config, w: Work, account: string)
    requires Planned(ps, config, w) && w.Used(w.hops[0].provider) + 1 < |config.accounts(w.hops[0].provider)|
    ensures var p := w.hops[0].provider;
            MovesOn(ps, config, w,
                    Work([RotationOf(w.hops[0], account)] + w.hops[1..], w.cursor[p := w.Used(p) + 1]), false)
  {
    var p := w.hops[0].provider;
    var w' := Work([RotationOf(w.hops[0], account)] + w.hops[1..], w.cursor[p := w.Used(p) + 1]);
    assert w.hops[0] in w.hops;
    RotationSpends(ps, config, w, w', p);
    assert forall i :: 1 <= i < |w'.hops| ==> w'.hops[i] == w.hops[i];
    FewerHopsMoveOn(ps, config, w, w');
  }

  lemma FallbackMovesOn(ps: seq<string>, config: Config, w: Work, category: Category, status: Option<int>)
    requires Planned(ps, config, w)
    ensures var next := Fallback(w.(hops := w.hops[1..]), w.hops[0], category, status, config);
            next.Some? ==> category !in DETERMINISTIC && MovesOn(ps, config, w, next.value, false)
  {
    var hop := w.hops[0];
    if category == ProviderAuth {
      var accounts, used := config.accounts(hop.provider), w.Used(hop.provider);
      if used + 1 < |accounts| {
        RotationMovesOn(ps, config, w, accounts[used + 1]);
      }
    } else if |w.hops| > 1 {
      SkipMovesOn(ps, config, w);
      assert w.hops[1..][1..] == w.hops[2..];
    }
  }

  /**
   * Whatever a failed hop leaves to do is planned, linked to that hop, and strictly less; a
   * deterministic fault leaves nothing.
   */
  lemma AdvanceMovesOn(ps: seq<string>, config: Config, w: Work, category: Category, status: Option<int>,
                       preStream: bool)
    requires Planned(ps, config, w)
    ensures var hop := w.hops[0];
            var next := Advance(w.(hops := w.hops[1..]), hop, category, status, preStream, config);
            next.Some? ==> category !in DETERMINISTIC
                           && MovesOn(ps, config, w, next.value,
                                      ShouldRetry(category, hop.retryCount, config.policy, preStream))
  {
    if ShouldRetry(category, w.hops[0].retryCount, config.policy, preStream) {
      RetryMovesOn(ps, config, w);
    } else {
      FallbackMovesOn(ps, config, w, category, status);
    }
  }

  lemma StartsPlanned(config: Config, planned: seq<Hop>)
    requires planned != [] && forall h :: h in planned ==> h.retryCount == 0
    ensures Planned(Providers(planned), config, Work(planned, map[]))
  {
    assert planned[0] in planned;
    assert forall i :: 1 <= i < |planned| ==> planned[i] in planned;
  }
}
