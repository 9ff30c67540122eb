/**
 * Whole runs of the attempt loop, read off the hops popped so far and what the world answered: which hop comes
 * next or that none does, how the request ends, and what was emitted, called and slept on the way.
 */
module AttemptRuns {
  import opened Base
  import opened Routing
  import opened Lifecycle
  import opened AttemptRules

  // ----- The next hop, from the history alone -----

  /** How many hops of the plan have been popped: neither retries nor rotations of others. */
  function TakenIn(hops: seq<Hop>): nat {
    if hops == [] then 0
    else
      var last := hops[|hops| - 1];
      TakenIn(hops[..|hops| - 1]) + if last.retryCount == 0 && last.trigger != Some(Rotation) then 1 else 0
  }

  /** How often a provider's account has been rotated. */
  function RotationsIn(hops: seq<Hop>, provider: string): nat {
    if hops == [] then 0
    else
      var last := hops[|hops| - 1];
      RotationsIn(hops[..|hops| - 1], provider)
      + if last.retryCount == 0 && last.trigger == Some(Rotation) && last.provider == provider then 1 else 0
  }

  /** An upstream call that failed: what the classifier made of it, and the status it came with. */
  datatype Failure = Failure(category: Category, status: Option<int>)

  /** The failure of a turn in which an available hop was called, if it failed. */
  function FailureOf(now: Turn): Option<Failure> {
    match now.reply
    case Threw(category, aborted) => Some(Failure(if aborted then ClientCancelled else category, None))
    case Answered(status, category, _) =>
      if 200 <= status < 300 then None else Some(Failure(category, Some(status)))
  }

  /** The failures worth the same hop again, before anything was streamed. */
  predicate WorthAgain(f: Failure, hop: Hop, preStream: bool, config: Config) {
    preStream && (f.category == ProviderConnection || f.category == ProviderTimeout)
    && hop.retryCount < config.policy.maxRetries
  }

  /** The next hop of the plan, standing in for the one popped last. */
  function NextPlanned(planned: seq<Hop>, popped: seq<Hop>): Option<Hop>
    requires popped != []
  {
    var n := TakenIn(popped);
    if n < |planned| then
      Some(planned[n].(fallbackFrom := Some(popped[|popped| - 1].model), trigger := Some(Reliability)))
    else None
  }

  /** The hop popped after a failure: the same one again, the same one on its next account, or the plan's next. */
  function AfterFailure(config: Config, planned: seq<Hop>, popped: seq<Hop>, f: Failure, preStream: bool): Option<Hop>
    requires popped != []
  {
    var hop := popped[|popped| - 1];
    var accounts, rotated := config.accounts(hop.provider), RotationsIn(popped, hop.provider);
    if WorthAgain(f, hop, preStream, config) then
      Some(Hop(hop.provider, hop.model, hop.account, Some(hop.model), Some(Reliability), hop.retryCount + 1))
    else if f.category == ProviderAuth then
      if rotated + 1 < |accounts| then
        Some(Hop(hop.provider, hop.model, Some(accounts[rotated + 1]), Some(hop.model), Some(Rotation), 0))
      else None
    else if WorthAnother(f.category, f.status, config) then NextPlanned(planned, popped)
    else None
  }

  /** The hop popped after these, if any, by what the world answers for the last of them. */
  function NextHop(config: Config, planned: seq<Hop>, popped: seq<Hop>, now: Turn): Option<Hop>
    requires popped != []
  {
    if !now.available then NextPlanned(planned, popped)
    else if !now.registered || FailureOf(now).None? then None
    else AfterFailure(config, planned, popped, FailureOf(now).value, now.preStream)
  }

  /** How a request ends on a hop. */
  function EndOf(hop: Hop, now: Turn): Ending {
    if !now.available then Cooling(hop.provider)
    else if !now.registered then Unregistered
    else if FailureOf(now).Some? then Failed(FailureOf(now).value.category, FailureOf(now).value.status)
    else if now.reply.streamed then Streamed(now.reply.status)
    else Buffered(now.reply.status)
  }

  // ----- The run is the one its history calls for -----

  function Popped(stops: seq<Stop>): (hops: seq<Hop>)
    ensures |hops| == |stops|
  {
    seq(|stops|, i requires 0 <= i < |stops| => stops[i].hop)
  }

  /** The queue at a loop head, after some hops: the rest of the plan behind its head, and the rotations so far. */
  ghost predicate Tracks(planned: seq<Hop>, before: seq<Hop>, w: Work) {
    && w.hops != []
    && var popped := before + [w.hops[0]];
       && TakenIn(popped) <= |planned| && w.hops[1..] == planned[TakenIn(popped)..]
       && forall p :: w.Used(p) == RotationsIn(popped, p)
  }

  lemma HistorySnoc(before: seq<Hop>, hop: Hop)
    ensures TakenIn(before + [hop]) ==
            TakenIn(before) + if hop.retryCount == 0 && hop.trigger != Some(Rotation) then 1 else 0
    ensures forall p :: RotationsIn(before + [hop], p) ==
                        RotationsIn(before, p)
                        + if hop.retryCount == 0 && hop.trigger == Some(Rotation) && hop.provider == p then 1 else 0
  {
    assert (before + [hop])[..|before|] == before;
  }

  /** The next candidate of the plan stands in. */
  lemma StampTracks(planned: seq<Hop>, before: seq<Hop>, w: Work)
    requires Tracks(planned, before, w) && forall h :: h in planned ==> h.retryCount == 0
    ensures var popped := before + [w.hops[0]];
            && (|w.hops| == 1 <==> NextPlanned(planned, popped).None?)
            && (|w.hops| > 1 ==>
                  var w' := w.(hops := [Stamped(w.hops[1], w.hops[0])] + w.hops[2..]);
                  NextPlanned(planned, popped) == Some(w'.hops[0]) && Tracks(planned, popped, w'))
  {
    var popped, rest := before + [w.hops[0]], w.hops[1..];
    var n := TakenIn(popped);
    if |w.hops| > 1 {
      assert rest[0] == planned[n] && planned[n] in planned;
      HistorySnoc(popped, Stamped(w.hops[1], w.hops[0]));
      assert w.hops[2..] == planned[n + 1..];
    }
  }

  /** The same hop again. */
  lemma RetryTracks(planned: seq<Hop>, before: seq<Hop>, w: Work)
    requires Tracks(planned, before, w)
    ensures Tracks(planned, before + [w.hops[0]], w.(hops := [RetryOf(w.hops[0])] + w.hops[1..]))
  {
    HistorySnoc(before + [w.hops[0]], RetryOf(w.hops[0]));
    assert ([RetryOf(w.hops[0])] + w.hops[1..])[1..] == w.hops[1..];
  }

  /** The same hop on the provider's next account. */
  lemma RotationTracks(planned: seq<Hop>, before: seq<Hop>, w: Work, account: string)
    requires Tracks(planned, before, w)
    ensures var p := w.hops[0].provider;
            Tracks(planned, before + [w.hops[0]],
                   Work([RotationOf(w.hops[0], account)] + w.hops[1..], w.cursor[p := w.Used(p) + 1]))
  {
    HistorySnoc(before + [w.hops[0]], RotationOf(w.hops[0], account));
    assert ([RotationOf(w.hops[0], account)] + w.hops[1..])[1..] == w.hops[1..];
  }

  /** What a failure leaves is what the history calls for, and the queue keeps track of it. */
  lemma FailureTracks(config: Config, planned: seq<Hop>, before: seq<Hop>, w: Work, f: Failure, preStream: bool)
    requires Tracks(planned, before, w) && forall h :: h in planned ==> h.retryCount == 0
    ensures var popped := before + [w.hops[0]];
            var next := AfterFailure(config, planned, popped, f, preStream);
            var work := Advance(w.(hops := w.hops[1..]), w.hops[0], f.category, f.status, preStream, config);
            && next.Some? == work.Some?
            && (next.Some? ==> work.value.hops != [] && next == Some(work.value.hops[0])
                               && Tracks(planned, popped, work.value))
  {
    var hop, rest := w.hops[0], w.(hops := w.hops[1..]);
    if WorthAgain(f, hop, preStream, config) {
      RetryIs(rest, hop, f.category, f.status, preStream, config);
      RetryTracks(planned, before, w);
    } else if f.category == ProviderAuth {
      RotationIs(rest, hop, f.status, preStream, config);
      AuthTracks(config, planned, before, w);
    } else {
      FallbackIs(rest, hop, f.category, f.status, preStream, config);
      StampTracks(planned, before, w);
      assert |w.hops| > 1 ==> rest.hops[0] == w.hops[1] && rest.hops[1..] == w.hops[2..];
    }
  }

  lemma AuthTracks(config: Config, planned: seq<Hop>, before: seq<Hop>, w: Work)
    requires Tracks(planned, before, w)
    ensures var p := w.hops[0].provider;
            var accounts, used := config.accounts(p), w.Used(p);
            && RotationsIn(before + [w.hops[0]], p) == used
            && (used + 1 < |accounts| ==>
                  Tracks(planned, before + [w.hops[0]],
                         Work([RotationOf(w.hops[0], accounts[used + 1])] + w.hops[1..], w.cursor[p := used + 1])))
  {
    var p := w.hops[0].provider;
    if w.Used(p) + 1 < |config.accounts(p)| {
      RotationTracks(planned, before, w, config.accounts(p)[w.Used(p) + 1]);
    }
  }

  /** What a turn leaves is what the history calls for, and the queue keeps track of it. */
  lemma TurnTracks(config: Config, planned: seq<Hop>, before: seq<Hop>, w: Work, now: Turn)
    requires Tracks(planned, before, w) && forall h :: h in planned ==> h.retryCount == 0
    ensures var popped, ruling := before + [w.hops[0]], Rule(config, w, now);
            var next := NextHop(config, planned, popped, now);
            && next.None? == ruling.Conclude?
            && (next.Some? ==> ruling.next.hops != [] && next == Some(ruling.next.hops[0])
                               && Tracks(planned, popped, ruling.next))
  {
    StampTracks(planned, before, w);
    if |w.hops| > 1 {
      assert w.hops[1..][1..] == w.hops[2..];
    }
    if FailureOf(now).Some? {
      FailureTracks(config, planned, before, w, FailureOf(now).value, now.preStream);
    }
  }

  /** The hop after the `k`-th, or that there is none, is what the hops up to the `k`-th call for. */
  predicate Continues(config: Config, planned: seq<Hop>, hops: seq<Hop>, k: nat, now: Turn)
    requires k < |hops|
  {
    NextHop(config, planned, hops[..k + 1], now) == if k + 1 < |hops| then Some(hops[k + 1]) else None
  }

  lemma PoppedFirst(before: seq<Hop>, first: Stop, rest: seq<Stop>)
    ensures before + Popped([first] + rest) == (before + [first.hop]) + Popped(rest)
    ensures (before + Popped([first] + rest))[..|before| + 1] == before + [first.hop]
    ensures (before + Popped([first] + rest))[|before|] == first.hop
    ensures rest != [] ==> (before + Popped([first] + rest))[|before| + 1] == rest[0].hop
  {
  }

  /** From some hop on, each hop is the one the history calls for, and the last one ends the run. */
  ghost predicate RunIs(config: Config, planned: seq<Hop>, hops: seq<Hop>, from: nat, world: nat -> Turn,
                        ending: Ending) {
    && from < |hops| && ending == EndOf(hops[|hops| - 1], world(|hops| - 1))
    && forall k :: from <= k < |hops| ==> Continues(config, planned, hops, k, world(k))
  }

  lemma OneMore(config: Config, planned: seq<Hop>, hops: seq<Hop>, from: nat, world: nat -> Turn, ending: Ending,
                popped: seq<Hop>, next: Hop)
    requires RunIs(config, planned, hops, from + 1, world, ending)
    requires hops[..from + 1] == popped && hops[from + 1] == next
    requires NextHop(config, planned, popped, world(from)) == Some(next)
    ensures RunIs(config, planned, hops, from, world, ending)
  {
    assert Continues(config, planned, hops, from, world(from));
  }

  lemma LastOne(config: Config, planned: seq<Hop>, before: seq<Hop>, stop: Stop, world: nat -> Turn, ending: Ending)
    requires NextHop(config, planned, before + [stop.hop], world(|before|)) == None
    requires ending == EndOf(stop.hop, world(|before|))
    ensures RunIs(config, planned, before + Popped([stop]), |before|, world, ending)
  {
    var hops := before + [stop.hop];
    assert before + Popped([stop]) == hops && hops[..|before| + 1] == hops;
    assert Continues(config, planned, hops, |before|, world(|before|));
  }

  /** How a run ends on its last hop. */
  lemma EndIs(config: Config, w: Work, now: Turn)
    requires w.hops != [] && Rule(config, w, now).Conclude?
    ensures Rule(config, w, now).ending == EndOf(w.hops[0], now)
  {
  }

  /** From any loop head on, every hop popped is the one the history calls for, and the last one ends the run. */
  lemma {:induction false} HopsFrom(ps: seq<string>, config: Config, planned: seq<Hop>, w: Work, world: nat -> Turn,
                                    turn: nat, index: nat, before: seq<Hop>)
    requires Planned(ps, config, w) && Tracks(planned, before, w) && turn == |before|
    requires forall h :: h in planned ==> h.retryCount == 0
    ensures var s := StoryFrom(ps, config, w, world, turn, index);
            RunIs(config, planned, before + Popped(s.stops), turn, world, s.ending)
    decreases |w.hops|, RotationsLeft(ps, config, w), config.policy.maxRetries - w.hops[0].retryCount
  {
    RuleMovesOn(ps, config, w, world(turn));
    TurnTracks(config, planned, before, w, world(turn));
    var s, ruling := StoryFrom(ps, config, w, world, turn, index), Rule(config, w, world(turn));
    if ruling.Conclude? {
      EndIs(config, w, world(turn));
      LastOne(config, planned, before, Stop(w.hops[0], true), world, s.ending);
    } else {
      var later := if ruling.PassOver? then index else index + 1;
      var rest := StoryFrom(ps, config, ruling.next, world, turn + 1, later);
      HopsFrom(ps, config, planned, ruling.next, world, turn + 1, later, before + [w.hops[0]]);
      StoryLinked(ps, config, ruling.next, world, turn + 1, later);
      PoppedFirst(before, Stop(w.hops[0], !ruling.PassOver?), rest.stops);
      OneMore(config, planned, before + Popped(s.stops), turn, world, s.ending, before + [w.hops[0]],
              ruling.next.hops[0]);
    }
  }

  /** The whole run of a plan. */
  lemma EveryHop(config: Config, planned: seq<Hop>, world: nat -> Turn)
    requires planned != [] && planned[0].trigger != Some(Rotation) && forall h :: h in planned ==> h.retryCount == 0
    ensures var s := StoryOf(config, planned, world);
            Popped(s.stops)[0] == planned[0] && RunIs(config, planned, Popped(s.stops), 0, world, s.ending)
  {
    StartsPlanned(config, planned);
    var w := Work(planned, map[]);
    HistorySnoc([], planned[0]);
    assert [] + [planned[0]] == [planned[0]] && planned[0] in planned;
    HopsFrom(Providers(planned), config, planned, w, world, 0, 0, []);
    StoryLinked(Providers(planned), config, w, world, 0, 0);
    assert [] + Popped(StoryOf(config, planned, world).stops) == Popped(StoryOf(config, planned, world).stops);
  }

  // ----- What a run emits, calls and sleeps, from its hops and the world alone -----

  /** The last event of a request that ends on this turn; a stream's is still to come. */
  function FinalEvents(now: Turn, index: nat): seq<UsageEvent> {
    if !now.available then [UsageEvent(LogicalRequest, index, false, Fault(ProviderOverloaded), None)]
    else if !now.registered then [UsageEvent(LogicalRequest, index, false, Fault(CapabilityUnsupported), None)]
    else
      match FailureOf(now)
      case Some(f) => [UsageEvent(LogicalRequest, index, false, Fault(f.category), f.status)]
      case None => if now.reply.streamed then [] else [UsageEvent(LogicalRequest, index, true, Succeeded,
                                                                  Some(now.reply.status))]
  }

  /** The events of the turns from `k` to the last: an attempt's for each failed call, the last turn's own. */
  function EventsFrom(n: nat, world: nat -> Turn, k: nat, index: nat): seq<UsageEvent>
    decreases n - k
  {
    if k + 1 >= n then FinalEvents(world(k), index)
    else if !world(k).available then EventsFrom(n, world, k + 1, index)
    else
      (match FailureOf(world(k))
       case Some(f) => [UsageEvent(AttemptFinal, index, false, Fault(f.category), f.status)]
       case None => [])
      + EventsFrom(n, world, k + 1, index + 1)
  }

  function CallsFrom(n: nat, world: nat -> Turn, k: nat): nat
    decreases n - k
  {
    if k >= n then 0
    else CallsFrom(n, world, k + 1) + if world(k).available && world(k).registered then 1 else 0
  }

  /** A backoff before each retry, by the retries already made. */
  function SleptFrom(config: Config, hops: seq<Hop>, world: nat -> Turn, k: nat): int
    decreases |hops| - k
  {
    if k + 1 >= |hops| then 0
    else
      SleptFrom(config, hops, world, k + 1)
      + if hops[k + 1].retryCount > 0 then Backoff(hops[k].retryCount, config.policy, world(k).random) else 0
  }

  /** An attempt is made for every available hop, and for the last one in any case. */
  ghost predicate AttemptedAre(stops: seq<Stop>, world: nat -> Turn, turn: nat) {
    forall k :: 0 <= k < |stops| ==> (stops[k].attempted <==> world(turn + k).available || k + 1 == |stops|)
  }

  lemma AttemptedMore(first: Stop, rest: seq<Stop>, world: nat -> Turn, turn: nat)
    requires AttemptedAre(rest, world, turn + 1) && rest != [] && first.attempted == world(turn).available
    ensures AttemptedAre([first] + rest, world, turn)
  {
    var stops := [first] + rest;
    forall k | 0 <= k < |stops|
      ensures stops[k].attempted <==> world(turn + k).available || k + 1 == |stops|
    {
      if k > 0 {
        assert stops[k] == rest[k - 1] && world(turn + 1 + (k - 1)) == world(turn + k);
      }
    }
  }

  /** What one turn that goes on adds. */
  lemma TurnCosts(ps: seq<string>, config: Config, w: Work, now: Turn)
    requires Planned(ps, config, w) && !Rule(config, w, now).Conclude?
    ensures var ruling := Rule(config, w, now);
            && ruling.PassOver? == !now.available
            && (ruling.TryAgain? ==>
                  && FailureOf(now) == Some(Failure(ruling.category, ruling.status))
                  && ruling.next.hops != []
                  && ruling.slept == if ruling.next.hops[0].retryCount > 0
                                     then Backoff(w.hops[0].retryCount, config.policy, now.random) else 0)
            && (ruling.PassOver? ==> ruling.next.hops != [] && ruling.next.hops[0].retryCount == 0)
  {
  }

  /** What a story of these hops from this turn on emits, calls and sleeps. */
  ghost predicate Costs(s: Story, config: Config, hops: seq<Hop>, world: nat -> Turn, turn: nat, index: nat) {
    && s.events == EventsFrom(|hops|, world, turn, index)
    && s.calls == CallsFrom(|hops|, world, turn)
    && s.slept == SleptFrom(config, hops, world, turn)
    && AttemptedAre(s.stops, world, turn)
  }

  lemma LastCosts(config: Config, w: Work, s: Story, hops: seq<Hop>, world: nat -> Turn, turn: nat, index: nat)
    requires w.hops != [] && Rule(config, w, world(turn)).Conclude? && |hops| == turn + 1
    requires var ruling := Rule(config, w, world(turn));
             s == Story([Stop(w.hops[0], true)], LastEvents(ruling.ending, index, ruling.status), ruling.ending,
                        Called(world(turn)), 0)
    ensures Costs(s, config, hops, world, turn, index)
  {
    assert CallsFrom(|hops|, world, turn + 1) == 0;
  }

  lemma MoreCosts(config: Config, w: Work, s: Story, rest: Story, hops: seq<Hop>, world: nat -> Turn, turn: nat,
                  index: nat, ps: seq<string>)
    requires Planned(ps, config, w) && !Rule(config, w, world(turn)).Conclude? && rest.stops != []
    requires |hops| > turn + 1 && Rule(config, w, world(turn)).next.hops != []
    requires hops[turn] == w.hops[0] && hops[turn + 1] == Rule(config, w, world(turn)).next.hops[0]
    requires var ruling := Rule(config, w, world(turn));
             if ruling.PassOver? then
               s == rest.(stops := [Stop(w.hops[0], false)] + rest.stops)
               && Costs(rest, config, hops, world, turn + 1, index)
             else
               s == Story([Stop(w.hops[0], true)] + rest.stops,
                          [UsageEvent(AttemptFinal, index, false, Fault(ruling.category), ruling.status)] + rest.events,
                          rest.ending, Called(world(turn)) + rest.calls, ruling.slept + rest.slept)
               && Costs(rest, config, hops, world, turn + 1, index + 1)
    ensures Costs(s, config, hops, world, turn, index)
  {
    TurnCosts(ps, config, w, world(turn));
    AttemptedMore(s.stops[0], rest.stops, world, turn);
  }

  lemma {:induction false} CostsFrom(ps: seq<string>, config: Config, w: Work, world: nat -> Turn, turn: nat,
                                     index: nat, before: seq<Hop>)
    requires Planned(ps, config, w) && turn == |before|
    ensures var s := StoryFrom(ps, config, w, world, turn, index);
            Costs(s, config, before + Popped(s.stops), world, turn, index)
    decreases |w.hops|, RotationsLeft(ps, config, w), config.policy.maxRetries - w.hops[0].retryCount
  {
    RuleMovesOn(ps, config, w, world(turn));
    var s, ruling := StoryFrom(ps, config, w, world, turn, index), Rule(config, w, world(turn));
    var hops := before + Popped(s.stops);
    if ruling.Conclude? {
      LastCosts(config, w, s, hops, world, turn, index);
    } else {
      var later := if ruling.PassOver? then index else index + 1;
      var rest := StoryFrom(ps, config, ruling.next, world, turn + 1, later);
      CostsFrom(ps, config, ruling.next, world, turn + 1, later, before + [w.hops[0]]);
      StoryLinked(ps, config, ruling.next, world, turn + 1, later);
      PoppedFirst(before, Stop(w.hops[0], !ruling.PassOver?), rest.stops);
      MoreCosts(config, w, s, rest, hops, world, turn, index, ps);
    }
  }

  /** The whole run of a plan emits, calls and sleeps what its hops and the world call for. */
  lemma EveryCost(config: Config, planned: seq<Hop>, world: nat -> Turn)
    requires planned != [] && forall h :: h in planned ==> h.retryCount == 0
    ensures var s := StoryOf(config, planned, world); Costs(s, config, Popped(s.stops), world, 0, 0)
  {
    StartsPlanned(config, planned);
    CostsFrom(Providers(planned), config, Work(planned, map[]), world, 0, 0, []);
    assert [] + Popped(StoryOf(config, planned, world).stops) == Popped(StoryOf(config, planned, world).stops);
  }

  // ----- A request fails only when there is nothing left to try -----

  datatype Place = Place(provider: string, model: string, account: Option<string>)

  function PlaceOf(hop: Hop): Place {
    Place(hop.provider, hop.model, hop.account)
  }

  function Places(planned: seq<Hop>): (places: seq<Place>)
    ensures |places| == |planned|
  {
    seq(|planned|, i requires 0 <= i < |planned| => PlaceOf(planned[i]))
  }

  /** Where the hops of the plan that were popped went, in order. */
  function TakenPlaces(hops: seq<Hop>): (places: seq<Place>)
    ensures |places| == TakenIn(hops)
  {
    if hops == [] then []
    else
      var last := hops[|hops| - 1];
      TakenPlaces(hops[..|hops| - 1])
      + if last.retryCount == 0 && last.trigger != Some(Rotation) then [PlaceOf(last)] else []
  }

  /** The accounts a provider was rotated to, in order. */
  function RotatedTo(hops: seq<Hop>, provider: string): (accounts: seq<Option<string>>)
    ensures |accounts| == RotationsIn(hops, provider)
  {
    if hops == [] then []
    else
      var last := hops[|hops| - 1];
      RotatedTo(hops[..|hops| - 1], provider)
      + if last.retryCount == 0 && last.trigger == Some(Rotation) && last.provider == provider then [last.account]
        else []
  }

  /** What has been tried: a first part of the plan, and of each provider's accounts after the first. */
  ghost predicate Tried(config: Config, planned: seq<Hop>, hops: seq<Hop>) {
    && TakenIn(hops) <= |planned| && TakenPlaces(hops) == Places(planned)[..TakenIn(hops)]
    && forall p :: TriedAccounts(config, hops, p)
  }

  ghost predicate TriedAccounts(config: Config, hops: seq<Hop>, p: string) {
    var n := RotationsIn(hops, p);
    n > 0 ==>
      && n < |config.accounts(p)|
      && forall j :: 0 <= j < n ==> RotatedTo(hops, p)[j] == Some(config.accounts(p)[j + 1])
  }

  lemma PlacesSnoc(hops: seq<Hop>, next: Hop)
    ensures TakenPlaces(hops + [next]) ==
            TakenPlaces(hops) + if next.retryCount == 0 && next.trigger != Some(Rotation) then [PlaceOf(next)] else []
    ensures forall p :: RotatedTo(hops + [next], p) ==
                        RotatedTo(hops, p)
                        + if next.retryCount == 0 && next.trigger == Some(Rotation) && next.provider == p
                          then [next.account] else []
  {
    assert (hops + [next])[..|hops|] == hops;
  }

  /** Each next hop keeps to the plan and to the order of the accounts. */
  lemma NextTried(config: Config, planned: seq<Hop>, hops: seq<Hop>, now: Turn)
    requires hops != [] && Tried(config, planned, hops) && forall h :: h in planned ==> h.retryCount == 0
    requires NextHop(config, planned, hops, now).Some?
    ensures Tried(config, planned, hops + [NextHop(config, planned, hops, now).value])
  {
    var next, n := NextHop(config, planned, hops, now).value, TakenIn(hops);
    PlacesSnoc(hops, next);
    HistorySnoc(hops, next);
    if next.retryCount == 0 && next.trigger != Some(Rotation) {
      assert n < |planned| && PlaceOf(next) == PlaceOf(planned[n]) == Places(planned)[n];
      PrefixGrows(Places(planned), n);
    }
    forall p
      ensures TriedAccounts(config, hops + [next], p)
    {
      assert TriedAccounts(config, hops, p);
    }
  }

  lemma {:induction false} RunTries(config: Config, planned: seq<Hop>, hops: seq<Hop>, world: nat -> Turn,
                                    ending: Ending, k: nat)
    requires planned != [] && planned[0].trigger != Some(Rotation) && forall h :: h in planned ==> h.retryCount == 0
    requires RunIs(config, planned, hops, 0, world, ending) && hops[0] == planned[0] && k < |hops|
    ensures Tried(config, planned, hops[..k + 1])
  {
    if k == 0 {
      assert hops[..1] == [] + [planned[0]] && planned[0] in planned;
      PlacesSnoc([], planned[0]);
      HistorySnoc([], planned[0]);
      assert Places(planned)[..1] == [PlaceOf(planned[0])];
    } else {
      RunTries(config, planned, hops, world, ending, k - 1);
      assert Continues(config, planned, hops, k - 1, world(k - 1));
      NextTried(config, planned, hops[..k], world(k - 1));
      PrefixGrows(hops, k);
    }
  }

  /**
   * A request fails for good only when nothing is left to try. After a reliability fault or a trigger status
   * every planned hop has been tried in turn, and the last one's retries are used up where fault and adapter
   * permit them. After an account was refused every other account of its provider has been tried in turn.
   */
  lemma FailsExhausted(config: Config, planned: seq<Hop>, world: nat -> Turn)
    requires planned != [] && planned[0].trigger != Some(Rotation) && forall h :: h in planned ==> h.retryCount == 0
    ensures var s := StoryOf(config, planned, world);
            var hops, n := Popped(s.stops), |s.stops| - 1;
            && n >= 0
            && (s.ending.Failed? && WorthAnother(s.ending.category, s.ending.replied, config) ==>
                  TakenPlaces(hops) == Places(planned))
            && (s.ending.Cooling? ==> TakenPlaces(hops) == Places(planned))
            && (s.ending.Failed? && s.ending.category in {ProviderConnection, ProviderTimeout} ==>
                  world(n).preStream ==> hops[n].retryCount >= config.policy.maxRetries)
            && (s.ending.Failed? && s.ending.category == ProviderAuth ==>
                  AccountsTried(config, hops, hops[n].provider))
  {
    var s := StoryOf(config, planned, world);
    var hops, n := Popped(s.stops), |s.stops| - 1;
    EveryHop(config, planned, world);
    RunTries(config, planned, hops, world, s.ending, n);
    WholePrefix(hops);
    assert Continues(config, planned, hops, n, world(n)) && TriedAccounts(config, hops, hops[n].provider);
    WholePrefix(Places(planned));
  }

  /** Every account of a provider after its first has been rotated to, in order. */
  ghost predicate AccountsTried(config: Config, hops: seq<Hop>, provider: string) {
    var accounts := config.accounts(provider);
    && |RotatedTo(hops, provider)| == (if accounts == [] then 0 else |accounts| - 1)
    && forall j :: 1 <= j < |accounts| ==> RotatedTo(hops, provider)[j - 1] == Some(accounts[j])
  }
}
