/**
 * What one turn of the attempt loop does, and what a whole run of it comes to, said of
 * the queue and of what the world answers alone.
 */
module AttemptRules {
  import opened Base
  import opened Routing
  import opened Lifecycle

  /** What the transport brings back: an exception, or a status with the classifier's verdict on it. */
  datatype Reply =
    | Threw(category: Category, aborted: bool)
    | Answered(status: int, category: Category, streamed: bool)

  /** Everything the world decides in one turn of the loop. */
  datatype Turn = Turn(available: bool, registered: bool, preStream: bool, random: Fraction, reply: Reply)

  /** How a request ends. */
  datatype Ending =
    | FromCache | Blocked(reason: Category) | Cooling(provider: string) | Unregistered
    | Failed(category: Category, replied: Option<int>) | Buffered(status: int) | Streamed(status: int)

  /** What a turn does with the hop it pops: skip it, try again after it, or end the request on it. */
  datatype Ruling =
    | PassOver(next: Work)
    | TryAgain(next: Work, category: Category, status: Option<int>, slept: int)
    | Conclude(ending: Ending, state: TerminalState, status: Option<int>)

  function RuleFailure(config: Config, rest: Work, hop: Hop, category: Category, status: Option<int>,
                       now: Turn): Ruling {
    match Advance(rest, hop, category, status, now.preStream, config)
    case None => Conclude(Failed(category, status), TerminalOf(category), status)
    case Some(next) =>
      TryAgain(next, category, status,
               if ShouldRetry(category, hop.retryCount, config.policy, now.preStream)
               then Backoff(hop.retryCount, config.policy, now.random) else 0)
  }

  function RuleReply(config: Config, rest: Work, hop: Hop, now: Turn): Ruling {
    match now.reply
    case Threw(category, aborted) =>
      RuleFailure(config, rest, hop, if aborted then ClientCancelled else category, None, now)
    case Answered(status, category, streamed) =>
      if status < 200 || status >= 300 then RuleFailure(config, rest, hop, category, Some(status), now)
      else Conclude(if streamed then Streamed(status) else Buffered(status), Success, Some(status))
  }

  function RuleDispatch(config: Config, rest: Work, hop: Hop, now: Turn): Ruling {
    if now.registered then RuleReply(config, rest, hop, now) else Conclude(Unregistered, InternalError, None)
  }

  function Rule(config: Config, w: Work, now: Turn): Ruling
    requires w.hops != []
  {
    var hop, rest := w.hops[0], w.(hops := w.hops[1..]);
    if now.available then RuleDispatch(config, rest, hop, now)
    else if rest.hops != [] then PassOver(rest.(hops := [Stamped(rest.hops[0], hop)] + rest.hops[1..]))
    else Conclude(Cooling(hop.provider), UpstreamError, None)
  }

  function OutcomeOf(ending: Ending): Outcome {
    match ending
    case FromCache => CacheHit
    case Blocked(reason) => Fault(reason)
    case Cooling(_) => Fault(ProviderOverloaded)
    case Unregistered => Fault(CapabilityUnsupported)
    case Failed(category, _) => Fault(category)
    case Buffered(_) => Succeeded
    case Streamed(_) => Succeeded
  }

  /** The logical-request event of an ending; a streamed one waits for its stream. */
  function LastEvents(ending: Ending, index: nat, status: Option<int>): seq<UsageEvent> {
    if ending.Streamed? then []
    else [UsageEvent(LogicalRequest, index, ending.FromCache? || ending.Buffered?, OutcomeOf(ending), status)]
  }

  /** The terminal state of a request that was dispatched, by how it ended. */
  function StateOf(ending: Ending): TerminalState {
    match ending
    case Cooling(_) => UpstreamError
    case Unregistered => InternalError
    case Failed(category, _) => TerminalOf(category)
    case FromCache => Success
    case Blocked(_) => Rejected
    case Buffered(_) => Success
    case Streamed(_) => Success
  }

  lemma StateIs(config: Config, w: Work, now: Turn)
    requires w.hops != [] && Rule(config, w, now).Conclude?
    ensures Rule(config, w, now).state == StateOf(Rule(config, w, now).ending)
  {
  }

  /** Whether a ruling was one of trying the same hop again. */
  predicate Retried(config: Config, w: Work, now: Turn)
    requires w.hops != []
  {
    var ruling := Rule(config, w, now);
    ruling.TryAgain? && ShouldRetry(ruling.category, w.hops[0].retryCount, config.policy, now.preStream)
  }

  /** Whatever leaves the loop going leaves it strictly less to do, and never after a deterministic fault. */
  lemma RuleMovesOn(ps: seq<string>, config: Config, w: Work, now: Turn)
    requires Planned(ps, config, w)
    ensures var ruling := Rule(config, w, now);
            && (ruling.PassOver? ==> MovesOn(ps, config, w, ruling.next, false))
            && (ruling.TryAgain? ==> && ruling.category !in DETERMINISTIC
                                     && MovesOn(ps, config, w, ruling.next, Retried(config, w, now)))
  {
    if now.available {
      match now.reply {
        case Threw(category, aborted) =>
          AdvanceMovesOn(ps, config, w, if aborted then ClientCancelled else category, None, now.preStream);
        case Answered(status, category, _) =>
          AdvanceMovesOn(ps, config, w, category, Some(status), now.preStream);
      }
    } else if |w.hops| > 1 {
      SkipMovesOn(ps, config, w);
      assert w.hops[1..][1..] == w.hops[2..];
    }
  }

  // ----- A whole run -----

  /** A hop popped off the queue, and whether an attempt was made for it. */
  datatype Stop = Stop(hop: Hop, attempted: bool)

  /** The hops popped in order, the events emitted, the ending, and what it all cost. */
  datatype Story = Story(stops: seq<Stop>, events: seq<UsageEvent>, ending: Ending, calls: nat, slept: int)

  /** The hops attempts were made for. */
  function Attempted(stops: seq<Stop>): seq<Hop> {
    if stops == [] then [] else (if stops[0].attempted then [stops[0].hop] else []) + Attempted(stops[1..])
  }

  lemma AttemptedFirst(first: Stop, rest: seq<Stop>)
    ensures Attempted([first] + rest) == (if first.attempted then [first.hop] else []) + Attempted(rest)
  {
    assert ([first] + rest)[1..] == rest;
  }

  lemma {:induction false} AttemptedSnoc(stops: seq<Stop>, last: Stop)
    ensures Attempted(stops + [last]) == Attempted(stops) + if last.attempted then [last.hop] else []
  {
    var more := if last.attempted then [last.hop] else [];
    if stops == [] {
      AttemptedFirst(last, []);
      assert [] + [last] == [last] + [] && more + [] == [] + more;
    } else {
      var own := if stops[0].attempted then [stops[0].hop] else [];
      AttemptedSnoc(stops[1..], last);
      AttemptedFirst(stops[0], stops[1..] + [last]);
      assert stops + [last] == [stops[0]] + (stops[1..] + [last]);
      Assoc(own, Attempted(stops[1..]), more);
    }
  }

  function Called(now: Turn): nat {
    if now.available && now.registered then 1 else 0
  }

  /** The run from a loop head, `index` attempts having been made before. */
  function StoryFrom(ps: seq<string>, config: Config, w: Work, world: nat -> Turn, turn: nat, index: nat): Story
    requires Planned(ps, config, w)
    decreases |w.hops|, RotationsLeft(ps, config, w), config.policy.maxRetries - w.hops[0].retryCount
  {
    RuleMovesOn(ps, config, w, world(turn));
    match Rule(config, w, world(turn))
    case PassOver(next) =>
      var rest := StoryFrom(ps, config, next, world, turn + 1, index);
      rest.(stops := [Stop(w.hops[0], false)] + rest.stops)
    case TryAgain(next, category, status, slept) =>
      var rest := StoryFrom(ps, config, next, world, turn + 1, index + 1);
      Story([Stop(w.hops[0], true)] + rest.stops,
            [UsageEvent(AttemptFinal, index, false, Fault(category), status)] + rest.events, rest.ending,
            Called(world(turn)) + rest.calls, slept + rest.slept)
    case Conclude(ending, _, status) =>
      Story([Stop(w.hops[0], true)], LastEvents(ending, index, status), ending, Called(world(turn)), 0)
  }

  /** The run of a whole plan. */
  function StoryOf(config: Config, planned: seq<Hop>, world: nat -> Turn): Story
    requires planned != [] && forall h :: h in planned ==> h.retryCount == 0
  {
    StartsPlanned(config, planned);
    StoryFrom(Providers(planned), config, Work(planned, map[]), world, 0, 0)
  }

  // ----- What every run keeps -----

  /** Each hop after the first carries a trigger and the model of the hop popped just before it. */
  ghost predicate Linked(stops: seq<Stop>) {
    forall k :: 0 < k < |stops| ==> Follows(stops[k - 1].hop, stops[k].hop)
  }

  lemma LinkFirst(first: Stop, rest: seq<Stop>)
    requires rest != [] && Linked(rest) && Follows(first.hop, rest[0].hop)
    ensures Linked([first] + rest)
  {
    var stops := [first] + rest;
    forall k | 0 < k < |stops|
      ensures Follows(stops[k - 1].hop, stops[k].hop)
    {
      if k > 1 {
        assert stops[k - 1] == rest[k - 2] && stops[k] == rest[k - 1];
      }
    }
  }

  lemma {:induction false} StoryLinked(ps: seq<string>, config: Config, w: Work, world: nat -> Turn, turn: nat,
                                       index: nat)
    requires Planned(ps, config, w)
    ensures var stops := StoryFrom(ps, config, w, world, turn, index).stops;
            && stops != [] && stops[0].hop == w.hops[0] && stops[|stops| - 1].attempted
            && Linked(stops)
    decreases |w.hops|, RotationsLeft(ps, config, w), config.policy.maxRetries - w.hops[0].retryCount
  {
    RuleMovesOn(ps, config, w, world(turn));
    var ruling := Rule(config, w, world(turn));
    if !ruling.Conclude? {
      var later := if ruling.PassOver? then index else index + 1;
      StoryLinked(ps, config, ruling.next, world, turn + 1, later);
      LinkFirst(Stop(w.hops[0], !ruling.PassOver?),
                StoryFrom(ps, config, ruling.next, world, turn + 1, later).stops);
    }
  }

  /** All events but the last attempt's are of faults that another attempt could help with. */
  ghost predicate Evented(s: Story, index: nat) {
    var n := |Attempted(s.stops)| - 1;
    && n >= 0 && |s.events| == n + (if s.ending.Streamed? then 0 else 1)
    && (forall i :: 0 <= i < n ==> FaultEvent(s.events[i], index + i))
    && (!s.ending.Streamed? ==> s.events[n].kind == LogicalRequest && s.events[n].attemptIndex == index + n)
  }

  lemma {:induction false} StoryEvents(ps: seq<string>, config: Config, w: Work, world: nat -> Turn, turn: nat,
                                       index: nat)
    requires Planned(ps, config, w)
    ensures Evented(StoryFrom(ps, config, w, world, turn, index), index)
    decreases |w.hops|, RotationsLeft(ps, config, w), config.policy.maxRetries - w.hops[0].retryCount
  {
    RuleMovesOn(ps, config, w, world(turn));
    var s := StoryFrom(ps, config, w, world, turn, index);
    match Rule(config, w, world(turn)) {
      case PassOver(next) =>
        StoryEvents(ps, config, next, world, turn + 1, index);
        PassedEvents(w.hops[0], StoryFrom(ps, config, next, world, turn + 1, index), s, index);
      case TryAgain(next, category, status, _) =>
        StoryEvents(ps, config, next, world, turn + 1, index + 1);
        AnotherEvent(w.hops[0], UsageEvent(AttemptFinal, index, false, Fault(category), status),
                     StoryFrom(ps, config, next, world, turn + 1, index + 1), s, index);
      case Conclude(ending, _, status) =>
        LastEvent(w.hops[0], ending, status, s, index);
    }
  }

  lemma StopFirst(stop: Stop, rest: seq<Stop>)
    ensures |Attempted([stop] + rest)| == |Attempted(rest)| + if stop.attempted then 1 else 0
  {
    AttemptedFirst(stop, rest);
  }

  lemma PassedEvents(hop: Hop, rest: Story, s: Story, index: nat)
    requires Evented(rest, index) && s == rest.(stops := [Stop(hop, false)] + rest.stops)
    ensures Evented(s, index)
  {
    StopFirst(Stop(hop, false), rest.stops);
  }

  lemma AnotherEvent(hop: Hop, first: UsageEvent, rest: Story, s: Story, index: nat)
    requires FaultEvent(first, index) && Evented(rest, index + 1)
    requires s.stops == [Stop(hop, true)] + rest.stops && s.events == [first] + rest.events && s.ending == rest.ending
    ensures Evented(s, index)
  {
    StopFirst(Stop(hop, true), rest.stops);
    forall i | 0 <= i < |Attempted(rest.stops)|
      ensures FaultEvent(s.events[i], index + i)
    {
      if i > 0 {
        assert FaultEvent(rest.events[i - 1], index + 1 + (i - 1));
      }
    }
  }

  lemma LastEvent(hop: Hop, ending: Ending, status: Option<int>, s: Story, index: nat)
    requires s.stops == [Stop(hop, true)] && s.events == LastEvents(ending, index, status) && s.ending == ending
    ensures Evented(s, index)
  {
    StopFirst(Stop(hop, true), []);
    assert [Stop(hop, true)] + [] == [Stop(hop, true)];
  }

  /** The one event of a superseded attempt. */
  predicate FaultEvent(e: UsageEvent, index: nat) {
    && e.kind == AttemptFinal && e.attemptIndex == index && !e.success
    && e.outcome.Fault? && e.outcome.category !in DETERMINISTIC
  }

  /** The most candidates a plan can come to: its hops, and the spare accounts of their providers. */
  function Candidates(config: Config, planned: seq<Hop>): nat {
    |planned| + RotationsLeft(Providers(planned), config, Work(planned, map[]))
  }

  /** One upstream call at most per candidate and retry; one backoff at most per retry. */
  predicate WithinPlan(config: Config, planned: seq<Hop>, calls: nat, slept: int) {
    && calls <= Candidates(config, planned) * (config.policy.maxRetries + 1)
    && slept <= Candidates(config, planned) * config.policy.maxRetries * config.policy.maxDelayMs
  }

  /** A planned queue can still cost a call, and no fewer retries than none. */
  lemma SomethingLeft(ps: seq<string>, config: Config, w: Work)
    requires Planned(ps, config, w)
    ensures CallsLeft(ps, config, w) >= 1 && RetriesLeft(ps, config, w) >= 0
  {
    var left := |w.hops| + RotationsLeft(ps, config, w);
    Fewer(left, 0, config.policy.maxRetries + 1);
    Fewer(left, 0, config.policy.maxRetries);
  }

  lemma OneBackoff(a: nat, b: nat, retried: bool, slept: int, rest: int, most: nat)
    requires b + (if retried then 1 else 0) <= a && slept <= (if retried then most else 0) && rest <= b * most
    ensures slept + rest <= a * most
  {
    var c := b + if retried then 1 else 0;
    assert c * most == b * most + if retried then most else 0;
    if c < a {
      Fewer(a, c, most);
    }
  }

  lemma {:induction false} StoryWithin(ps: seq<string>, config: Config, w: Work, world: nat -> Turn, turn: nat,
                                       index: nat)
    requires Planned(ps, config, w)
    ensures var s := StoryFrom(ps, config, w, world, turn, index);
            && s.calls <= CallsLeft(ps, config, w)
            && RetriesLeft(ps, config, w) >= 0 && s.slept <= RetriesLeft(ps, config, w) * config.policy.maxDelayMs
    decreases |w.hops|, RotationsLeft(ps, config, w), config.policy.maxRetries - w.hops[0].retryCount
  {
    SomethingLeft(ps, config, w);
    RuleMovesOn(ps, config, w, world(turn));
    var left := RetriesLeft(ps, config, w);
    match Rule(config, w, world(turn)) {
      case PassOver(next) =>
        StoryWithin(ps, config, next, world, turn + 1, index);
        OneBackoff(left, RetriesLeft(ps, config, next), false, 0,
                   StoryFrom(ps, config, next, world, turn + 1, index).slept, config.policy.maxDelayMs);
      case TryAgain(next, _, _, slept) =>
        StoryWithin(ps, config, next, world, turn + 1, index + 1);
        OneBackoff(left, RetriesLeft(ps, config, next), Retried(config, w, world(turn)), slept,
                   StoryFrom(ps, config, next, world, turn + 1, index + 1).slept, config.policy.maxDelayMs);
      case Conclude(_, _, _) =>
        OneBackoff(left, 0, false, 0, 0, config.policy.maxDelayMs);
    }
  }

  /**
   * Every run of a plan: it starts at the plan's first hop, each later hop popped is linked to the one
   * popped just before it, all attempts but the last failed with a fault that is not deterministic and
   * emitted one event of it, and its calls and backoff stay within hops, spare accounts and retries.
   */
  lemma EveryRun(config: Config, planned: seq<Hop>, world: nat -> Turn)
    requires planned != [] && forall h :: h in planned ==> h.retryCount == 0
    ensures var s := StoryOf(config, planned, world);
            && s.stops != [] && s.stops[0].hop == planned[0] && Linked(s.stops)
            && Evented(s, 0)
            && WithinPlan(config, planned, s.calls, s.slept)
  {
    StartsPlanned(config, planned);
    var ps, w := Providers(planned), Work(planned, map[]);
    var s := StoryFrom(ps, config, w, world, 0, 0);
    assert s == StoryOf(config, planned, world);
    StoryLinked(ps, config, w, world, 0, 0);
    StoryEvents(ps, config, w, world, 0, 0);
    StoryWithin(ps, config, w, world, 0, 0);
    WholePlan(config, planned, s.calls, s.slept);
  }

  lemma WholePlan(config: Config, planned: seq<Hop>, calls: nat, slept: int)
    requires planned != [] && planned[0].retryCount == 0
    requires var ps, w := Providers(planned), Work(planned, map[]);
             calls <= CallsLeft(ps, config, w) && slept <= RetriesLeft(ps, config, w) * config.policy.maxDelayMs
    ensures WithinPlan(config, planned, calls, slept)
  {
  }
}
