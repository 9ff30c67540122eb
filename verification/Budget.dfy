/** The spend ledger, its in-memory window caches, and the ceilings checked against them. Money is in exact dollars. */
module Budget {
  import opened Base

  const HOUR_MS := 3_600_000
  const DAY_MS := 86_400_000

  /** `hourlyWindow` and `dailyWindow`: windows are numbered, which is all their keys are compared for. */
  function HourOf(now: int): int {
    now / HOUR_MS
  }

  function DayOf(now: int): int {
    now / DAY_MS
  }

  lemma DayOfHour(now: int)
    ensures HourOf(now) / 24 == DayOf(now)
  {
  }

  datatype Breach = NoBreach | Daily | Hourly | PerRequest

  datatype Config = Config(enabled: bool, dailyUsd: real, hourlyUsd: real, perRequestUsd: real, blocks: bool)

  datatype Spend = Spend(amount: real, day: int, hour: int)

  datatype State = State(ledger: seq<Spend>, day: int, hour: int, dailyCache: real, hourlyCache: real)

  function DaySum(ledger: seq<Spend>, day: int): real {
    if ledger == [] then 0.0
    else
      var last := ledger[|ledger| - 1];
      DaySum(ledger[..|ledger| - 1], day) + if last.day == day then last.amount else 0.0
  }

  function HourSum(ledger: seq<Spend>, hour: int): real {
    if ledger == [] then 0.0
    else
      var last := ledger[|ledger| - 1];
      HourSum(ledger[..|ledger| - 1], hour) + if last.hour == hour then last.amount else 0.0
  }

  function Without(ledger: seq<Spend>, day: int): seq<Spend> {
    if ledger == [] then []
    else Without(ledger[..|ledger| - 1], day) + if ledger[|ledger| - 1].day == day then [] else [ledger[|ledger| - 1]]
  }

  /** `refreshWindows`. */
  function Refreshed(ledger: seq<Spend>, now: int): State {
    State(ledger, DayOf(now), HourOf(now), DaySum(ledger, DayOf(now)), HourSum(ledger, HourOf(now)))
  }

  /** `ensureWindows`: a cache is summed anew only when its window has changed. */
  function Rolled(s: State, now: int): State {
    var daily := if DayOf(now) == s.day then s else s.(day := DayOf(now), dailyCache := DaySum(s.ledger, DayOf(now)));
    if HourOf(now) == s.hour then daily
    else daily.(hour := HourOf(now), hourlyCache := HourSum(s.ledger, HourOf(now)))
  }

  function Recorded(c: Config, s: State, now: int, amount: real): State {
    if !c.enabled || amount <= 0.0 then s
    else
      var r := Rolled(s, now);
      State(r.ledger + [Spend(amount, r.day, r.hour)], r.day, r.hour, r.dailyCache + amount, r.hourlyCache + amount)
  }

  function BreachOf(c: Config, s: State, estimate: Option<real>): Breach {
    if estimate.Some? && estimate.value > c.perRequestUsd then PerRequest
    else if s.hourlyCache >= c.hourlyUsd then Hourly
    else if s.dailyCache >= c.dailyUsd then Daily
    else NoBreach
  }

  class BudgetManager {
    const config: Config
    var ledger: seq<Spend>
    var dailyKey: int
    var hourlyKey: int
    var dailyCache: real
    var hourlyCache: real

    ghost function Fields(): State
      reads this
    {
      State(ledger, dailyKey, hourlyKey, dailyCache, hourlyCache)
    }

    constructor (c: Config, stored: seq<Spend>, now: int)
      ensures config == c && Fields() == Refreshed(stored, now)
    {
      config, ledger, dailyKey, hourlyKey := c, stored, DayOf(now), HourOf(now);
      dailyCache, hourlyCache := DaySum(stored, DayOf(now)), HourSum(stored, HourOf(now));
    }

    method EnsureWindows(now: int)
      modifies this
      ensures Fields() == Rolled(old(Fields()), now)
    {
      if DayOf(now) != dailyKey {
        dailyKey := DayOf(now);
        dailyCache := DaySum(ledger, dailyKey);
      }
      if HourOf(now) != hourlyKey {
        hourlyKey := HourOf(now);
        hourlyCache := HourSum(ledger, hourlyKey);
      }
    }

    /** `check`, as its decision. */
    method Check(now: int, estimate: Option<real>) returns (allowed: bool, breach: Breach)
      modifies this
      ensures Fields() == if config.enabled then Rolled(old(Fields()), now) else old(Fields())
      ensures breach == if config.enabled then BreachOf(config, Fields(), estimate) else NoBreach
      ensures allowed <==> breach == NoBreach || !config.blocks
      ensures allowed <==> Admits(config, old(Fields()), Step.Check(now, estimate))
    {
      if !config.enabled {
        return true, NoBreach;
      }
      EnsureWindows(now);
      breach := NoBreach;
      if estimate.Some? && estimate.value > config.perRequestUsd {
        breach := PerRequest;
      } else if hourlyCache >= config.hourlyUsd {
        breach := Hourly;
      } else if dailyCache >= config.dailyUsd {
        breach := Daily;
      }
      allowed := breach == NoBreach || !config.blocks;
    }

    method RecordSpend(now: int, amount: real)
      modifies this
      ensures Fields() == Recorded(config, old(Fields()), now, amount)
    {
      if !config.enabled || amount <= 0.0 {
        return;
      }
      EnsureWindows(now);
      dailyCache := dailyCache + amount;
      hourlyCache := hourlyCache + amount;
      ledger := ledger + [Spend(amount, dailyKey, hourlyKey)];
    }

    /** `reset`: it deletes the day of the latest operation, then looks at the clock. */
    method Reset(now: int)
      modifies this
      ensures Fields() == Refreshed(Without(old(ledger), old(dailyKey)), now)
    {
      ledger := Without(ledger, dailyKey);
      dailyKey, hourlyKey := DayOf(now), HourOf(now);
      dailyCache, hourlyCache := DaySum(ledger, dailyKey), HourSum(ledger, hourlyKey);
    }
  }

  // ----- The caches agree with the ledger -----

  /** Spends are positive, each in an hour of its day. */
  ghost predicate Sane(ledger: seq<Spend>) {
    forall x :: x in ledger ==> x.amount > 0.0 && x.day == x.hour / 24
  }

  ghost predicate Agrees(s: State) {
    && Sane(s.ledger) && s.day == s.hour / 24
    && s.dailyCache == DaySum(s.ledger, s.day) && s.hourlyCache == HourSum(s.ledger, s.hour)
  }

  lemma {:induction false} HourWithinDay(ledger: seq<Spend>, hour: int)
    requires Sane(ledger)
    ensures 0.0 <= HourSum(ledger, hour) <= DaySum(ledger, hour / 24)
  {
    if ledger != [] {
      assert ledger[|ledger| - 1] in ledger;
      HourWithinDay(ledger[..|ledger| - 1], hour);
    }
  }

  lemma SumSnoc(ledger: seq<Spend>, x: Spend)
    ensures forall d :: DaySum(ledger + [x], d) == DaySum(ledger, d) + if x.day == d then x.amount else 0.0
    ensures forall h :: HourSum(ledger + [x], h) == HourSum(ledger, h) + if x.hour == h then x.amount else 0.0
  {
    assert (ledger + [x])[..|ledger|] == ledger;
  }

  lemma {:induction false} WithoutSums(ledger: seq<Spend>, day: int)
    ensures forall d :: DaySum(Without(ledger, day), d) == if d == day then 0.0 else DaySum(ledger, d)
    ensures forall x :: x in Without(ledger, day) ==> x in ledger
    ensures Sane(ledger) ==>
              forall h :: HourSum(Without(ledger, day), h) == if h / 24 == day then 0.0 else HourSum(ledger, h)
  {
    if ledger != [] {
      var n := |ledger| - 1;
      WithoutSums(ledger[..n], day);
      assert ledger[n] in ledger;
      if ledger[n].day == day {
        assert Without(ledger[..n], day) + [] == Without(ledger[..n], day);
      } else {
        SumSnoc(Without(ledger[..n], day), ledger[n]);
      }
    }
  }

  /** Every operation at any time keeps the caches equal to the sums of their windows, and the hour within the day. */
  lemma RollAgrees(s: State, now: int)
    requires Agrees(s)
    ensures Agrees(Rolled(s, now)) && Rolled(s, now).day == DayOf(now) && Rolled(s, now).hour == HourOf(now)
    ensures Rolled(s, now) == Refreshed(s.ledger, now)
    ensures Rolled(s, now).hourlyCache <= Rolled(s, now).dailyCache
  {
    DayOfHour(now);
    HourWithinDay(s.ledger, HourOf(now));
  }

  lemma RecordAgrees(c: Config, s: State, now: int, amount: real)
    requires Agrees(s)
    ensures Agrees(Recorded(c, s, now, amount))
  {
    RollAgrees(s, now);
    SumSnoc(s.ledger, Spend(amount, DayOf(now), HourOf(now)));
  }

  lemma ResetAgrees(s: State, now: int)
    requires Agrees(s)
    ensures Agrees(Refreshed(Without(s.ledger, s.day), now))
  {
    WithoutSums(s.ledger, s.day);
    DayOfHour(now);
  }

  // ----- Runs -----

  /** An operation; a check that is allowed admits a request, a record reports what one admitted request cost. */
  datatype Step =
    | Check(at: int, estimate: Option<real>)
    | Record(at: int, amount: real)
    | Status(at: int)
    | Reset(at: int)

  function Performed(c: Config, s: State, step: Step): State {
    match step
    case Check(at, _) => if c.enabled then Rolled(s, at) else s
    case Record(at, amount) => Recorded(c, s, at, amount)
    case Status(at) => Rolled(s, at)
    case Reset(at) => Refreshed(Without(s.ledger, s.day), at)
  }

  predicate Admits(c: Config, s: State, step: Step) {
    step.Check? && (!c.enabled || BreachOf(c, Rolled(s, step.at), step.estimate) == NoBreach || !c.blocks)
  }

  /** The state, and the requests admitted and not yet recorded, after some operations on a stored ledger. */
  function After(c: Config, stored: seq<Spend>, start: int, steps: seq<Step>): (State, int) {
    if steps == [] then (Refreshed(stored, start), 0)
    else
      var (s, waiting) := After(c, stored, start, steps[..|steps| - 1]);
      var step := steps[|steps| - 1];
      (Performed(c, s, step), if Admits(c, s, step) then waiting + 1 else if step.Record? then waiting - 1 else waiting)
  }

  /**
   * After any run at all, on any ledger stored before, the caches are the sums of the ledger for their
   * windows, and hourly is at most daily.
   */
  lemma {:induction false} CachesAgree(c: Config, stored: seq<Spend>, start: int, steps: seq<Step>)
    requires Sane(stored)
    ensures var s := After(c, stored, start, steps).0;
            && s.dailyCache == DaySum(s.ledger, s.day) && s.hourlyCache == HourSum(s.ledger, s.hour)
            && s.hourlyCache <= s.dailyCache && Agrees(s)
  {
    if steps == [] {
      DayOfHour(start);
    } else {
      var s, step := After(c, stored, start, steps[..|steps| - 1]).0, steps[|steps| - 1];
      CachesAgree(c, stored, start, steps[..|steps| - 1]);
      RollAgrees(s, step.at);
      match step {
        case Record(at, amount) => RecordAgrees(c, s, at, amount);
        case Reset(at) => ResetAgrees(s, at);
        case _ =>
      }
    }
    HourWithinDay(After(c, stored, start, steps).0.ledger, After(c, stored, start, steps).0.hour);
  }

  // ----- What a run has spent, read off its operations -----

  /** The operations that look at the clock. */
  predicate Looks(c: Config, step: Step) {
    match step
    case Check(_, _) => c.enabled
    case Record(_, amount) => c.enabled && amount > 0.0
    case Status(_) => true
    case Reset(_) => true
  }

  /** When the manager last looked at the clock. */
  function Clock(c: Config, start: int, steps: seq<Step>): int {
    if steps == [] then start
    else
      var n := |steps| - 1;
      if Looks(c, steps[n]) then steps[n].at else Clock(c, start, steps[..n])
  }

  /** An operation that counts as spending in a window of this length. */
  predicate SpendsIn(c: Config, step: Step, length: int, window: int)
    requires length > 0
  {
    step.Record? && c.enabled && step.amount > 0.0 && step.at / length == window
  }

  /** What a day has cost: what was stored for it and each amount recorded in it, since the day was last reset. */
  function SpentOn(c: Config, stored: seq<Spend>, start: int, steps: seq<Step>, day: int): real {
    if steps == [] then DaySum(stored, day)
    else
      var n := |steps| - 1;
      var before := SpentOn(c, stored, start, steps[..n], day);
      if SpendsIn(c, steps[n], 86_400_000, day) then before + steps[n].amount
      else if steps[n].Reset? && Clock(c, start, steps[..n]) / 86_400_000 == day then 0.0
      else before
  }

  /** What an hour has cost; a reset clears the hours of its day. */
  function SpentIn(c: Config, stored: seq<Spend>, start: int, steps: seq<Step>, hour: int): real {
    if steps == [] then HourSum(stored, hour)
    else
      var n := |steps| - 1;
      var before := SpentIn(c, stored, start, steps[..n], hour);
      if SpendsIn(c, steps[n], 3_600_000, hour) then before + steps[n].amount
      else if steps[n].Reset? && Clock(c, start, steps[..n]) / 86_400_000 == hour / 24 then 0.0
      else before
  }

  /** The caches' windows are those of the last look at the clock. */
  lemma {:induction false} WindowsAtClock(c: Config, stored: seq<Spend>, start: int, steps: seq<Step>)
    ensures var s := After(c, stored, start, steps).0;
            s.day == Clock(c, start, steps) / 86_400_000 && s.hour == Clock(c, start, steps) / 3_600_000
  {
    if steps != [] {
      WindowsAtClock(c, stored, start, steps[..|steps| - 1]);
    }
  }

  /** Every amount recorded while enabled is in the ledger, in the windows of its own time, until its day is reset. */
  lemma {:induction false} LedgerHoldsSpends(c: Config, stored: seq<Spend>, start: int, steps: seq<Step>)
    requires Sane(stored)
    ensures forall day :: DaySum(After(c, stored, start, steps).0.ledger, day) == SpentOn(c, stored, start, steps, day)
    ensures forall hour ::
              HourSum(After(c, stored, start, steps).0.ledger, hour) == SpentIn(c, stored, start, steps, hour)
  {
    if steps != [] {
      var n := |steps| - 1;
      var s := After(c, stored, start, steps[..n]).0;
      LedgerHoldsSpends(c, stored, start, steps[..n]);
      WindowsAtClock(c, stored, start, steps[..n]);
      CachesAgree(c, stored, start, steps[..n]);
      RollAgrees(s, steps[n].at);
      if steps[n].Record? {
        SumSnoc(s.ledger, Spend(steps[n].amount, DayOf(steps[n].at), HourOf(steps[n].at)));
      } else if steps[n].Reset? {
        WithoutSums(s.ledger, s.day);
      }
    }
  }

  /**
   * A blocking manager admits a request exactly when its estimate is within the per-request ceiling and what
   * the hour and the day have cost so far is under theirs; the breach it names is the first of the three.
   */
  lemma AdmissionIs(c: Config, stored: seq<Spend>, start: int, steps: seq<Step>, at: int, estimate: Option<real>)
    requires Sane(stored) && c.enabled
    ensures var s := After(c, stored, start, steps).0;
            var overRequest := estimate.Some? && estimate.value > c.perRequestUsd;
            var overHour := SpentIn(c, stored, start, steps, at / 3_600_000) >= c.hourlyUsd;
            var overDay := SpentOn(c, stored, start, steps, at / 86_400_000) >= c.dailyUsd;
            && (c.blocks ==> (Admits(c, s, Check(at, estimate)) <==> !overRequest && !overHour && !overDay))
            && BreachOf(c, Rolled(s, at), estimate) ==
               if overRequest then PerRequest else if overHour then Hourly else if overDay then Daily else NoBreach
  {
    LedgerHoldsSpends(c, stored, start, steps);
    CachesAgree(c, stored, start, steps);
    RollAgrees(After(c, stored, start, steps).0, at);
  }

  /** A disabled manager, and one that does not block, admit every request. */
  lemma OthersAdmit(c: Config, s: State, at: int, estimate: Option<real>)
    requires !c.enabled || !c.blocks
    ensures Admits(c, s, Check(at, estimate))
  {
  }

  predicate HasReset(steps: seq<Step>) {
    exists i :: 0 <= i < |steps| && steps[i].Reset?
  }

  lemma {:induction false} SpentGrows(c: Config, stored: seq<Spend>, start: int, a: seq<Step>, b: seq<Step>,
                                      window: int)
    requires !HasReset(b)
    ensures SpentOn(c, stored, start, a, window) <= SpentOn(c, stored, start, a + b, window)
    ensures SpentIn(c, stored, start, a, window) <= SpentIn(c, stored, start, a + b, window)
  {
    if b == [] {
      AppendNone(a);
    } else {
      var n := |b| - 1;
      assert !b[n].Reset?;
      SpentGrows(c, stored, start, a, b[..n], window);
      assert (a + b)[..|a| + n] == a + b[..n] && (a + b)[|a| + n] == b[n];
    }
  }

  /** Once a window has cost its ceiling, a blocking manager admits nothing in that window until a reset. */
  lemma ShutUntilReset(c: Config, stored: seq<Spend>, start: int, steps: seq<Step>, more: seq<Step>, at: int,
                       estimate: Option<real>)
    requires Sane(stored) && c.enabled && c.blocks && !HasReset(more)
    requires || SpentOn(c, stored, start, steps, at / 86_400_000) >= c.dailyUsd
             || SpentIn(c, stored, start, steps, at / 3_600_000) >= c.hourlyUsd
    ensures !Admits(c, After(c, stored, start, steps + more).0, Check(at, estimate))
  {
    SpentGrows(c, stored, start, steps, more, at / 86_400_000);
    SpentGrows(c, stored, start, steps, more, at / 3_600_000);
    AdmissionIs(c, stored, start, steps + more, at, estimate);
  }

  // ----- How far a blocking ceiling can be overshot -----

  function Times(n: nat, cost: real): real {
    if n == 0 then 0.0 else Times(n - 1, cost) + cost
  }

  lemma {:induction false} TimesGrows(m: nat, n: nat, cost: real)
    requires m <= n && cost >= 0.0
    ensures 0.0 <= Times(m, cost) <= Times(n, cost)
    decreases n
  {
    if n > 0 {
      TimesGrows(if m < n then m else n - 1, n - 1, cost);
    }
  }

  /**
   * The clock does not run backwards, at most `k` requests wait at once, each costs at most `cost` and is
   * admitted first.
   */
  ghost predicate Paced(c: Config, stored: seq<Spend>, start: int, steps: seq<Step>, k: nat, cost: real)
    decreases steps
  {
    steps == [] ||
    var n := |steps| - 1;
    && Paced(c, stored, start, steps[..n], k, cost)
    && Latest(start, steps[..n]) <= steps[n].at
    && (steps[n].Record? ==> steps[n].amount <= cost && After(c, stored, start, steps[..n]).1 > 0)
    && 0 <= After(c, stored, start, steps).1 <= k
  }

  /** No window of the ledger is past its bound, and no spend is in a window after this time. */
  ghost predicate Within(ledger: seq<Spend>, hourly: real, daily: real, now: int) {
    && (forall h :: HourSum(ledger, h) <= hourly) && (forall d :: DaySum(ledger, d) <= daily)
    && (forall h :: h > HourOf(now) ==> HourSum(ledger, h) == 0.0)
    && (forall d :: d > DayOf(now) ==> DaySum(ledger, d) == 0.0)
  }

  /** Besides, what waits still fits the current windows. */
  ghost predicate Fits(c: Config, ledger: seq<Spend>, waiting: nat, k: nat, cost: real, now: int) {
    && Within(ledger, c.hourlyUsd + Times(k, cost), c.dailyUsd + Times(k, cost), now)
    && HourSum(ledger, HourOf(now)) + Times(waiting, cost) <= c.hourlyUsd + Times(k, cost)
    && DaySum(ledger, DayOf(now)) + Times(waiting, cost) <= c.dailyUsd + Times(k, cost)
  }

  lemma LaterWindows(now: int, later: int)
    requires now <= later
    ensures HourOf(now) <= HourOf(later) && DayOf(now) <= DayOf(later)
  {
  }

  lemma TimePasses(c: Config, ledger: seq<Spend>, waiting: nat, k: nat, cost: real, now: int, later: int)
    requires Fits(c, ledger, waiting, k, cost, now) && now <= later && waiting <= k
    requires cost >= 0.0 && c.hourlyUsd >= 0.0 && c.dailyUsd >= 0.0
    ensures Fits(c, ledger, waiting, k, cost, later)
  {
    LaterWindows(now, later);
    TimesGrows(waiting, k, cost);
  }

  lemma RecordFits(c: Config, ledger: seq<Spend>, waiting: nat, k: nat, cost: real, now: int, amount: real)
    requires Fits(c, ledger, waiting, k, cost, now) && 0 < waiting && 0.0 < amount <= cost
    ensures Fits(c, ledger + [Spend(amount, DayOf(now), HourOf(now))], waiting - 1, k, cost, now)
  {
    SumSnoc(ledger, Spend(amount, DayOf(now), HourOf(now)));
    TimesGrows(waiting - 1, waiting - 1, cost);
  }

  lemma FewerFit(c: Config, ledger: seq<Spend>, waiting: nat, fewer: nat, k: nat, cost: real, now: int)
    requires Fits(c, ledger, waiting, k, cost, now) && fewer <= waiting && cost >= 0.0
    ensures Fits(c, ledger, fewer, k, cost, now)
  {
    TimesGrows(fewer, waiting, cost);
  }

  /** A request is admitted only while both windows are under their ceilings. */
  lemma AdmitFits(c: Config, s: State, waiting: nat, k: nat, cost: real, step: Step)
    requires c.enabled && c.blocks && cost >= 0.0 && waiting < k && Agrees(s)
    requires Fits(c, s.ledger, waiting, k, cost, step.at) && Admits(c, s, step)
    ensures Fits(c, s.ledger, waiting + 1, k, cost, step.at)
  {
    RollAgrees(s, step.at);
    TimesGrows(waiting + 1, k, cost);
  }

  lemma ResetFits(c: Config, ledger: seq<Spend>, waiting: nat, k: nat, cost: real, now: int, day: int)
    requires Fits(c, ledger, waiting, k, cost, now) && Sane(ledger) && waiting <= k
    requires cost >= 0.0 && c.hourlyUsd >= 0.0 && c.dailyUsd >= 0.0
    ensures Fits(c, Without(ledger, day), waiting, k, cost, now)
  {
    WithoutSums(ledger, day);
    TimesGrows(waiting, k, cost);
  }

  lemma StepFits(c: Config, s: State, waiting: nat, after: nat, k: nat, cost: real, step: Step)
    requires c.enabled && c.blocks && cost >= 0.0 && c.hourlyUsd >= 0.0 && c.dailyUsd >= 0.0
    requires Agrees(s) && waiting <= k && after <= k && Fits(c, s.ledger, waiting, k, cost, step.at)
    requires step.Record? ==> step.amount <= cost && waiting > 0
    requires after == if Admits(c, s, step) then waiting + 1 else if step.Record? then waiting - 1 else waiting
    ensures Fits(c, Performed(c, s, step).ledger, after, k, cost, step.at)
  {
    match step {
      case Check(at, _) =>
        RollAgrees(s, at);
        if Admits(c, s, step) {
          AdmitFits(c, s, waiting, k, cost, step);
        }
      case Record(at, amount) =>
        RollAgrees(s, at);
        if amount > 0.0 {
          RecordFits(c, s.ledger, waiting, k, cost, at, amount);
        } else {
          FewerFit(c, s.ledger, waiting, after, k, cost, at);
        }
      case Status(at) => RollAgrees(s, at);
      case Reset(at) => ResetFits(c, s.ledger, waiting, k, cost, at, s.day);
    }
  }

  lemma StartFits(c: Config, stored: seq<Spend>, start: int, k: nat, cost: real)
    requires cost >= 0.0 && Within(stored, c.hourlyUsd, c.dailyUsd, start)
    ensures Fits(c, stored, 0, k, cost, start)
  {
    TimesGrows(0, k, cost);
  }

  lemma NextFits(c: Config, s: State, waiting: nat, after: nat, k: nat, cost: real, before: int, step: Step)
    requires c.enabled && c.blocks && cost >= 0.0 && c.hourlyUsd >= 0.0 && c.dailyUsd >= 0.0
    requires Agrees(s) && waiting <= k && after <= k && Fits(c, s.ledger, waiting, k, cost, before) && before <= step.at
    requires step.Record? ==> step.amount <= cost && waiting > 0
    requires after == if Admits(c, s, step) then waiting + 1 else if step.Record? then waiting - 1 else waiting
    ensures Fits(c, Performed(c, s, step).ledger, after, k, cost, step.at)
  {
    TimePasses(c, s.ledger, waiting, k, cost, before, step.at);
    StepFits(c, s, waiting, after, k, cost, step);
  }

  /** A blocking manager with sensible ceilings, opened on a ledger within them. */
  ghost predicate Guarded(c: Config, stored: seq<Spend>, start: int, cost: real) {
    && c.enabled && c.blocks && cost >= 0.0 && c.hourlyUsd >= 0.0 && c.dailyUsd >= 0.0
    && Sane(stored) && Within(stored, c.hourlyUsd, c.dailyUsd, start)
  }

  /** The time of the latest operation. */
  function Latest(start: int, steps: seq<Step>): int {
    if steps == [] then start else steps[|steps| - 1].at
  }

  /** What waits is within bounds and fits. */
  ghost predicate FitsAt(c: Config, end: (State, int), k: nat, cost: real, now: int) {
    0 <= end.1 <= k && Fits(c, end.0.ledger, end.1, k, cost, now)
  }

  lemma {:induction false} RunFits(c: Config, stored: seq<Spend>, start: int, steps: seq<Step>, k: nat, cost: real)
    requires Guarded(c, stored, start, cost) && Paced(c, stored, start, steps, k, cost)
    ensures FitsAt(c, After(c, stored, start, steps), k, cost, Latest(start, steps))
    decreases steps
  {
    if steps == [] {
      StartFits(c, stored, start, k, cost);
    } else {
      var n := |steps| - 1;
      var end := After(c, stored, start, steps[..n]);
      RunFits(c, stored, start, steps[..n], k, cost);
      CachesAgree(c, stored, start, steps[..n]);
      NextFits(c, end.0, end.1, After(c, stored, start, steps).1, k, cost, Latest(start, steps[..n]), steps[n]);
    }
  }

  /**
   * With a blocking ceiling, and a stored ledger within it, no hour and no day ever costs more than its
   * ceiling and what the `k` requests that can be waiting at once may cost.
   */
  lemma OvershootBounded(c: Config, stored: seq<Spend>, start: int, steps: seq<Step>, k: nat, cost: real, window: int)
    requires Guarded(c, stored, start, cost) && Paced(c, stored, start, steps, k, cost)
    ensures var ledger := After(c, stored, start, steps).0.ledger;
            && HourSum(ledger, window) <= c.hourlyUsd + Times(k, cost)
            && DaySum(ledger, window) <= c.dailyUsd + Times(k, cost)
  {
    RunFits(c, stored, start, steps, k, cost);
  }

  // ----- What a reset leaves -----

  /** The clock does not run backwards. */
  predicate Forward(start: int, steps: seq<Step>) {
    forall i :: 0 <= i < |steps| ==> Latest(start, steps[..i]) <= steps[i].at
  }

  /** No spend is of a later day than the caches are, and they are of none later than this time. */
  ghost predicate UpToDate(s: State, now: int) {
    s.day <= DayOf(now) && forall x :: x in s.ledger ==> x.day <= s.day
  }

  lemma {:induction false} NoLaterSpend(ledger: seq<Spend>, day: int, later: int)
    requires day < later && forall x :: x in ledger ==> x.day <= day
    ensures DaySum(ledger, later) == 0.0
  {
    if ledger != [] {
      assert ledger[|ledger| - 1] in ledger;
      NoLaterSpend(ledger[..|ledger| - 1], day, later);
    }
  }

  lemma StepUpToDate(c: Config, s: State, step: Step)
    requires UpToDate(s, step.at)
    ensures UpToDate(Performed(c, s, step), step.at)
  {
    WithoutSums(s.ledger, s.day);
  }

  lemma {:induction false} RunUpToDate(c: Config, stored: seq<Spend>, start: int, steps: seq<Step>)
    requires Forward(start, steps) && forall x :: x in stored ==> x.day <= DayOf(start)
    ensures UpToDate(After(c, stored, start, steps).0, Latest(start, steps))
    decreases steps
  {
    if steps != [] {
      var n := |steps| - 1;
      var s := After(c, stored, start, steps[..n]).0;
      ForwardPrefix(start, steps);
      RunUpToDate(c, stored, start, steps[..n]);
      LaterWindows(Latest(start, steps[..n]), steps[n].at);
      StepUpToDate(c, s, steps[n]);
    }
  }

  lemma ForwardPrefix(start: int, steps: seq<Step>)
    requires Forward(start, steps) && steps != []
    ensures Forward(start, steps[..|steps| - 1])
  {
    var shorter := steps[..|steps| - 1];
    forall i | 0 <= i < |shorter|
      ensures Latest(start, shorter[..i]) <= shorter[i].at
    {
      assert shorter[..i] == steps[..i];
    }
  }

  lemma CurrentCleared(s: State, now: int)
    requires Agrees(s) && UpToDate(s, now)
    ensures var r := Refreshed(Without(s.ledger, s.day), now);
            r.dailyCache == 0.0 && r.hourlyCache == 0.0
  {
    WithoutSums(s.ledger, s.day);
    if s.day < DayOf(now) {
      NoLaterSpend(s.ledger, s.day, DayOf(now));
    }
    DayOfHour(now);
    ResetAgrees(s, now);
    HourWithinDay(Without(s.ledger, s.day), HourOf(now));
  }

  /**
   * After any run on a forward clock a reset leaves nothing spent in the current windows, even when the day
   * has turned unnoticed since the operation before it.
   */
  lemma ResetClears(c: Config, stored: seq<Spend>, start: int, steps: seq<Step>, now: int)
    requires Sane(stored) && (forall x :: x in stored ==> x.day <= DayOf(start))
    requires Forward(start, steps) && Latest(start, steps) <= now
    ensures var s := After(c, stored, start, steps + [Reset(now)]).0;
            s.day == DayOf(now) && s.hour == HourOf(now) && s.dailyCache == 0.0 && s.hourlyCache == 0.0
  {
    var s := After(c, stored, start, steps).0;
    CachesAgree(c, stored, start, steps);
    RunUpToDate(c, stored, start, steps);
    LaterWindows(Latest(start, steps), now);
    CurrentCleared(s, now);
    assert (steps + [Reset(now)])[..|steps|] == steps;
  }
}
