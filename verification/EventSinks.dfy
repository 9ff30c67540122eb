/**
 * One sink of the event registry: a bounded queue drained by one asynchronous worker.
 * Emissions and handler completions interleave as they please.
 */
module EventSinks {
  import opened Base

  /** Whether the handler throws before it first waits, asked of the n-th job it is given. */
  type Throws = (nat, string) -> bool

  /**
   * The runtime state of a sink. `emitted` and `started` are its history: the jobs handed to it and the
   * jobs its handler was called with.
   */
  datatype State = State(queue: seq<string>, processing: bool, inFlight: Option<string>, dropped: nat, errors: nat,
                         delivered: nat, emitted: seq<string>, started: seq<string>)

  const IDLE := State([], false, None, 0, 0, 0, [], [])

  /** The queue after the oldest job is dropped, should it be full; an empty full queue has none to drop. */
  function MakeRoom(s: State, limit: int): State {
    if |s.queue| < limit then s
    else s.(queue := if s.queue == [] then [] else s.queue[1..], dropped := s.dropped + 1)
  }

  /** The worker's loop, up to the next handler that waits or the end of the queue. */
  function Drain(s: State, throws: Throws): State
    decreases |s.queue|
  {
    if s.queue == [] then s.(processing := false)
    else
      var job := s.queue[0];
      var begun := s.(queue := s.queue[1..], processing := true, started := s.started + [job]);
      if throws(|s.started|, job) then Drain(begun.(errors := begun.errors + 1), throws)
      else begun.(inFlight := Some(job))
  }

  function Emitted(s: State, job: string, limit: int, throws: Throws): State {
    var room := MakeRoom(s, limit);
    var pushed := room.(queue := room.queue + [job], emitted := room.emitted + [job]);
    if pushed.processing then pushed else Drain(pushed, throws)
  }

  /** The handler in flight, if any, returns or rejects; the worker goes on. */
  function Settled(s: State, ok: bool, throws: Throws): State {
    if s.inFlight.None? then s
    else
      Drain(if ok then s.(inFlight := None, delivered := s.delivered + 1)
            else s.(inFlight := None, errors := s.errors + 1), throws)
  }

  lemma DrainThrows(s: State, throws: Throws)
    requires s.queue != [] && throws(|s.started|, s.queue[0])
    ensures Drain(s, throws) == Drain(s.(queue := s.queue[1..], processing := true, started := s.started + [s.queue[0]],
                                        errors := s.errors + 1), throws)
  {
  }

  class Sink {
    const queueLimit: int
    const throws: Throws
    var queue: seq<string>
    var processing: bool
    var inFlight: Option<string>
    var dropped: nat
    var errors: nat
    var delivered: nat
    ghost var emitted: seq<string>
    ghost var started: seq<string>
    var calls: nat

    ghost function Fields(): State
      reads this
    {
      State(queue, processing, inFlight, dropped, errors, delivered, emitted, started)
    }

    ghost predicate Valid()
      reads this
    {
      calls == |started|
    }

    constructor (limit: int, t: Throws)
      ensures Valid() && Fields() == IDLE && queueLimit == limit && throws == t
    {
      queueLimit, throws := limit, t;
      queue, processing, inFlight, dropped, errors, delivered, calls := [], false, None, 0, 0, 0, 0;
      emitted, started := [], [];
    }

    /** `enqueue`. */
    method Enqueue(job: string)
      requires Valid()
      modifies this
      ensures Valid() && Fields() == Emitted(old(Fields()), job, queueLimit, throws)
    {
      if |queue| >= queueLimit {
        if |queue| > 0 {
          queue := queue[1..];
        }
        dropped := dropped + 1;
      }
      queue := queue + [job];
      emitted := emitted + [job];
      if !processing {
        Process();
      }
    }

    /** `process`, up to its next wait. */
    method Process()
      requires Valid()
      modifies this
      ensures Valid() && Fields() == Drain(old(Fields()), throws)
    {
      while |queue| > 0
        invariant Valid()
        invariant Drain(Fields(), throws) == Drain(old(Fields()), throws)
        decreases |queue|
      {
        ghost var before := Fields();
        processing := true;
        var job := queue[0];
        queue := queue[1..];
        started := started + [job];
        calls := calls + 1;
        if !throws(calls - 1, job) {
          inFlight := Some(job);
          return;
        }
        errors := errors + 1;
        DrainThrows(before, throws);
      }
      processing := false;
    }

    /** The handler in flight settles, and the worker's loop resumes after its wait. */
    method Settle(ok: bool)
      requires Valid()
      modifies this
      ensures Valid() && Fields() == Settled(old(Fields()), ok, throws)
    {
      if inFlight.None? {
        return;
      }
      inFlight := None;
      if ok {
        delivered := delivered + 1;
      } else {
        errors := errors + 1;
      }
      Process();
    }
  }

  // ----- What every interleaving keeps -----

  /** `a` is what is left of `b` when some of its elements are dropped. */
  predicate Subsequence(a: seq<string>, b: seq<string>) {
    if a == [] then true
    else if b == [] then false
    else
      || Subsequence(a, b[..|b| - 1])
      || (a[|a| - 1] == b[|b| - 1] && Subsequence(a[..|a| - 1], b[..|b| - 1]))
  }

  lemma MoreSeen(a: seq<string>, b: seq<string>, x: string)
    requires Subsequence(a, b)
    ensures Subsequence(a, b + [x]) && Subsequence(a + [x], b + [x])
  {
    assert (b + [x])[..|b|] == b && (a + [x])[..|a|] == a;
  }

  function Waiting(s: State): nat {
    if s.inFlight.Some? then 1 else 0
  }

  /** The queue holds the latest emissions; the handler was called with some of those before, in order. */
  ghost predicate Ordered(emitted: seq<string>, queue: seq<string>, started: seq<string>) {
    && |queue| <= |emitted|
    && var n := |emitted| - |queue|;
       queue == emitted[n..] && Subsequence(started, emitted[..n])
  }

  ghost predicate InOrder(s: State) {
    Ordered(s.emitted, s.queue, s.started)
  }

  /** Every job is accounted for. With no room at all, every emission is counted as a drop. */
  ghost predicate Counted(s: State, limit: int) {
    && |s.started| == s.delivered + s.errors + Waiting(s)
    && (if limit >= 1 then |s.emitted| == |s.started| + s.dropped + |s.queue| else s.dropped == |s.emitted|)
  }

  /** The oldest job of a queue, given to the handler. */
  function Begun(s: State): State
    requires s.queue != []
  {
    s.(queue := s.queue[1..], processing := true, started := s.started + [s.queue[0]])
  }

  lemma BegunInOrder(emitted: seq<string>, queue: seq<string>, started: seq<string>)
    requires Ordered(emitted, queue, started) && queue != []
    ensures Ordered(emitted, queue[1..], started + [queue[0]])
  {
    var job, n := queue[0], |emitted| - |queue|;
    assert emitted[..n + 1] == emitted[..n] + [job];
    assert queue[1..] == emitted[n + 1..];
    MoreSeen(started, emitted[..n], job);
  }

  lemma {:induction false} DrainKeepsOrder(s: State, throws: Throws, next: State)
    requires Ordered(s.emitted, s.queue, s.started) && next == Drain(s, throws)
    ensures Ordered(next.emitted, next.queue, next.started)
    decreases |s.queue|
  {
    if s.queue != [] {
      BegunInOrder(s.emitted, s.queue, s.started);
      var begun := Begun(s);
      if throws(|s.started|, s.queue[0]) {
        DrainThrows(s, throws);
        DrainKeepsOrder(begun.(errors := s.errors + 1), throws, next);
      } else {
        assert next == begun.(inFlight := Some(s.queue[0]));
      }
    }
  }

  /** What is at rest besides the order of the jobs. */
  ghost predicate Quiet(s: State, limit: int) {
    && Counted(s, limit)
    && (s.processing <==> s.inFlight.Some?)
    && (!s.processing ==> s.queue == [])
    && (s.emitted != [] ==> s.started != [])
    && (s.inFlight.Some? ==> s.started != [] && s.started[|s.started| - 1] == s.inFlight.value)
    && |s.queue| <= if limit >= 1 then limit else 1
  }

  lemma {:induction false} DrainQuiet(s: State, limit: int, throws: Throws)
    requires Counted(s, limit) && s.inFlight.None? && |s.queue| <= if limit >= 1 then limit else 1
    requires s.emitted != [] ==> s.started != [] || s.queue != []
    ensures Quiet(Drain(s, throws), limit)
    decreases |s.queue|
  {
    if s.queue != [] && throws(|s.started|, s.queue[0]) {
      DrainQuiet(Begun(s).(errors := s.errors + 1), limit, throws);
    }
  }

  /** At rest between steps: at most one job in flight, the queue within its bound, and no wake-up lost. */
  ghost predicate AtRest(s: State, limit: int) {
    InOrder(s) && Quiet(s, limit)
  }

  lemma DrainRests(s: State, limit: int, throws: Throws)
    requires InOrder(s) && Counted(s, limit) && s.inFlight.None? && |s.queue| <= if limit >= 1 then limit else 1
    requires s.emitted != [] ==> s.started != [] || s.queue != []
    ensures AtRest(Drain(s, throws), limit)
  {
    DrainKeepsOrder(s, throws, Drain(s, throws));
    DrainQuiet(s, limit, throws);
  }

  lemma RoomInOrder(s: State, limit: int)
    requires AtRest(s, limit)
    ensures var room := MakeRoom(s, limit);
            InOrder(room) && |room.queue| < if limit >= 1 then limit else 1
  {
    if |s.queue| >= limit && s.queue != [] {
      var n := |s.emitted| - |s.queue|;
      MoreSeen(s.started, s.emitted[..n], s.queue[0]);
      assert s.emitted[..n + 1] == s.emitted[..n] + [s.queue[0]];
      assert s.queue[1..] == s.emitted[n + 1..];
    }
  }

  lemma EmitRests(s: State, job: string, limit: int, throws: Throws)
    requires AtRest(s, limit)
    ensures AtRest(Emitted(s, job, limit, throws), limit)
  {
    RoomInOrder(s, limit);
    var room := MakeRoom(s, limit);
    var pushed := room.(queue := room.queue + [job], emitted := room.emitted + [job]);
    var n := |room.emitted| - |room.queue|;
    assert pushed.emitted[..n] == room.emitted[..n];
    assert pushed.emitted[n..] == room.emitted[n..] + [job];
    if !pushed.processing {
      DrainRests(pushed, limit, throws);
    }
  }

  lemma SettleRests(s: State, ok: bool, limit: int, throws: Throws)
    requires AtRest(s, limit)
    ensures AtRest(Settled(s, ok, throws), limit)
  {
    if s.inFlight.Some? {
      DrainRests(if ok then s.(inFlight := None, delivered := s.delivered + 1)
                 else s.(inFlight := None, errors := s.errors + 1), limit, throws);
    }
  }

  /** One step of an interleaving. */
  datatype Step = Emit(job: string) | Settle(ok: bool)

  function Run(steps: seq<Step>, limit: int, throws: Throws): State {
    if steps == [] then IDLE
    else
      var before := Run(steps[..|steps| - 1], limit, throws);
      match steps[|steps| - 1]
      case Emit(job) => Emitted(before, job, limit, throws)
      case Settle(ok) => Settled(before, ok, throws)
  }

  lemma {:induction false} RunRests(steps: seq<Step>, limit: int, throws: Throws)
    ensures AtRest(Run(steps, limit, throws), limit)
  {
    if steps != [] {
      var before := steps[..|steps| - 1];
      RunRests(before, limit, throws);
      match steps[|steps| - 1] {
        case Emit(job) => EmitRests(Run(before, limit, throws), job, limit, throws);
        case Settle(ok) => SettleRests(Run(before, limit, throws), ok, limit, throws);
      }
    }
  }

  /**
   * After any interleaving, the counters account for every emission exactly when the queue may hold a job
   * at all, or nothing was ever emitted: a limit below 1 counts drops that do not happen.
   */
  lemma CountersAgree(steps: seq<Step>, limit: int, throws: Throws)
    ensures var s := Run(steps, limit, throws);
            |s.emitted| == s.delivered + s.errors + s.dropped + |s.queue| + Waiting(s)
            <==> limit >= 1 || s.emitted == []
  {
    RunRests(steps, limit, throws);
  }

  /** The registry's drain loop ends only when nothing is left: an idle worker has an empty queue. */
  lemma NoLostWakeUp(steps: seq<Step>, limit: int, throws: Throws)
    ensures var s := Run(steps, limit, throws);
            && (!s.processing ==> s.queue == [] && s.inFlight.None?)
            && (s.processing ==> s.inFlight.Some?)
            && |s.queue| <= (if limit >= 1 then limit else 1)
            && Subsequence(s.started, s.emitted)
  {
    RunRests(steps, limit, throws);
    var s := Run(steps, limit, throws);
    SeenAll(s.started, s.emitted, |s.emitted| - |s.queue|);
  }

  lemma {:induction false} SeenAll(a: seq<string>, b: seq<string>, n: nat)
    requires n <= |b| && Subsequence(a, b[..n])
    ensures Subsequence(a, b)
    decreases |b| - n
  {
    if n == |b| {
      assert b[..n] == b;
    } else {
      MoreSeen(a, b[..n], b[n]);
      assert b[..n + 1] == b[..n] + [b[n]];
      SeenAll(a, b, n + 1);
    }
  }

  // ----- What the counters count -----

  /** The emissions that found the queue full. */
  function Fulls(steps: seq<Step>, limit: int, throws: Throws): nat {
    if steps == [] then 0
    else
      var n := |steps| - 1;
      Fulls(steps[..n], limit, throws)
      + if steps[n].Emit? && |Run(steps[..n], limit, throws).queue| >= limit then 1 else 0
  }

  /** The handlers in flight that returned, or that rejected. */
  function Returned(steps: seq<Step>, limit: int, throws: Throws, ok: bool): nat {
    if steps == [] then 0
    else
      var n := |steps| - 1;
      Returned(steps[..n], limit, throws, ok)
      + if steps[n].Settle? && steps[n].ok == ok && Run(steps[..n], limit, throws).inFlight.Some? then 1 else 0
  }

  /** The handlers that threw at once. */
  function Thrown(started: seq<string>, throws: Throws): nat {
    if started == [] then 0
    else
      var n := |started| - 1;
      Thrown(started[..n], throws) + if throws(n, started[n]) then 1 else 0
  }

  lemma {:induction false} DrainCounts(s: State, throws: Throws)
    ensures var next := Drain(s, throws);
            && next.dropped == s.dropped && next.delivered == s.delivered
            && next.errors + Thrown(s.started, throws) == s.errors + Thrown(next.started, throws)
    decreases |s.queue|
  {
    if s.queue != [] {
      var begun := Begun(s);
      assert begun.started[..|s.started|] == s.started;
      if throws(|s.started|, s.queue[0]) {
        DrainCounts(begun.(errors := s.errors + 1), throws);
      }
    }
  }

  lemma EmitCounts(s: State, job: string, limit: int, throws: Throws)
    ensures var next := Emitted(s, job, limit, throws);
            && next.dropped == s.dropped + (if |s.queue| >= limit then 1 else 0) && next.delivered == s.delivered
            && next.errors + Thrown(s.started, throws) == s.errors + Thrown(next.started, throws)
  {
    var room := MakeRoom(s, limit);
    DrainCounts(room.(queue := room.queue + [job], emitted := room.emitted + [job]), throws);
  }

  lemma SettleCounts(s: State, ok: bool, throws: Throws)
    ensures var next, settles := Settled(s, ok, throws), if s.inFlight.Some? then 1 else 0;
            && next.dropped == s.dropped && next.delivered == s.delivered + (if ok then settles else 0)
            && next.errors + Thrown(s.started, throws) ==
               s.errors + (if ok then 0 else settles) + Thrown(next.started, throws)
  {
    if s.inFlight.Some? {
      DrainCounts(if ok then s.(inFlight := None, delivered := s.delivered + 1)
                  else s.(inFlight := None, errors := s.errors + 1), throws);
    }
  }

  /**
   * A drop is counted for each emission that found the queue full, a delivery for each handler that returned, and
   * an error for each that rejected or threw.
   */
  lemma {:induction false} CountersMean(steps: seq<Step>, limit: int, throws: Throws)
    ensures var s := Run(steps, limit, throws);
            && s.dropped == Fulls(steps, limit, throws)
            && s.delivered == Returned(steps, limit, throws, true)
            && s.errors == Returned(steps, limit, throws, false) + Thrown(s.started, throws)
  {
    if steps != [] {
      var n := |steps| - 1;
      var before := Run(steps[..n], limit, throws);
      CountersMean(steps[..n], limit, throws);
      if steps[n].Emit? {
        EmitCounts(before, steps[n].job, limit, throws);
      } else {
        SettleCounts(before, steps[n].ok, throws);
      }
    }
  }
}
