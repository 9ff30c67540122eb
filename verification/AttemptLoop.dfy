/**
 * The gateway's attempt loop: each planned hop is dispatched, retried, rotated or
 * fallen back from until one answers or the failure is final. The transport, the
 * error classifier and the cooldown breaker answer as they please.
 */
module AttemptLoop {
  import opened Base
  import opened Routing
  import opened Lifecycle
  import opened AttemptRules
  import opened AttemptRuns

  /** What may settle a request before any dispatch. */
  datatype Gate = Proceed | CachedReply | OverBudget | ToolsDenied

  // ----- What an account of a request is -----

  /** Every attempt superseded so far has its one attempt event, of a fault that may be tried again. */
  ghost predicate Superseded(attempts: seq<Attempt>, events: seq<UsageEvent>)
    reads attempts
  {
    && |events| == |attempts|
    && forall i :: 0 <= i < |attempts| ==>
         && attempts[i].attemptIndex == i
         && events[i].kind == AttemptFinal && events[i].attemptIndex == i && !events[i].success
         && events[i].outcome.Fault? && events[i].outcome.category !in DETERMINISTIC
         && attempts[i].terminalState == Some(TerminalOf(events[i].outcome.category))
         && attempts[i].httpStatus == events[i].httpStatus
  }

  /**
   * The whole account: all attempts but the last superseded, and the last one's event, unless it waits for a
   * stream.
   */
  ghost predicate Accounted(ctx: RequestContext, ending: Ending, events: seq<UsageEvent>)
    reads ctx, ctx.attempts
  {
    var n := |ctx.attempts| - 1;
    && n >= 0 && n <= |events|
    && Superseded(ctx.attempts[..n], events[..n])
    && ctx.attempts[n].attemptIndex == n
    && ctx.attempts[n].terminalState.Some? && ctx.terminalState == ctx.attempts[n].terminalState
    && events[n..] == LastEvents(ending, n, ctx.attempts[n].httpStatus)
  }

  /** The last attempt started, and what was emitted for those before it. */
  ghost predicate Current(ctx: RequestContext, attempt: Attempt, events: seq<UsageEvent>)
    reads ctx, ctx.attempts
  {
    var n := |ctx.attempts| - 1;
    && n >= 0 && ctx.attempts[n] == attempt && attempt !in ctx.attempts[..n] && attempt.attemptIndex == n
    && ctx.terminalState.None? && Superseded(ctx.attempts[..n], events)
  }

  /** Settle the request on its last attempt: complete it, and emit the logical-request event unless a stream is to. */
  method Settle(ctx: RequestContext, attempt: Attempt, events: seq<UsageEvent>, ending: Ending)
    returns (all: seq<UsageEvent>)
    requires Current(ctx, attempt, events) && attempt.terminalState.Some?
    modifies ctx
    ensures ctx.attempts == old(ctx.attempts)
    ensures all == events + LastEvents(ending, attempt.attemptIndex, attempt.httpStatus)
    ensures Accounted(ctx, ending, all)
  {
    ctx.Complete(attempt.terminalState.value);
    all := events + LastEvents(ending, attempt.attemptIndex, attempt.httpStatus);
    assert all[..|events|] == events && all[|events|..] == LastEvents(ending, attempt.attemptIndex, attempt.httpStatus);
  }

  /** What a turn on hop `w.hops[0]` must have done by the ruling on it. */
  ghost predicate Ruled(ruling: Ruling, index: nat, events: seq<UsageEvent>, verdict: Option<Ending>,
                        all: seq<UsageEvent>, slept: int, work: Work) {
    match ruling
    case PassOver(next) => verdict.None? && work == next && all == events && slept == 0
    case TryAgain(next, category, status, delay) =>
      && verdict.None? && work == next && slept == delay
      && all == events + [UsageEvent(AttemptFinal, index, false, Fault(category), status)]
    case Conclude(ending, _, status) =>
      verdict == Some(ending) && all == events + LastEvents(ending, index, status) && slept == 0
  }

  /** An attempt failed: go on if the queue can, with an attempt event, or settle the request on it. */
  method Fail(ctx: RequestContext, attempt: Attempt, queue: WorkQueue, events: seq<UsageEvent>, config: Config,
              hop: Hop, category: Category, status: Option<int>, now: Turn)
    returns (verdict: Option<Ending>, all: seq<UsageEvent>, slept: int)
    requires Current(ctx, attempt, events) && attempt.terminalState.None?
    modifies ctx, attempt, queue
    ensures ctx.attempts == old(ctx.attempts)
    ensures var ruling := RuleFailure(config, old(queue.Contents()), hop, category, status, now);
            && Ruled(ruling, attempt.attemptIndex, events, verdict, all, slept, queue.Contents())
            && (ruling.Conclude? ==> attempt.terminalState == Some(ruling.state))
    ensures verdict.Some? ==> Accounted(ctx, verdict.value, all)
    ensures verdict.None? && category !in DETERMINISTIC ==> Superseded(ctx.attempts, all) && ctx.terminalState.None?
  {
    attempt.Complete(TerminalOf(category), status);
    var more;
    more, slept := queue.AdvanceAfterFailure(category, status, now.preStream, hop, config, now.random);
    if more {
      verdict := None;
      all := events + [UsageEvent(AttemptFinal, attempt.attemptIndex, false, Fault(category), status)];
      assert ctx.attempts == ctx.attempts[..|ctx.attempts| - 1] + [attempt];
    } else {
      verdict := Some(Failed(category, status));
      all := Settle(ctx, attempt, events, Failed(category, status));
    }
  }

  /** Start an attempt after those superseded. */
  method Begin(ctx: RequestContext, events: seq<UsageEvent>, hop: Hop) returns (attempt: Attempt)
    requires Superseded(ctx.attempts, events) && ctx.terminalState.None?
    modifies ctx
    ensures fresh(attempt) && attempt.terminalState.None? && attempt.hop == hop
    ensures attempt.attemptIndex == |old(ctx.attempts)| && ctx.attempts == old(ctx.attempts) + [attempt]
    ensures Current(ctx, attempt, events)
  {
    attempt := ctx.StartAttempt(hop);
    assert ctx.attempts[..|ctx.attempts| - 1] == old(ctx.attempts);
  }

  /** An attempt that ends the request before, or instead of, an upstream call. */
  method Refuse(ctx: RequestContext, events: seq<UsageEvent>, hop: Hop, state: TerminalState, ending: Ending)
    returns (attempt: Attempt, all: seq<UsageEvent>)
    requires Superseded(ctx.attempts, events) && ctx.terminalState.None?
    modifies ctx
    ensures attempt.hop == hop && attempt.terminalState == Some(state)
    ensures attempt.attemptIndex == |old(ctx.attempts)| && ctx.attempts == old(ctx.attempts) + [attempt]
    ensures all == events + LastEvents(ending, attempt.attemptIndex, None)
    ensures Accounted(ctx, ending, all)
  {
    attempt := Begin(ctx, events, hop);
    attempt.Complete(state, None);
    all := Settle(ctx, attempt, events, ending);
  }

  /** The winning attempt: a buffered response is settled at once, a streamed one when its stream ends. */
  method Win(ctx: RequestContext, attempt: Attempt, events: seq<UsageEvent>, status: int, streamed: bool)
    returns (ending: Ending, all: seq<UsageEvent>, end: Option<StreamEnd>)
    requires Current(ctx, attempt, events) && attempt.terminalState.None?
    modifies ctx, attempt
    ensures ctx.attempts == old(ctx.attempts) && attempt.terminalState == Some(Success)
    ensures ending == if streamed then Streamed(status) else Buffered(status)
    ensures all == events + LastEvents(ending, attempt.attemptIndex, Some(status))
    ensures Accounted(ctx, ending, all)
    ensures end.Some? == streamed && (end.Some? ==> fresh(end.value))
    ensures streamed ==>
              !end.value.emitted && end.value.attemptIndex == attempt.attemptIndex && end.value.httpStatus == status
  {
    attempt.Complete(Success, Some(status));
    end := None;
    ending := Buffered(status);
    if streamed {
      var waiting := new StreamEnd(attempt.attemptIndex, status);
      ending, end := Streamed(status), Some(waiting);
    }
    all := Settle(ctx, attempt, events, ending);
  }

  /** Pass over a cooling hop: the next candidate stands in for it, and nothing is started or emitted. */
  method Skip(ctx: RequestContext, queue: WorkQueue, hop: Hop, ghost events: seq<UsageEvent>)
    requires queue.hops != [] && Superseded(ctx.attempts, events)
    modifies queue
    ensures queue.Contents() ==
            old(queue.Contents()).(hops := [Stamped(old(queue.hops)[0], hop)] + old(queue.hops)[1..])
    ensures Superseded(ctx.attempts, events)
  {
    queue.StampNext(hop);
  }

  /** The upstream call brought back an exception, an error status or a success. */
  method Respond(ctx: RequestContext, attempt: Attempt, queue: WorkQueue, events: seq<UsageEvent>, config: Config,
                 hop: Hop, now: Turn)
    returns (verdict: Option<Ending>, all: seq<UsageEvent>, slept: int, end: Option<StreamEnd>)
    requires Current(ctx, attempt, events) && attempt.terminalState.None?
    requires var ruling := RuleReply(config, queue.Contents(), hop, now);
             ruling.TryAgain? ==> ruling.category !in DETERMINISTIC
    modifies ctx, attempt, queue
    ensures ctx.attempts == old(ctx.attempts)
    ensures var ruling := RuleReply(config, old(queue.Contents()), hop, now);
            && Ruled(ruling, attempt.attemptIndex, events, verdict, all, slept, queue.Contents())
            && (ruling.Conclude? ==> attempt.terminalState == Some(ruling.state))
    ensures verdict.Some? ==> Accounted(ctx, verdict.value, all) && Waits(end, verdict.value, attempt.attemptIndex)
    ensures end.Some? ==> fresh(end.value)
    ensures verdict.None? ==> Superseded(ctx.attempts, all) && ctx.terminalState.None?
  {
    slept, end := 0, None;
    match now.reply {
      case Threw(classified, aborted) =>
        var category := if aborted then ClientCancelled else classified;
        verdict, all, slept := Fail(ctx, attempt, queue, events, config, hop, category, None, now);
      case Answered(status, category, streamed) =>
        if status < 200 || status >= 300 {
          verdict, all, slept := Fail(ctx, attempt, queue, events, config, hop, category, Some(status), now);
        } else {
          var ending;
          ending, all, end := Win(ctx, attempt, events, status, streamed);
          verdict := Some(ending);
        }
    }
  }

  ghost predicate Waits(end: Option<StreamEnd>, ending: Ending, index: nat)
    reads if end.Some? then {end.value} else {}
  {
    ending.Streamed? ==>
      end.Some? && !end.value.emitted && end.value.attemptIndex == index && end.value.httpStatus == ending.status
  }

  /** Dispatch one hop that is available: without an adapter for it the request ends, else it is called. */
  method Dispatch(ctx: RequestContext, queue: WorkQueue, events: seq<UsageEvent>, config: Config, hop: Hop, now: Turn,
                  ghost ps: seq<string>, ghost w: Work)
    returns (verdict: Option<Ending>, all: seq<UsageEvent>, slept: int, attempt: Attempt, end: Option<StreamEnd>)
    requires Superseded(ctx.attempts, events) && ctx.terminalState.None?
    requires Planned(ps, config, w) && hop == w.hops[0] && queue.Contents() == w.(hops := w.hops[1..]) && now.available
    modifies ctx, queue
    ensures attempt.hop == hop && ctx.attempts == old(ctx.attempts) + [attempt]
    ensures var ruling := Rule(config, w, now);
            && Ruled(ruling, |old(ctx.attempts)|, events, verdict, all, slept, queue.Contents())
            && (ruling.Conclude? ==> attempt.terminalState == Some(ruling.state))
    ensures verdict.Some? ==> Accounted(ctx, verdict.value, all) && Waits(end, verdict.value, |ctx.attempts| - 1)
    ensures end.Some? ==> fresh(end.value)
    ensures verdict.None? ==> Superseded(ctx.attempts, all) && ctx.terminalState.None?
  {
    RuleMovesOn(ps, config, w, now);
    if now.registered {
      attempt := Begin(ctx, events, hop);
      verdict, all, slept, end := Respond(ctx, attempt, queue, events, config, hop, now);
    } else {
      attempt, all := Refuse(ctx, events, hop, InternalError, Unregistered);
      verdict, slept, end := Some(Unregistered), 0, None;
    }
  }

  // ----- The loop -----

  /** A popped hop is cooling: the next candidate stands in for it, or the request ends. */
  method Cool(ctx: RequestContext, queue: WorkQueue, events: seq<UsageEvent>, hop: Hop)
    returns (verdict: Option<Ending>, all: seq<UsageEvent>, ghost made: seq<Attempt>)
    requires Superseded(ctx.attempts, events) && ctx.terminalState.None?
    modifies ctx, queue
    ensures ctx.attempts == old(ctx.attempts) + made
    ensures if old(queue.hops) != []
            then && verdict.None? && all == events && made == []
                 && queue.Contents() ==
                    old(queue.Contents()).(hops := [Stamped(old(queue.hops)[0], hop)] + old(queue.hops)[1..])
            else && verdict == Some(Cooling(hop.provider)) && |made| == 1 && made[0].hop == hop
                 && made[0].terminalState == Some(UpstreamError)
                 && all == events + LastEvents(Cooling(hop.provider), |old(ctx.attempts)|, None)
    ensures verdict.Some? ==> Accounted(ctx, verdict.value, all)
    ensures verdict.None? ==> Superseded(ctx.attempts, all) && ctx.terminalState.None?
  {
    if |queue.hops| > 0 {
      Skip(ctx, queue, hop, events);
      verdict, all, made := None, events, [];
      assert ctx.attempts + [] == ctx.attempts;
      return;
    }
    verdict := Some(Cooling(hop.provider));
    var attempt;
    attempt, all := Refuse(ctx, events, hop, UpstreamError, verdict.value);
    made := [attempt];
  }

  /** A turn's ruling, and the attempt it was carried out in. */
  ghost predicate Carried(ruling: Ruling, hop: Hop, made: seq<Attempt>)
    reads made
  {
    && (if ruling.PassOver? then made == [] else |made| == 1 && made[0].hop == hop)
    && (ruling.Conclude? ==> made[0].terminalState == Some(ruling.state))
  }

  /** One turn of the loop: a hop is popped, and skipped, superseded or final, as ruled. */
  method TakeTurn(ctx: RequestContext, queue: WorkQueue, events: seq<UsageEvent>, config: Config, now: Turn,
                  ghost ps: seq<string>)
    returns (verdict: Option<Ending>, all: seq<UsageEvent>, slept: int, end: Option<StreamEnd>,
             ghost made: seq<Attempt>)
    requires Planned(ps, config, queue.Contents()) && Superseded(ctx.attempts, events) && ctx.terminalState.None?
    modifies ctx, queue
    ensures ctx.attempts == old(ctx.attempts) + made
    ensures var ruling := Rule(config, old(queue.Contents()), now);
            && Ruled(ruling, |old(ctx.attempts)|, events, verdict, all, slept, queue.Contents())
            && Carried(ruling, old(queue.hops)[0], made)
    ensures verdict.Some? ==> Accounted(ctx, verdict.value, all) && Waits(end, verdict.value, |ctx.attempts| - 1)
    ensures verdict.Some? ==> ctx.terminalState == Some(StateOf(verdict.value))
    ensures end.Some? ==> fresh(end.value)
    ensures verdict.None? ==> Superseded(ctx.attempts, all) && ctx.terminalState.None?
  {
    ghost var before := queue.Contents();
    var hop := queue.Shift();
    slept, end := 0, None;
    assert Superseded(ctx.attempts, events);
    if !now.available {
      verdict, all, made := Cool(ctx, queue, events, hop);
    } else {
      var attempt;
      verdict, all, slept, attempt, end := Dispatch(ctx, queue, events, config, hop, now, ps, before);
      made := [attempt];
    }
    if verdict.Some? {
      StateIs(config, before, now);
    }
  }

  /** The run so far, and the story of the rest, make the whole story. */
  ghost predicate Telling(whole: Story, stops: seq<Stop>, events: seq<UsageEvent>, calls: nat, slept: int,
                          rest: Story) {
    && whole.stops == stops + rest.stops && whole.events == events + rest.events && whole.ending == rest.ending
    && whole.calls == calls + rest.calls && whole.slept == slept + rest.slept
  }

  lemma TellOn(ps: seq<string>, config: Config, w: Work, world: nat -> Turn, turn: nat, index: nat, whole: Story,
               stops: seq<Stop>, events: seq<UsageEvent>, calls: nat, slept: int)
    requires Planned(ps, config, w)
    requires Telling(whole, stops, events, calls, slept, StoryFrom(ps, config, w, world, turn, index))
    ensures var ruling := Rule(config, w, world(turn));
            match ruling
            case PassOver(next) =>
              Planned(ps, config, next)
              && Telling(whole, stops + [Stop(w.hops[0], false)], events, calls, slept,
                         StoryFrom(ps, config, next, world, turn + 1, index))
            case TryAgain(next, category, status, delay) =>
              Planned(ps, config, next)
              && Telling(whole, stops + [Stop(w.hops[0], true)],
                         events + [UsageEvent(AttemptFinal, index, false, Fault(category), status)],
                         calls + Called(world(turn)), slept + delay,
                         StoryFrom(ps, config, next, world, turn + 1, index + 1))
            case Conclude(ending, _, status) =>
              whole == Story(stops + [Stop(w.hops[0], true)], events + LastEvents(ending, index, status), ending,
                             calls + Called(world(turn)), slept)
  {
    RuleMovesOn(ps, config, w, world(turn));
    match Rule(config, w, world(turn)) {
      case PassOver(next) =>
        Assoc(stops, [Stop(w.hops[0], false)], StoryFrom(ps, config, next, world, turn + 1, index).stops);
      case TryAgain(next, category, status, _) =>
        var rest := StoryFrom(ps, config, next, world, turn + 1, index + 1);
        Assoc(stops, [Stop(w.hops[0], true)], rest.stops);
        Assoc(events, [UsageEvent(AttemptFinal, index, false, Fault(category), status)], rest.events);
      case Conclude(_, _, _) =>
    }
  }

  /** The attempts, as the hops they were made for. */
  ghost predicate MadeFor(attempts: seq<Attempt>, hops: seq<Hop>) {
    |attempts| == |hops| && forall i :: 0 <= i < |attempts| ==> attempts[i].hop == hops[i]
  }

  /** The state at a loop head: what was popped and emitted so far, and the rest of the story, are the whole. */
  ghost predicate Underway(config: Config, planned: seq<Hop>, w: Work, world: nat -> Turn, turn: nat,
                           attempts: seq<Attempt>, whole: Story, stops: seq<Stop>, events: seq<UsageEvent>, calls: nat,
                           slept: int) {
    && Planned(Providers(planned), config, w) && MadeFor(attempts, Attempted(stops))
    && Telling(whole, stops, events, calls, slept,
               StoryFrom(Providers(planned), config, w, world, turn, |attempts|))
  }

  lemma MadeMore(attempts: seq<Attempt>, stops: seq<Stop>, made: seq<Attempt>, hop: Hop)
    requires MadeFor(attempts, Attempted(stops)) && (made == [] || (|made| == 1 && made[0].hop == hop))
    ensures MadeFor(attempts + made, Attempted(stops + [Stop(hop, made != [])]))
  {
    AttemptedSnoc(stops, Stop(hop, made != []));
  }

  lemma Onward(config: Config, planned: seq<Hop>, w: Work, world: nat -> Turn, turn: nat, attempts: seq<Attempt>,
               whole: Story, stops: seq<Stop>, events: seq<UsageEvent>, calls: nat, slept: int, made: seq<Attempt>,
               all: seq<UsageEvent>, more: int, next: Work)
    requires Underway(config, planned, w, world, turn, attempts, whole, stops, events, calls, slept)
    requires var ruling := Rule(config, w, world(turn));
             && !ruling.Conclude? && Ruled(ruling, |attempts|, events, None, all, more, next)
             && (if ruling.PassOver? then made == [] else |made| == 1 && made[0].hop == w.hops[0])
    ensures Underway(config, planned, next, world, turn + 1, attempts + made, whole,
                     stops + [Stop(w.hops[0], made != [])], all, calls + Called(world(turn)), slept + more)
    ensures Smaller(Providers(planned), config, w, next)
  {
    RuleMovesOn(Providers(planned), config, w, world(turn));
    OnwardTelling(Providers(planned), config, w, world, turn, |attempts|, whole, stops, events, calls, slept, all,
                  more, next);
    MadeMore(attempts, stops, made, w.hops[0]);
  }

  lemma OnwardTelling(ps: seq<string>, config: Config, w: Work, world: nat -> Turn, turn: nat, index: nat, whole: Story,
                      stops: seq<Stop>, events: seq<UsageEvent>, calls: nat, slept: int, all: seq<UsageEvent>,
                      more: int, next: Work)
    requires Planned(ps, config, w)
    requires Telling(whole, stops, events, calls, slept, StoryFrom(ps, config, w, world, turn, index))
    requires !Rule(config, w, world(turn)).Conclude?
    requires Ruled(Rule(config, w, world(turn)), index, events, None, all, more, next)
    ensures Planned(ps, config, next)
    ensures var attempted := !Rule(config, w, world(turn)).PassOver?;
            Telling(whole, stops + [Stop(w.hops[0], attempted)], all, calls + Called(world(turn)), slept + more,
                    StoryFrom(ps, config, next, world, turn + 1, if attempted then index + 1 else index))
  {
    TellOn(ps, config, w, world, turn, index, whole, stops, events, calls, slept);
    if Rule(config, w, world(turn)).PassOver? {
      PassedUncalled(config, w, world(turn));
    }
  }

  lemma PassedUncalled(config: Config, w: Work, now: Turn)
    requires w.hops != [] && Rule(config, w, now).PassOver?
    ensures Called(now) == 0
  {
  }

  /** The last turn: the story is told to its end. */
  lemma Finish(config: Config, planned: seq<Hop>, w: Work, world: nat -> Turn, turn: nat, attempts: seq<Attempt>,
               whole: Story, stops: seq<Stop>, events: seq<UsageEvent>, calls: nat, slept: int, made: seq<Attempt>,
               all: seq<UsageEvent>, ending: Ending, more: int, next: Work)
    requires Underway(config, planned, w, world, turn, attempts, whole, stops, events, calls, slept)
    requires Rule(config, w, world(turn)).Conclude? && |made| == 1 && made[0].hop == w.hops[0]
    requires Ruled(Rule(config, w, world(turn)), |attempts|, events, Some(ending), all, more, next)
    ensures Tells(whole, attempts + made, all, ending, calls + Called(world(turn)), slept)
  {
    TellOn(Providers(planned), config, w, world, turn, |attempts|, whole, stops, events, calls, slept);
    MadeMore(attempts, stops, made, w.hops[0]);
  }

  /** A run is the one its story tells: its attempts were made for the hops the story attempts. */
  ghost predicate Tells(story: Story, attempts: seq<Attempt>, events: seq<UsageEvent>, ending: Ending, calls: nat,
                        slept: int) {
    && MadeFor(attempts, Attempted(story.stops)) && events == story.events && ending == story.ending
    && calls == story.calls && slept == story.slept
  }

  lemma Begins(config: Config, planned: seq<Hop>, world: nat -> Turn)
    requires planned != [] && forall h :: h in planned ==> h.retryCount == 0
    ensures Underway(config, planned, Work(planned, map[]), world, 0, [], StoryOf(config, planned, world), [], [], 0, 0)
  {
    StartsPlanned(config, planned);
  }

  /** A turn with its bookkeeping. */
  method Step(ctx: RequestContext, queue: WorkQueue, planned: seq<Hop>, config: Config, world: nat -> Turn, turn: nat,
              events: seq<UsageEvent>, calls: nat, slept: int, ghost whole: Story, ghost stops: seq<Stop>)
    returns (verdict: Option<Ending>, all: seq<UsageEvent>, calls': nat, slept': int, end: Option<StreamEnd>,
             ghost stops': seq<Stop>)
    requires Superseded(ctx.attempts, events) && ctx.terminalState.None?
    requires Underway(config, planned, queue.Contents(), world, turn, ctx.attempts, whole, stops, events, calls, slept)
    modifies ctx, queue
    ensures verdict.None? ==>
              && Superseded(ctx.attempts, all) && ctx.terminalState.None?
              && Underway(config, planned, queue.Contents(), world, turn + 1, ctx.attempts, whole, stops', all,
                          calls', slept')
              && Smaller(Providers(planned), config, old(queue.Contents()), queue.Contents())
    ensures verdict.Some? ==>
              && Accounted(ctx, verdict.value, all) && Waits(end, verdict.value, |ctx.attempts| - 1)
              && ctx.terminalState == Some(StateOf(verdict.value))
              && Tells(whole, ctx.attempts, all, verdict.value, calls', slept')
    ensures end.Some? ==> fresh(end.value)
  {
    ghost var before, attempts := queue.Contents(), ctx.attempts;
    var more;
    ghost var made;
    var now := world(turn);
    calls' := calls + if now.available && now.registered then 1 else 0;
    verdict, all, more, end, made := TakeTurn(ctx, queue, events, config, now, Providers(planned));
    slept' := slept + more;
    stops' := stops + [Stop(before.hops[0], made != [])];
    if verdict.Some? {
      Finish(config, planned, before, world, turn, attempts, whole, stops, events, calls, slept, made, all,
             verdict.value, more, queue.Contents());
    } else {
      Onward(config, planned, before, world, turn, attempts, whole, stops, events, calls, slept, made, all, more,
             queue.Contents());
    }
  }

  /**
   * The attempt loop, whatever the world answers. It ends, and never by running out of hops. Its attempts
   * are numbered by position; each one superseded has exactly one attempt event, of a fault that is not
   * deterministic; the last one has the logical-request event, unless that waits for its stream. And it is,
   * hop by hop and event by event, the run its story tells, so what `EveryRun` says of the story is said of it.
   */
  method HandleAttempts(planned: seq<Hop>, config: Config, world: nat -> Turn)
    returns (ctx: RequestContext, ending: Ending, events: seq<UsageEvent>, calls: nat, slept: int,
             end: Option<StreamEnd>)
    requires planned != [] && forall h :: h in planned ==> h.retryCount == 0
    ensures Accounted(ctx, ending, events) && Waits(end, ending, |ctx.attempts| - 1)
    ensures ctx.terminalState == Some(StateOf(ending))
    ensures end.Some? ==> fresh(end.value)
    ensures Tells(StoryOf(config, planned, world), ctx.attempts, events, ending, calls, slept)
    ensures Linked(StoryOf(config, planned, world).stops) && WithinPlan(config, planned, calls, slept)
  {
    ctx := new RequestContext();
    var queue := new WorkQueue(planned);
    events, calls, slept := [], 0, 0;
    ghost var whole, stops := StoryOf(config, planned, world), [];
    Begins(config, planned, world);
    EveryRun(config, planned, world);
    var turn := 0;
    while |queue.hops| > 0
      invariant fresh(ctx) && fresh(queue)
      invariant Superseded(ctx.attempts, events) && ctx.terminalState.None?
      invariant Underway(config, planned, queue.Contents(), world, turn, ctx.attempts, whole, stops, events, calls,
                         slept)
      decreases |queue.hops|, RotationsLeft(Providers(planned), config, queue.Contents()),
                config.policy.maxRetries - queue.hops[0].retryCount
    {
      var verdict;
      verdict, events, calls, slept, end, stops :=
        Step(ctx, queue, planned, config, world, turn, events, calls, slept, whole, stops);
      if verdict.Some? {
        ending := verdict.value;
        return;
      }
      turn := turn + 1;
    }
    assert false;
  }

  /** A route: the primary, the candidate a tight budget swaps it for, and the fallbacks. */
  datatype Candidate = Candidate(provider: string, model: string)
  datatype Route = Route(primary: Candidate, downgrade: Option<Candidate>, fallbacks: seq<Candidate>)

  /** The planned hops: the primary or what it is downgraded to, on its first account, then the fallbacks. */
  function PlannedHops(route: Route, config: Config): (planned: seq<Hop>)
    ensures |planned| == 1 + |route.fallbacks|
    ensures forall h :: h in planned ==> h.retryCount == 0
    ensures var head := if route.downgrade.Some? then route.downgrade.value else route.primary;
            && planned[0].provider == head.provider && planned[0].model == head.model
            && planned[0].account ==
               if config.accounts(head.provider) == [] then None else Some(config.accounts(head.provider)[0])
    ensures forall i :: 0 < i < |planned| ==>
              planned[i].provider == route.fallbacks[i - 1].provider && planned[i].model == route.fallbacks[i - 1].model
    ensures planned[0].trigger == if route.downgrade.Some? then Some(Downgrade) else None
    ensures planned[0].fallbackFrom == if route.downgrade.Some? then Some(route.primary.model) else None
    ensures forall i :: 0 < i < |planned| ==> planned[i].trigger.None? && planned[i].account.None?
  {
    var head := route.downgrade.GetOr(route.primary);
    var accounts := config.accounts(head.provider);
    [Hop(head.provider, head.model, if accounts == [] then None else Some(accounts[0]),
         if route.downgrade.Some? then Some(route.primary.model) else None,
         if route.downgrade.Some? then Some(Downgrade) else None, 0)]
    + seq(|route.fallbacks|, i requires 0 <= i < |route.fallbacks| =>
        Hop(route.fallbacks[i].provider, route.fallbacks[i].model, None, None, None, 0))
  }

  function GateEnding(gate: Gate): Ending
    requires gate != Proceed
  {
    match gate
    case CachedReply => FromCache
    case OverBudget => Blocked(BudgetExceeded)
    case ToolsDenied => Blocked(PolicyRejected)
  }

  /** A request settled before dispatch has one attempt, never called upstream, and its logical-request event. */
  method SettleAtGate(gate: Gate, hop: Hop) returns (ctx: RequestContext, ending: Ending, events: seq<UsageEvent>)
    requires gate != Proceed
    ensures Accounted(ctx, ending, events) && ending == GateEnding(gate) && |ctx.attempts| == 1
    ensures events == [UsageEvent(LogicalRequest, 0, gate == CachedReply,
                                  if gate == CachedReply then CacheHit
                                  else Fault(if gate == OverBudget then BudgetExceeded else PolicyRejected), None)]
    ensures ctx.attempts[0].hop == hop
    ensures ctx.attempts[0].terminalState == Some(if gate == CachedReply then Success else Rejected)
  {
    ctx := new RequestContext();
    ending := GateEnding(gate);
    var attempt;
    attempt, events := Refuse(ctx, [], hop, if gate == CachedReply then Success else Rejected, ending);
  }

  /** `handleMessages` from the route on: a gate may settle the request before any dispatch. */
  method HandleMessages(gate: Gate, route: Route, config: Config, world: nat -> Turn)
    returns (ctx: RequestContext, ending: Ending, events: seq<UsageEvent>, calls: nat, slept: int,
             end: Option<StreamEnd>)
    ensures Accounted(ctx, ending, events) && Waits(end, ending, |ctx.attempts| - 1)
    ensures end.Some? ==> fresh(end.value)
    ensures var planned := PlannedHops(route, config);
            if gate == Proceed
            then && Tells(StoryOf(config, planned, world), ctx.attempts, events, ending, calls, slept)
                 && RunIs(config, planned, Popped(StoryOf(config, planned, world).stops), 0, world, ending)
                 && Costs(StoryOf(config, planned, world), config, Popped(StoryOf(config, planned, world).stops),
                          world, 0, 0)
                 && ctx.terminalState == Some(StateOf(ending))
                 && Linked(StoryOf(config, planned, world).stops) && WithinPlan(config, planned, calls, slept)
            else && calls == slept == 0 && |ctx.attempts| == 1 && ending == GateEnding(gate)
                 && ctx.attempts[0].hop == planned[0]
  {
    var planned := PlannedHops(route, config);
    if gate == Proceed {
      ctx, ending, events, calls, slept, end := HandleAttempts(planned, config, world);
      EveryHop(config, planned, world);
      EveryCost(config, planned, world);
    } else {
      ctx, ending, events := SettleAtGate(gate, planned[0]);
      calls, slept, end := 0, 0, None;
    }
  }

  // ----- A request and its stream together -----

  /** How many logical-request events there are. */
  function Logical(events: seq<UsageEvent>): nat {
    if events == [] then 0
    else Logical(events[..|events| - 1]) + if events[|events| - 1].kind == LogicalRequest then 1 else 0
  }

  lemma {:induction false} NoneLogical(events: seq<UsageEvent>)
    requires forall e :: e in events ==> e.kind != LogicalRequest
    ensures Logical(events) == 0
  {
    if events != [] {
      NoneLogical(events[..|events| - 1]);
    }
  }

  lemma LogicalSnoc(events: seq<UsageEvent>, e: UsageEvent)
    ensures Logical(events + [e]) == Logical(events) + if e.kind == LogicalRequest then 1 else 0
  {
    assert (events + [e])[..|events|] == events;
  }

  /** The logical-request event of a request and of its stream has come, as the last attempt's, or not yet. */
  ghost predicate OneLogical(events: seq<UsageEvent>, index: nat, come: bool) {
    && Logical(events) == (if come then 1 else 0)
    && (come ==> events != [] && var last := events[|events| - 1];
                 last.kind == LogicalRequest && last.attemptIndex == index)
  }

  lemma AccountedLogical(ctx: RequestContext, ending: Ending, events: seq<UsageEvent>)
    requires Accounted(ctx, ending, events)
    ensures OneLogical(events, |ctx.attempts| - 1, !ending.Streamed?)
  {
    var n := |ctx.attempts| - 1;
    var before := events[..n];
    forall e | e in before
      ensures e.kind != LogicalRequest
    {
      var i :| 0 <= i < |before| && before[i] == e;
    }
    NoneLogical(before);
    if ending.Streamed? {
      assert events == before;
    } else {
      LogicalSnoc(before, events[n]);
      assert events == before + [events[n]];
    }
  }

  /**
   * A whole request with its response: however often the stream of a streamed response completes, there is
   * never more than one logical-request event. It is the last event and the last attempt's, and it is missing
   * only when a stream never completes.
   */
  method ServeMessages(gate: Gate, route: Route, config: Config, world: nat -> Turn, completions: nat)
    returns (ctx: RequestContext, ending: Ending, events: seq<UsageEvent>)
    ensures |ctx.attempts| > 0
    ensures OneLogical(events, |ctx.attempts| - 1, !ending.Streamed? || completions > 0)
    ensures ending.Streamed? && completions > 0 ==>
              events[|events| - 1] ==
              UsageEvent(LogicalRequest, |ctx.attempts| - 1, true, Succeeded, Some(ending.status))
  {
    var calls, slept, end;
    ctx, ending, events, calls, slept, end := HandleMessages(gate, route, config, world);
    AccountedLogical(ctx, ending, events);
    match ending {
      case Streamed(_) =>
        var more := DrainStream(end.value, completions);
        if completions > 0 {
          LogicalSnoc(events, more[0]);
        } else {
          AppendNone(events);
        }
        events := events + more;
      case _ =>
    }
  }
}
