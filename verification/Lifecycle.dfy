/** One logical request and its upstream attempts, and the usage events they give rise to. */
module Lifecycle {
  import opened Base
  import opened Routing

  datatype TerminalState = Success | Cancelled | UpstreamError | Timeout | Rejected | Invalid | InternalError

  /** `categoryToTerminalState`. */
  function TerminalOf(category: Category): TerminalState {
    match category
    case ProviderTimeout => Timeout
    case ClientCancelled => Cancelled
    case ClientValidation | ProviderValidation => Invalid
    case PolicyRejected => Rejected
    case _ => UpstreamError
  }

  /** A timeout, a cancellation, invalid input and a rejection have states of their own; all else is upstream's. */
  lemma TerminalIs(c: Category)
    ensures TerminalOf(c) == Timeout <==> c == ProviderTimeout
    ensures TerminalOf(c) == Cancelled <==> c == ClientCancelled
    ensures TerminalOf(c) == Invalid <==> c == ClientValidation || c == ProviderValidation
    ensures TerminalOf(c) == Rejected <==> c == PolicyRejected
    ensures TerminalOf(c) == UpstreamError <==>
            c !in {ProviderTimeout, ClientCancelled, ClientValidation, ProviderValidation, PolicyRejected}
  {
  }

  datatype Outcome = Fault(category: Category) | Succeeded | CacheHit

  datatype EventKind = AttemptFinal | LogicalRequest

  datatype UsageEvent = UsageEvent(kind: EventKind, attemptIndex: nat, success: bool, outcome: Outcome,
                                   httpStatus: Option<int>)

  class Attempt {
    const attemptIndex: nat
    /** The hop it was made for: its provider, model, account and linkage. */
    const hop: Hop
    var terminalState: Option<TerminalState>
    var httpStatus: Option<int>

    constructor (index: nat, h: Hop)
      ensures attemptIndex == index && hop == h && terminalState.None? && httpStatus.None?
    {
      attemptIndex, hop, terminalState, httpStatus := index, h, None, None;
    }

    /** Mark the attempt terminal; only the first time counts. */
    method Complete(state: TerminalState, status: Option<int>)
      modifies this
      ensures terminalState == old(terminalState).OrElse(Some(state))
      ensures httpStatus == if old(terminalState).Some? then old(httpStatus) else status
    {
      if terminalState.Some? {
        return;
      }
      terminalState, httpStatus := Some(state), status;
    }
  }

  class RequestContext {
    var attempts: seq<Attempt>
    var terminalState: Option<TerminalState>

    constructor ()
      ensures attempts == [] && terminalState.None?
    {
      attempts, terminalState := [], None;
    }

    /** Begin a new attempt; its index is its position among all attempts of the request. */
    method StartAttempt(hop: Hop) returns (attempt: Attempt)
      modifies this`attempts
      ensures fresh(attempt) && attempt.terminalState.None?
      ensures attempt.attemptIndex == |old(attempts)| && attempt.hop == hop
      ensures attempts == old(attempts) + [attempt]
    {
      attempt := new Attempt(|attempts|, hop);
      attempts := attempts + [attempt];
    }

    method Complete(state: TerminalState)
      modifies this`terminalState
      ensures terminalState == old(terminalState).OrElse(Some(state))
    {
      if terminalState.None? {
        terminalState := Some(state);
      }
    }
  }

  /** `emitOnStreamEnd`: a streamed response's event waits for its stream to end. */
  class StreamEnd {
    const attemptIndex: nat
    const httpStatus: int
    var emitted: bool

    constructor (index: nat, status: int)
      ensures attemptIndex == index && httpStatus == status && !emitted
    {
      attemptIndex, httpStatus, emitted := index, status, false;
    }

    method Completed() returns (events: seq<UsageEvent>)
      modifies this
      ensures emitted
      ensures events == if old(emitted) then []
                        else [UsageEvent(LogicalRequest, attemptIndex, true, Succeeded, Some(httpStatus))]
    {
      if emitted {
        return [];
      }
      emitted := true;
      events := [UsageEvent(LogicalRequest, attemptIndex, true, Succeeded, Some(httpStatus))];
    }
  }

  /** However often a stream completes, it emits its event once; a stream nobody drains never does. */
  method DrainStream(end: StreamEnd, completions: nat) returns (events: seq<UsageEvent>)
    requires !end.emitted
    modifies end
    ensures events == if completions == 0 then []
                      else [UsageEvent(LogicalRequest, end.attemptIndex, true, Succeeded, Some(end.httpStatus))]
  {
    events := [];
    for i := 0 to completions
      invariant end.emitted == (i > 0)
      invariant events == if i == 0 then []
                          else [UsageEvent(LogicalRequest, end.attemptIndex, true, Succeeded, Some(end.httpStatus))]
    {
      var more := end.Completed();
      events := events + more;
    }
  }
}
