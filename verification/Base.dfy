/** Small shared vocabulary: optional values, throwing operations, event machines. */
module Base {

  datatype Option<+T> = None | Some(value: T) {
    function GetOr(default: T): T {
      if Some? then value else default
    }

    /** The value here, or the other one when this one is absent (`a ?? b`). */
    function OrElse(other: Option<T>): Option<T> {
      if Some? then this else other
    }
  }

  /** The outcome of an operation that returns or throws. */
  datatype Result<+T, +E> = Ok(value: T) | Err(error: E)

  /** One step of an event machine: the next state and what the step emits. */
  datatype Emit<+S, +R> = Emit(state: S, out: seq<R>)

  function Min(a: nat, b: nat): nat {
    if a <= b then a else b
  }

  function Pow2(n: nat): nat {
    if n == 0 then 1 else 2 * Pow2(n - 1)
  }

  function Flatten<T>(parts: seq<seq<T>>): seq<T> {
    if parts == [] then [] else parts[0] + Flatten(parts[1..])
  }

  lemma Assoc<T>(a: seq<T>, b: seq<T>, c: seq<T>)
    ensures a + b + c == a + (b + c)
  {
  }

  lemma AppendNone<T>(s: seq<T>)
    ensures s + [] == s && [] + s == s
  {
  }

  lemma HeadFirst<T>(a: seq<T>, b: seq<T>)
    requires a != []
    ensures a + b == [a[0]] + (a[1..] + b) && (a + b)[0] == a[0] && (a + b)[1..] == a[1..] + b
  {
  }

  lemma PrefixGrows<T>(s: seq<T>, k: nat)
    requires k < |s|
    ensures s[..k + 1] == s[..k] + [s[k]]
  {
  }

  lemma WholePrefix<T>(s: seq<T>)
    ensures s[..|s|] == s
  {
  }

  lemma {:induction false} FlattenAppend<T>(a: seq<seq<T>>, b: seq<seq<T>>)
    ensures Flatten(a + b) == Flatten(a) + Flatten(b)
  {
    if a == [] {
      assert a + b == b;
    } else {
      assert (a + b)[1..] == a[1..] + b;
      FlattenAppend(a[1..], b);
    }
  }

  lemma FlattenSnoc<T>(a: seq<seq<T>>, x: seq<T>)
    ensures Flatten(a + [x]) == Flatten(a) + x
  {
    FlattenAppend(a, [x]);
    assert Flatten([x]) == x + Flatten([]);
  }

  /** Apply a step that may throw to every event; the first throw ends the run. */
  function Run<S, E, R, X>(step: (S, E) -> Result<Emit<S, R>, X>, s: S, events: seq<E>): Result<Emit<S, R>, X> {
    if events == [] then Ok(Emit(s, []))
    else
      match step(s, events[0])
      case Err(x) => Err(x)
      case Ok(first) =>
        match Run(step, first.state, events[1..])
        case Err(x) => Err(x)
        case Ok(rest) => Ok(Emit(rest.state, first.out + rest.out))
  }

  lemma {:induction false} RunAppend<S, E, R, X>(
    step: (S, E) -> Result<Emit<S, R>, X>, s: S, a: seq<E>, b: seq<E>)
    ensures Run(step, s, a + b) ==
            match Run(step, s, a)
            case Err(x) => Err(x)
            case Ok(first) =>
              (match Run(step, first.state, b)
               case Err(x) => Err(x)
               case Ok(rest) => Ok(Emit(rest.state, first.out + rest.out)))
  {
    if a == [] {
      assert a + b == b;
      if Run(step, s, b).Ok? {
        assert [] + Run(step, s, b).value.out == Run(step, s, b).value.out;
      }
    } else {
      assert (a + b)[1..] == a[1..] + b;
      match step(s, a[0]) {
        case Err(_) =>
        case Ok(first) =>
          RunAppend(step, first.state, a[1..], b);
          var mid := Run(step, first.state, a[1..]);
          if mid.Ok? && Run(step, mid.value.state, b).Ok? {
            var last := Run(step, mid.value.state, b).value;
            assert first.out + (mid.value.out + last.out) == (first.out + mid.value.out) + last.out;
          }
      }
    }
  }

  lemma RunFirst<S, E, R, X>(step: (S, E) -> Result<Emit<S, R>, X>, s: S, script: seq<E>)
    ensures Run(step, s, script) ==
            match Run(step, s, script[0..])
            case Err(x) => Err(x)
            case Ok(rest) => Ok(Emit(rest.state, [] + rest.out))
  {
    assert script[0..] == script;
    if Run(step, s, script).Ok? {
      assert [] + Run(step, s, script).value.out == Run(step, s, script).value.out;
    }
  }

  lemma RunEnds<S, E, R, X>(step: (S, E) -> Result<Emit<S, R>, X>, s: S, done: seq<R>)
    ensures Run(step, s, []) == Ok(Emit(s, [])) && done + [] == done
  {
  }

  /** One turn of a loop that runs a machine over a script from `i` on, `done` being what it wrote so far. */
  lemma RunNext<S, E, R, X>(
    step: (S, E) -> Result<Emit<S, R>, X>, s: S, script: seq<E>, i: nat, done: seq<R>)
    requires i < |script| && step(s, script[i]).Ok?
    ensures var first := step(s, script[i]).value;
            (match Run(step, s, script[i..])
             case Err(x) => Err(x)
             case Ok(rest) => Ok(Emit(rest.state, done + rest.out)))
            ==
            (match Run(step, first.state, script[i + 1..])
             case Err(x) => Err(x)
             case Ok(rest) => Ok(Emit(rest.state, (done + first.out) + rest.out)))
  {
    assert script[i..][1..] == script[i + 1..];
    var first := step(s, script[i]).value;
    var rest := Run(step, first.state, script[i + 1..]);
    if rest.Ok? {
      assert done + (first.out + rest.value.out) == (done + first.out) + rest.value.out;
    }
  }

  /** Apply a total step to every event. */
  function Feed<S, E, R>(step: (S, E) -> Emit<S, R>, s: S, events: seq<E>): Emit<S, R> {
    if events == [] then Emit(s, [])
    else
      var first := step(s, events[0]);
      var rest := Feed(step, first.state, events[1..]);
      Emit(rest.state, first.out + rest.out)
  }

  lemma {:induction false} FeedAppend<S, E, R>(step: (S, E) -> Emit<S, R>, s: S, a: seq<E>, b: seq<E>)
    ensures Feed(step, s, a + b) ==
            var first := Feed(step, s, a);
            var rest := Feed(step, first.state, b);
            Emit(rest.state, first.out + rest.out)
  {
    if a == [] {
      assert a + b == b;
    } else {
      assert (a + b)[1..] == a[1..] + b;
      FeedAppend(step, step(s, a[0]).state, a[1..], b);
    }
  }

  /** A step after which the machine falls silent is the last one that shows. */
  lemma FeedStops<S, E, R>(step: (S, E) -> Emit<S, R>, s: S, live: seq<E>, stop: E, rest: seq<E>)
    requires var last := step(Feed(step, s, live).state, stop);
             Feed(step, last.state, rest) == Emit(last.state, [])
    ensures var fed := Feed(step, s, live);
            var last := step(fed.state, stop);
            Feed(step, s, live + ([stop] + rest)) == Emit(last.state, fed.out + last.out)
  {
    var fed := Feed(step, s, live);
    var last := step(fed.state, stop);
    FeedAppend(step, s, live, [stop] + rest);
    assert ([stop] + rest)[1..] == rest;
    assert last.out + [] == last.out;
  }

  /** What a translator still emits for the events to come and their end. */
  function Remaining<S, E, R>(push: (S, E) -> Emit<S, R>, end: S -> Emit<S, R>, s: S, events: seq<E>): seq<R> {
    var fed := Feed(push, s, events);
    fed.out + end(fed.state).out
  }

  /** A translator that falls silent has only its end left to emit. */
  lemma RemainingSilent<S, E, R>(push: (S, E) -> Emit<S, R>, end: S -> Emit<S, R>, s: S, events: seq<E>)
    requires Feed(push, s, events) == Emit(s, [])
    ensures Remaining(push, end, s, events) == end(s).out
  {
    AppendNone(end(s).out);
  }

  lemma RemainingNext<S, E, R>(push: (S, E) -> Emit<S, R>, end: S -> Emit<S, R>, s: S, events: seq<E>)
    requires events != []
    ensures var first := push(s, events[0]);
            Remaining(push, end, s, events) == first.out + Remaining(push, end, first.state, events[1..])
  {
    var first := push(s, events[0]);
    var rest := Feed(push, first.state, events[1..]);
    Assoc(first.out, rest.out, end(rest.state).out);
  }

  /** A machine accepts a script and, after what it wrote already, will have written `total`. */
  ghost predicate Writes<S, E, R, X>(step: (S, E) -> Result<Emit<S, R>, X>, s: S, script: seq<E>, done: seq<R>,
                                     total: seq<R>) {
    Run(step, s, script).Ok? && done + Run(step, s, script).value.out == total
  }

  lemma WritesAppend<S, E, R, X>(step: (S, E) -> Result<Emit<S, R>, X>, s: S, a: seq<E>, b: seq<E>, done: seq<R>,
                                 total: seq<R>)
    requires Writes(step, s, a + b, done, total)
    ensures Run(step, s, a).Ok?
    ensures var first := Run(step, s, a).value;
            Writes(step, first.state, b, done + first.out, total)
  {
    RunAppend(step, s, a, b);
    var first := Run(step, s, a).value;
    Assoc(done, first.out, Run(step, first.state, b).value.out);
  }

  lemma RunOne<S, E, R, X>(step: (S, E) -> Result<Emit<S, R>, X>, s: S, script: seq<E>)
    requires script != [] && Run(step, s, script).Ok?
    ensures step(s, script[0]).Ok?
    ensures var first := step(s, script[0]).value;
            && Run(step, first.state, script[1..]).Ok?
            && Run(step, s, script).value ==
               Emit(Run(step, first.state, script[1..]).value.state,
                    first.out + Run(step, first.state, script[1..]).value.out)
  {
  }

  /** One turn of a relay: what a translator still emits for the next event is written, the rest remains. */
  lemma RelayNext<S, U, E, M, W, X>(push: (S, U) -> Emit<S, E>, end: S -> Emit<S, E>, s: S, events: seq<U>,
                                    step: (M, E) -> Result<Emit<M, W>, X>, m: M, done: seq<W>, total: seq<W>)
    requires events != [] && Writes(step, m, Remaining(push, end, s, events), done, total)
    ensures var first := push(s, events[0]);
            && Run(step, m, first.out).Ok?
            && Writes(step, Run(step, m, first.out).value.state, Remaining(push, end, first.state, events[1..]),
                      done + Run(step, m, first.out).value.out, total)
  {
    var first := push(s, events[0]);
    RemainingNext(push, end, s, events);
    WritesAppend(step, m, first.out, Remaining(push, end, first.state, events[1..]), done, total);
  }
}
