/**
 * The outbox exporter: it posts claimed batches, retires what fails, and splits a
 * rejected batch to isolate its poison. The process may die between any two steps.
 */
module Batcher {
  import opened Base
  import opened Outbox

  /** What comes of a post: a status, or an exception after which the server may or may not have stored it. */
  datatype Reply = Answer(status: int) | Lost(stored: bool)

  predicate Success(r: Reply) {
    r.Answer? && 200 <= r.status < 300
  }

  /** `provider_validation_error`: the server refused the batch for what is in it. */
  predicate Rejected(r: Reply) {
    r.Answer? && (r.status == 400 || r.status == 422
                  || (400 <= r.status < 500 && r.status !in {401, 403, 408, 429}))
  }

  /** The rows of one post, and what came of it. */
  datatype Post = Post(rows: seq<Row>, reply: Reply)

  predicate Stored(p: Post) {
    Success(p.reply) || (p.reply.Lost? && p.reply.stored)
  }

  function Ids(rows: seq<Row>): (ids: seq<nat>)
    ensures |ids| == |rows| && forall i :: 0 <= i < |rows| ==> ids[i] == rows[i].id
  {
    seq(|rows|, i requires 0 <= i < |rows| => rows[i].id)
  }

  /** Some stored post holds the row of this id. */
  ghost predicate StoredIn(posts: seq<Post>, id: nat) {
    exists p :: p in posts && Stored(p) && id in Ids(p.rows)
  }

  /** The last field puts a reply into words for the row's last error. */
  datatype Config = Config(batchSize: nat, maxAttempts: int, baseBackoffMs: nat, maxBackoffMs: nat,
                           describe: Reply -> string)

  /** The server's reply to the n-th post, as it pleases. */
  type Server = (nat, seq<Row>) -> Reply

  function BackoffMs(config: Config, attempts: nat): nat {
    var delay := config.baseBackoffMs * Pow2(attempts);
    if delay <= config.maxBackoffMs then delay else config.maxBackoffMs
  }

  datatype FlushResult = FlushResult(claimed: nat, exported: nat, retried: nat, dead: nat)

  // ----- What becomes of a row -----

  datatype Fate = Export | Retry | Retire | Poison

  /** The fate of a row posted with some others or alone; a rejected batch says nothing of its rows. */
  function Judge(config: Config, r: Row, reply: Reply): Fate {
    if Success(reply) then Export
    else if Rejected(reply) then Poison
    else if r.attempts + 1 >= config.maxAttempts then Retire
    else Retry
  }

  function Changed(config: Config, r: Row, reply: Reply, now: int): Row {
    var error := config.describe(reply);
    match Judge(config, r, reply)
    case Export => ToExported(r)
    case Retry => ToFailed(r, now + BackoffMs(config, r.attempts), error)
    case Retire => ToDead(r, "max attempts exceeded: " + error)
    case Poison => ToDead(r, "poison: " + error)
  }

  /** Where a row stands in a batch. */
  function Place(batch: seq<Row>, id: nat): nat {
    if batch == [] || batch[0].id == id then 0 else 1 + Place(batch[1..], id)
  }

  predicate Splits(server: Server, turn: nat, batch: seq<Row>) {
    Rejected(server(turn, batch)) && |batch| > 1
  }

  /** The reply that decides a row's fate: the batch's, or the row's own when the batch was split. */
  function Deciding(server: Server, turn: nat, batch: seq<Row>, r: Row): Reply {
    if Splits(server, turn, batch) then server(turn + 1 + Place(batch, r.id), [r]) else server(turn, batch)
  }

  /** What a whole flush of a batch makes of one of its rows. */
  function Settled(config: Config, server: Server, turn: nat, batch: seq<Row>, now: int, r: Row): Row {
    Changed(config, r, Deciding(server, turn, batch, r), now)
  }

  /** The posts of a whole flush: the batch, and when it is split every row by itself. */
  function PostsOf(server: Server, turn: nat, batch: seq<Row>): seq<Post> {
    [Post(batch, server(turn, batch))]
    + if Splits(server, turn, batch)
      then seq(|batch|, i requires 0 <= i < |batch| => Post([batch[i]], server(turn + 1 + i, [batch[i]])))
      else []
  }

  function Counted(t: FlushResult, fate: Fate): FlushResult {
    match fate
    case Export => t.(exported := t.exported + 1)
    case Retry => t.(retried := t.retried + 1)
    case Retire => t.(dead := t.dead + 1)
    case Poison => t.(dead := t.dead + 1)
  }

  /** The fates of some rows of a batch, counted. */
  function Tally(config: Config, server: Server, turn: nat, batch: seq<Row>, some: seq<Row>): FlushResult {
    if some == [] then FlushResult(0, 0, 0, 0)
    else Counted(Tally(config, server, turn, batch, some[..|some| - 1]),
                 Judge(config, some[|some| - 1], Deciding(server, turn, batch, some[|some| - 1])))
  }

  /** The same when one reply decides them all. */
  function Uniform(config: Config, reply: Reply, some: seq<Row>): FlushResult {
    if some == [] then FlushResult(0, 0, 0, 0)
    else Counted(Uniform(config, reply, some[..|some| - 1]), Judge(config, some[|some| - 1], reply))
  }

  function Sum(a: FlushResult, b: FlushResult): FlushResult {
    FlushResult(a.claimed + b.claimed, a.exported + b.exported, a.retried + b.retried, a.dead + b.dead)
  }

  lemma {:induction false} TallyCounts(config: Config, server: Server, turn: nat, batch: seq<Row>, some: seq<Row>)
    ensures var t := Tally(config, server, turn, batch, some);
            t.claimed == 0 && t.exported + t.retried + t.dead == |some|
    decreases some
  {
    if some != [] {
      TallyCounts(config, server, turn, batch, some[..|some| - 1]);
    }
  }

  lemma {:induction false} TallyUniform(config: Config, server: Server, turn: nat, batch: seq<Row>, some: seq<Row>)
    requires !Splits(server, turn, batch)
    ensures Tally(config, server, turn, batch, some) == Uniform(config, server(turn, batch), some)
    decreases some
  {
    if some != [] {
      TallyUniform(config, server, turn, batch, some[..|some| - 1]);
    }
  }

  lemma {:induction false} UniformRetires(config: Config, reply: Reply, some: seq<Row>)
    requires !Success(reply) && !Rejected(reply)
    ensures var t, dead := Uniform(config, reply, some), |SpentIds(config, some)|;
            t.claimed == 0 && t.exported == 0 && t.dead == dead && t.retried + dead == |some|
    decreases some
  {
    if some != [] {
      UniformRetires(config, reply, some[..|some| - 1]);
    }
  }

  lemma {:induction false} UniformExports(config: Config, reply: Reply, some: seq<Row>)
    requires Success(reply)
    ensures Uniform(config, reply, some) == FlushResult(0, |some|, 0, 0)
    decreases some
  {
    if some != [] {
      UniformExports(config, reply, some[..|some| - 1]);
    }
  }

  // ----- A flush part of the way -----

  /** The rows of these ids have been settled; every other row is as it was. */
  ghost predicate Partly(was: seq<Row>, rows: seq<Row>, ids: set<nat>, change: Row -> Row) {
    && |rows| == |was|
    && forall i :: 0 <= i < |was| ==> rows[i] == if was[i].id in ids then change(was[i]) else was[i]
  }

  /** A flush of a batch, part of the way. */
  ghost predicate Handled(config: Config, server: Server, turn: nat, batch: seq<Row>, now: int, was: seq<Row>,
                          rows: seq<Row>, ids: set<nat>) {
    && |rows| == |was|
    && forall i :: 0 <= i < |was| ==>
         rows[i] == if was[i].id in ids then Settled(config, server, turn, batch, now, was[i]) else was[i]
  }

  /** Of a split batch, the first rows have been settled and posted, each by itself. */
  ghost predicate EachUpTo(config: Config, server: Server, turn: nat, batch: seq<Row>, now: int, was: seq<Row>,
                           rows: seq<Row>, before: seq<Post>, posts: seq<Post>, settled: nat, sent: nat) {
    && settled <= |batch| && sent <= |batch|
    && Handled(config, server, turn, batch, now, was, rows, IdSet(batch[..settled]))
    && posts == before + Alone(server, turn, batch, sent)
  }

  lemma NoneHandled(config: Config, server: Server, turn: nat, batch: seq<Row>, now: int, rows: seq<Row>,
                    posts: seq<Post>)
    ensures EachUpTo(config, server, turn, batch, now, rows, rows, posts, posts, 0, 0)
  {
    assert batch[..0] == [] && IdSet([]) == {};
    AppendNone(posts);
  }

  lemma MarkPartly(was: seq<Row>, rows: seq<Row>, done: set<nat>, change: Row -> Row, ids: seq<nat>, mark: Row -> Row)
    requires Partly(was, rows, done, change) && Distinct(ids) && forall id :: id in ids ==> id !in done
    requires forall r :: mark(r).id == r.id
    requires forall r :: r in was && r.id in ids ==> mark(r) == change(r)
    requires forall r :: r in was ==> change(r).id == r.id
    ensures Partly(was, UpdateEach(rows, ids, mark), done + (set id | id in ids), change)
  {
    forall i | 0 <= i < |was|
      ensures UpdateEach(rows, ids, mark)[i] ==
              if was[i].id in done + (set id | id in ids) then change(was[i]) else was[i]
    {
      assert was[i] in was;
      UpdateEachAt(rows, ids, mark, i);
    }
  }

  lemma {:induction false} PlaceIs(batch: seq<Row>, k: nat)
    requires k < |batch| && Ordered(batch)
    ensures Place(batch, batch[k].id) == k
    decreases batch
  {
    if k > 0 {
      assert batch[0].id < batch[k].id;
      PlaceIs(batch[1..], k - 1);
    }
  }

  /** The table's rows of these ids are the batch's own rows. */
  ghost predicate Claimed(was: seq<Row>, batch: seq<Row>) {
    Ordered(batch) && forall r :: r in was && r.id in Ids(batch) ==> r in batch
  }

  lemma SamePlace(batch: seq<Row>, k: nat, i: nat)
    requires Ordered(batch) && k < |batch| && i < |batch| && batch[k].id == batch[i].id
    ensures k == i
  {
  }

  lemma SameRow(batch: seq<Row>, r: Row, i: nat)
    requires Ordered(batch) && r in batch && i < |batch| && r.id == batch[i].id
    ensures r == batch[i]
  {
    var k :| 0 <= k < |batch| && batch[k] == r;
    SamePlace(batch, k, i);
  }

  /** The rows of a batch out of attempts, and those not. */
  predicate Spent(config: Config, r: Row) {
    r.attempts + 1 >= config.maxAttempts
  }

  function SpentIds(config: Config, batch: seq<Row>): seq<nat> {
    if batch == [] then []
    else SpentIds(config, batch[..|batch| - 1])
         + if Spent(config, batch[|batch| - 1]) then [batch[|batch| - 1].id] else []
  }

  function FreshIds(config: Config, batch: seq<Row>): set<nat> {
    set r | r in batch && !Spent(config, r) :: r.id
  }

  function FreshCount(config: Config, batch: seq<Row>): nat {
    if batch == [] then 0
    else FreshCount(config, batch[..|batch| - 1]) + if Spent(config, batch[|batch| - 1]) then 0 else 1
  }

  // ----- A flush step by step: a post is one step, a transaction is one step -----

  /** The steps it takes to retire a batch: a transaction for each row put off, and one for those that die. */
  function Retiring(config: Config, batch: seq<Row>): nat {
    FreshCount(config, batch) + if SpentIds(config, batch) == [] then 0 else 1
  }

  /** The step at which the `k`-th row is retired. */
  function RetiredAt(config: Config, batch: seq<Row>, k: nat): nat
    requires k < |batch|
  {
    if Spent(config, batch[k]) then Retiring(config, batch) else FreshCount(config, batch[..k + 1])
  }

  function RetiredBy(config: Config, batch: seq<Row>, life: nat): set<nat> {
    set k | 0 <= k < |batch| && RetiredAt(config, batch, k) <= life :: batch[k].id
  }

  /** One transaction writes a success or a poison down. */
  predicate AtOnce(reply: Reply) {
    Success(reply) || Rejected(reply)
  }

  function Applying(config: Config, reply: Reply, batch: seq<Row>): nat {
    if AtOnce(reply) then 1 else Retiring(config, batch)
  }

  function AppliedBy(config: Config, reply: Reply, batch: seq<Row>, life: nat): set<nat> {
    if !AtOnce(reply) then RetiredBy(config, batch, life) else if life > 0 then IdSet(batch) else {}
  }

  /** Rows handled one by one take two steps each. */
  lemma CutOff(n: nat, k: nat, total: nat, life: nat)
    requires k < n && total == life + 2 * k && life < 2
    ensures Min(n, total / 2) == k
    ensures Min(n, (total + 1) / 2) == if life >= 1 then k + 1 else k
  {
  }

  lemma AllHandled(n: nat, total: nat)
    requires total >= 2 * n
    ensures Min(n, total / 2) == n && Min(n, (total + 1) / 2) == n
  {
  }

  /** The steps of a whole flush. */
  function Steps(config: Config, server: Server, turn: nat, batch: seq<Row>): nat {
    if batch == [] then 0
    else if Splits(server, turn, batch) then 1 + 2 * |batch|
    else 1 + Applying(config, server(turn, batch), batch)
  }

  /** The rows a flush that lives so many steps has settled. */
  function DoneBy(config: Config, server: Server, turn: nat, batch: seq<Row>, life: nat): set<nat> {
    if life == 0 then {}
    else if Splits(server, turn, batch) then IdSet(batch[..Min(|batch|, (life - 1) / 2)])
    else AppliedBy(config, server(turn, batch), batch, life - 1)
  }

  /** The posts it has made. */
  function PostsBy(server: Server, turn: nat, batch: seq<Row>, life: nat): seq<Post> {
    if batch == [] || life == 0 then []
    else
      [Post(batch, server(turn, batch))]
      + if Splits(server, turn, batch) then Alone(server, turn, batch, Min(|batch|, life / 2)) else []
  }

  /** The posts of the first `n` rows of a split batch. */
  function Alone(server: Server, turn: nat, batch: seq<Row>, n: nat): seq<Post>
    requires n <= |batch|
  {
    seq(n, i requires 0 <= i < n => Post([batch[i]], server(turn + 1 + i, [batch[i]])))
  }

  lemma {:induction false} FreshGrows(config: Config, batch: seq<Row>, i: nat, j: nat)
    requires i <= j <= |batch|
    ensures FreshCount(config, batch[..i]) <= FreshCount(config, batch[..j])
    decreases j
  {
    if i < j {
      FreshGrows(config, batch, i, j - 1);
      FreshNext(config, batch, j - 1);
    }
  }

  lemma FreshNext(config: Config, batch: seq<Row>, i: nat)
    requires i < |batch|
    ensures FreshCount(config, batch[..i + 1]) ==
            FreshCount(config, batch[..i]) + if Spent(config, batch[i]) then 0 else 1
  {
    assert batch[..i + 1][..i] == batch[..i];
  }

  /** Where the retiring of a batch can be cut: at a row to be put off, or before the dying ones. */
  predicate Cut(config: Config, batch: seq<Row>, i: nat) {
    i <= |batch| && if i < |batch| then !Spent(config, batch[i]) else SpentIds(config, batch) != []
  }

  lemma CutBefore(config: Config, batch: seq<Row>, i: nat, k: nat)
    requires Ordered(batch) && k < |batch| && Cut(config, batch, i)
    ensures RetiredAt(config, batch, k) <= FreshCount(config, batch[..i]) <==> k < i && !Spent(config, batch[k])
  {
    assert batch[..|batch|] == batch;
    if Spent(config, batch[k]) {
      SpentAre(config, batch);
      assert batch[k].id in SpentIds(config, batch);
      FreshGrows(config, batch, i, |batch|);
    } else if k < i {
      FreshGrows(config, batch, k + 1, i);
    } else {
      FreshGrows(config, batch, i, k);
      FreshNext(config, batch, k);
    }
  }

  /** A process that dies there has put off the fresh rows before it and no more. */
  lemma CutThere(config: Config, batch: seq<Row>, i: nat)
    requires Ordered(batch) && Cut(config, batch, i)
    ensures RetiredBy(config, batch, FreshCount(config, batch[..i])) == FreshIds(config, batch[..i])
    ensures FreshCount(config, batch[..i]) < Retiring(config, batch)
  {
    var life := FreshCount(config, batch[..i]);
    assert batch[..|batch|] == batch;
    FreshGrows(config, batch, i, |batch|);
    if i < |batch| {
      FreshNext(config, batch, i);
      FreshGrows(config, batch, i + 1, |batch|);
    }
    forall k | 0 <= k < |batch|
      ensures RetiredAt(config, batch, k) <= life <==> k < i && !Spent(config, batch[k])
    {
      CutBefore(config, batch, i, k);
    }
    forall id
      ensures id in RetiredBy(config, batch, life) <==> id in FreshIds(config, batch[..i])
    {
      if id in RetiredBy(config, batch, life) {
        var k :| 0 <= k < |batch| && RetiredAt(config, batch, k) <= life && batch[k].id == id;
        assert batch[..i][k] == batch[k];
      }
    }
  }

  lemma AllRetired(config: Config, batch: seq<Row>, life: nat)
    requires life >= Retiring(config, batch)
    ensures RetiredBy(config, batch, life) == IdSet(batch)
  {
    forall k | 0 <= k < |batch|
      ensures RetiredAt(config, batch, k) <= life
    {
      assert batch[..|batch|] == batch;
      FreshGrows(config, batch, k + 1, |batch|);
    }
    forall r | r in batch
      ensures r.id in RetiredBy(config, batch, life)
    {
      var k :| 0 <= k < |batch| && batch[k] == r;
      assert RetiredAt(config, batch, k) <= life;
    }
  }

  /** A row by itself takes two steps. */
  lemma OneAtATime(config: Config, server: Server, t: nat, r: Row, one: seq<Row>, life: nat)
    requires one == [r]
    ensures Steps(config, server, t, one) == 2
    ensures DoneBy(config, server, t, one, life) == if life >= 2 then {r.id} else {}
    ensures PostsBy(server, t, one, life) == if life >= 1 then [Post(one, server(t, one))] else []
  {
    assert one[..0] == [] && one[..1] == one;
    assert IdSet(one) == {r.id};
    assert FreshCount(config, one) == if Spent(config, r) then 0 else 1;
    assert SpentIds(config, one) == if Spent(config, r) then [r.id] else [];
    assert Retiring(config, one) == 1 && RetiredAt(config, one, 0) == 1;
    if life >= 1 {
      OneRetired(config, r, one, life - 1);
    }
  }

  lemma OneRetired(config: Config, r: Row, one: seq<Row>, life: nat)
    requires one == [r] && RetiredAt(config, one, 0) == 1
    ensures RetiredBy(config, one, life) == if life >= 1 then {r.id} else {}
  {
    assert life >= 1 ==> one[0].id in RetiredBy(config, one, life);
  }

  lemma DistinctSnoc(ids: seq<nat>, id: nat)
    requires Distinct(ids) && id !in ids
    ensures Distinct(ids + [id])
  {
  }

  lemma {:induction false} SpentAre(config: Config, batch: seq<Row>)
    requires Ordered(batch)
    ensures Distinct(SpentIds(config, batch))
    ensures forall id :: id in SpentIds(config, batch) <==> exists r :: r in batch && Spent(config, r) && r.id == id
  {
    if batch != [] {
      var n := |batch| - 1;
      SpentAre(config, batch[..n]);
      assert batch == batch[..n] + [batch[n]];
      assert forall r :: r in batch[..n] ==> r.id < batch[n].id;
      assert batch[n].id !in SpentIds(config, batch[..n]);
      DistinctSnoc(SpentIds(config, batch[..n]), batch[n].id);
    }
  }

  class TokemetryBatcher {
    const outbox: TokemetryOutbox
    const config: Config
    const server: Server
    /** Every post made so far. */
    var posts: seq<Post>
    /** How many more steps the process lives. */
    var left: nat

    constructor (o: TokemetryOutbox, c: Config, s: Server, lifetime: nat)
      ensures outbox == o && config == c && server == s && posts == [] && left == lifetime
    {
      outbox, config, server, posts, left := o, c, s, [], lifetime;
    }

    /** One step, unless the process dies before it. */
    method Step() returns (alive: bool)
      modifies this`left
      ensures alive == (old(left) > 0) && left == if alive then old(left) - 1 else 0
    {
      alive := left > 0;
      if alive {
        left := left - 1;
      }
    }

    /** Post a batch. The server may store it even when the process dies before it learns so. */
    method Send(batch: seq<Row>) returns (alive: bool, reply: Reply)
      modifies this`left, this`posts
      ensures alive == (old(left) > 0) && left == if alive then old(left) - 1 else 0
      ensures alive ==> posts == old(posts) + [Post(batch, reply)] && reply == server(|old(posts)|, batch)
      ensures !alive ==> posts == old(posts)
    {
      reply := Lost(false);
      alive := Step();
      if alive {
        reply := server(|posts|, batch);
        posts := posts + [Post(batch, reply)];
      }
    }

    /** Put one row off. */
    method PutOff(r: Row, now: int, reply: Reply, ghost was: seq<Row>, ghost done: set<nat>) returns (alive: bool)
      requires r.id !in done && !AtOnce(reply) && !Spent(config, r)
      requires forall q :: q in was && q.id == r.id ==> q == r
      requires Partly(was, outbox.rows, done, (q: Row) => Changed(config, q, reply, now))
      modifies this`left, outbox`rows
      ensures alive == (old(left) > 0) && left == if alive then old(left) - 1 else 0
      ensures Partly(was, outbox.rows, if alive then done + {r.id} else done,
                     (q: Row) => Changed(config, q, reply, now))
    {
      alive := Step();
      if alive {
        ghost var mark := (q: Row) => ToFailed(q, now + BackoffMs(config, r.attempts), config.describe(reply));
        MarkPartly(was, outbox.rows, done, (q: Row) => Changed(config, q, reply, now), [r.id], mark);
        outbox.MarkFailed([r.id], now + BackoffMs(config, r.attempts), config.describe(reply));
        assert (set id | id in [r.id]) == {r.id};
      }
    }

    /** The row loop of `retireByAttempts`: rows with attempts left are put off, the others set aside. */
    method PutOffFresh(batch: seq<Row>, now: int, reply: Reply) returns (alive: bool, toRetry: nat, toDead: seq<nat>)
      requires Claimed(outbox.rows, batch) && !AtOnce(reply)
      modifies this`left, outbox`rows
      ensures alive == (old(left) >= FreshCount(config, batch))
      ensures left == if alive then old(left) - FreshCount(config, batch) else 0
      ensures Partly(old(outbox.rows), outbox.rows,
                     if alive then FreshIds(config, batch) else RetiredBy(config, batch, old(left)),
                     (q: Row) => Changed(config, q, reply, now))
      ensures !alive ==> old(left) < Retiring(config, batch)
      ensures alive ==> toDead == SpentIds(config, batch) && toRetry + |toDead| == |batch|
    {
      ghost var was := outbox.rows;
      alive, toRetry, toDead := true, 0, [];
      for i := 0 to |batch|
        invariant alive && old(left) == left + FreshCount(config, batch[..i])
        invariant Partly(was, outbox.rows, FreshIds(config, batch[..i]), (q: Row) => Changed(config, q, reply, now))
        invariant toDead == SpentIds(config, batch[..i])
        invariant toRetry + |toDead| == i
      {
        Grown(config, batch, i);
        FreshNext(config, batch, i);
        if batch[i].attempts + 1 >= config.maxAttempts {
          toDead := toDead + [batch[i].id];
        } else {
          OnlyRow(was, batch, i);
          alive := PutOff(batch[i], now, reply, was, FreshIds(config, batch[..i]));
          if !alive {
            CutThere(config, batch, i);
            StillFresh(config, batch, i);
            return;
          }
          toRetry := toRetry + 1;
        }
      }
      assert batch[..|batch|] == batch;
    }

    /** `retireByAttempts`. */
    method RetireByAttempts(batch: seq<Row>, now: int, reply: Reply, result: FlushResult)
      returns (alive: bool, total: FlushResult)
      requires Claimed(outbox.rows, batch) && !AtOnce(reply)
      modifies this`left, outbox`rows
      ensures alive == (old(left) >= Retiring(config, batch))
      ensures left == if alive then old(left) - Retiring(config, batch) else 0
      ensures Partly(old(outbox.rows), outbox.rows, RetiredBy(config, batch, old(left)),
                     (q: Row) => Changed(config, q, reply, now))
      ensures alive ==> total == Sum(result, Uniform(config, reply, batch))
    {
      ghost var was := outbox.rows;
      UniformRetires(config, reply, batch);
      var toRetry, toDead;
      alive, toRetry, toDead := PutOffFresh(batch, now, reply);
      total := result;
      EveryId(config, batch);
      if !alive {
        return;
      }
      if |toDead| > 0 {
        alive := Bury(batch, toDead, now, reply, was);
        if !alive {
          assert batch[..|batch|] == batch;
          CutThere(config, batch, |batch|);
          return;
        }
      }
      AllRetired(config, batch, old(left));
      total := result.(retried := result.retried + toRetry, dead := result.dead + |toDead|);
    }

    /** The rows set aside die together. */
    method Bury(batch: seq<Row>, toDead: seq<nat>, now: int, reply: Reply, ghost was: seq<Row>) returns (alive: bool)
      requires Claimed(was, batch) && !AtOnce(reply) && toDead == SpentIds(config, batch)
      requires Partly(was, outbox.rows, FreshIds(config, batch), (q: Row) => Changed(config, q, reply, now))
      modifies this`left, outbox`rows
      ensures alive == (old(left) > 0) && left == if alive then old(left) - 1 else 0
      ensures Partly(was, outbox.rows, if alive then IdSet(batch) else FreshIds(config, batch),
                     (q: Row) => Changed(config, q, reply, now))
    {
      alive := Step();
      if alive {
        var error := "max attempts exceeded: " + config.describe(reply);
        EveryId(config, batch);
        SpentMark(config, was, batch, now, reply);
        MarkPartly(was, outbox.rows, FreshIds(config, batch), (q: Row) => Changed(config, q, reply, now), toDead,
                   (r: Row) => ToDead(r, error));
        outbox.MarkDead(toDead, error);
      }
    }

    /** What follows a reply that is not split on. */
    method Apply(batch: seq<Row>, now: int, reply: Reply, result: FlushResult)
      returns (alive: bool, total: FlushResult)
      requires batch != [] && Claimed(outbox.rows, batch) && (Rejected(reply) ==> |batch| == 1)
      modifies this`left, outbox`rows
      ensures alive == (old(left) >= Applying(config, reply, batch))
      ensures left == if alive then old(left) - Applying(config, reply, batch) else 0
      ensures Partly(old(outbox.rows), outbox.rows, AppliedBy(config, reply, batch, old(left)),
                     (q: Row) => Changed(config, q, reply, now))
      ensures alive ==> total == Sum(result, Uniform(config, reply, batch))
    {
      ghost var was := outbox.rows;
      alive, total := true, result;
      if Success(reply) {
        UniformExports(config, reply, batch);
        alive := Step();
        if alive {
          MarkAll(was, batch, ToExported, (q: Row) => Changed(config, q, reply, now));
          outbox.MarkExported(Ids(batch));
          total := result.(exported := result.exported + |batch|);
        }
      } else if Rejected(reply) {
        alive := Step();
        if alive {
          var error := "poison: " + config.describe(reply);
          MarkAll(was, batch, (r: Row) => ToDead(r, error), (q: Row) => Changed(config, q, reply, now));
          outbox.MarkDead([batch[0].id], error);
          assert [batch[0].id] == Ids(batch);
          total := result.(dead := result.dead + 1);
          assert Uniform(config, reply, batch) == Counted(FlushResult(0, 0, 0, 0), Poison);
        }
      } else {
        alive, total := RetireByAttempts(batch, now, reply, result);
      }
    }

    /** Each row of a split batch, handled by itself. */
    method HandleEach(batch: seq<Row>, now: int, result: FlushResult, ghost turn: nat)
      returns (alive: bool, total: FlushResult)
      requires Splits(server, turn, batch) && |posts| == turn + 1 && Claimed(outbox.rows, batch)
      modifies this, outbox`rows
      ensures alive == (old(left) >= 2 * |batch|) && left == if alive then old(left) - 2 * |batch| else 0
      ensures EachUpTo(config, server, turn, batch, now, old(outbox.rows), outbox.rows, old(posts), posts,
                       Min(|batch|, old(left) / 2), Min(|batch|, (old(left) + 1) / 2))
      ensures alive ==> total == Sum(result, Tally(config, server, turn, batch, batch))
      decreases |batch|, 1
    {
      ghost var was := outbox.rows;
      alive, total := true, result;
      NoneHandled(config, server, turn, batch, now, was, posts);
      for k := 0 to |batch|
        invariant alive && old(left) == left + 2 * k
        invariant EachUpTo(config, server, turn, batch, now, was, outbox.rows, old(posts), posts, k, k)
        invariant total == Sum(result, Tally(config, server, turn, batch, batch[..k]))
      {
        ghost var life := left;
        alive, total := HandleNext(batch, now, result, total, turn, k, was, old(posts));
        if !alive {
          CutOff(|batch|, k, old(left), life);
          return;
        }
      }
      WholePrefix(batch);
      AllHandled(|batch|, old(left));
    }

    /** The next row of a split batch. */
    method HandleNext(batch: seq<Row>, now: int, ghost result: FlushResult, sofar: FlushResult, ghost turn: nat, k: nat,
                      ghost was: seq<Row>, ghost before: seq<Post>)
      returns (alive: bool, total: FlushResult)
      requires Splits(server, turn, batch) && k < |batch| && |before| == turn + 1 && Claimed(was, batch)
      requires EachUpTo(config, server, turn, batch, now, was, outbox.rows, before, posts, k, k)
      requires sofar == Sum(result, Tally(config, server, turn, batch, batch[..k]))
      modifies this, outbox`rows
      ensures alive == (old(left) >= 2) && left == if alive then old(left) - 2 else 0
      ensures EachUpTo(config, server, turn, batch, now, was, outbox.rows, before, posts, if alive then k + 1 else k,
                       if old(left) >= 1 then k + 1 else k)
      ensures alive ==> total == Sum(result, Tally(config, server, turn, batch, batch[..k + 1]))
      decreases |batch|, 0
    {
      ghost var rows, t, life, settled := outbox.rows, |posts|, left, IdSet(batch[..k]);
      AloneClaimed(config, server, turn, batch, now, was, rows, settled, k);
      AloneIds(batch, k);
      var one := [batch[k]];
      OneAtATime(config, server, t, batch[k], one, life);
      alive, total := Handle(one, now, sofar);
      ghost var own := DoneBy(config, server, t, one, life);
      AloneSettles(config, server, turn, batch, now, was, rows, outbox.rows, settled, own, k, t, one);
      assert settled + {} == settled;
      AlonePosted(server, turn, batch, k, t, one, before);
      ghost var counted, more := Tally(config, server, turn, batch, batch[..k]), Tally(config, server, t, one, one);
      AloneCounts(config, server, turn, batch, k, t, one, counted, more);
      SumAssoc(result, counted, more);
    }

    /** `handle`: post a batch, and do what the reply calls for. */
    method Handle(batch: seq<Row>, now: int, result: FlushResult) returns (alive: bool, total: FlushResult)
      requires batch != [] && Claimed(outbox.rows, batch)
      modifies this, outbox`rows
      ensures Flushed(config, server, batch, now, old(left), old(outbox.rows), outbox.rows, old(posts), posts)
      ensures var steps := Steps(config, server, |old(posts)|, batch);
              alive == (old(left) >= steps) && left == if alive then old(left) - steps else 0
      ensures alive ==> total == Sum(result, Tally(config, server, |old(posts)|, batch, batch))
      decreases |batch|, 2
    {
      ghost var turn, was := |posts|, outbox.rows;
      total := result;
      var reply;
      alive, reply := Send(batch);
      if !alive {
        assert posts == old(posts) + PostsBy(server, turn, batch, old(left));
        return;
      }
      if Rejected(reply) && |batch| > 1 {
        alive, total := HandleEach(batch, now, result, turn);
        EachPosted(server, turn, batch, old(left), old(posts), posts);
        return;
      }
      alive, total := Apply(batch, now, reply, result);
      TallyUniform(config, server, turn, batch, batch);
      assert PostsBy(server, turn, batch, old(left)) == [Post(batch, reply)];
    }

    /**
     * `flushOnce`: drain one batch, as far as the process lives. A flush that lives to its end accounts for
     * every row it claimed.
     */
    method FlushOnce(now: int) returns (alive: bool, result: FlushResult)
      requires outbox.Valid()
      modifies this, outbox`rows
      ensures Flushed(config, server, NextBatch(config, old(outbox.rows), now), now, old(left), old(outbox.rows),
                      outbox.rows, old(posts), posts)
      ensures alive == (old(left) >= Steps(config, server, |old(posts)|, NextBatch(config, old(outbox.rows), now)))
      ensures alive ==> Accounts(config, server, |old(posts)|, NextBatch(config, old(outbox.rows), now), result)
    {
      var batch := outbox.ClaimBatch(config.batchSize, now);
      alive, result := true, FlushResult(|batch|, 0, 0, 0);
      if |batch| == 0 {
        NothingFlushed(config, server, batch, now, outbox.rows, posts, left);
        NothingCounted(config, server, |posts|, batch, result);
      } else {
        BatchClaimed(config, outbox.rows, batch, now);
        ghost var turn := |posts|;
        alive, result := Handle(batch, now, result);
        if alive {
          CountersAddUp(config, server, turn, batch, result);
        }
      }
    }
  }

  /** The rows a flush claims. */
  function NextBatch(config: Config, rows: seq<Row>, now: int): seq<Row> {
    Take(DueRows(rows, now), config.batchSize)
  }

  /** The counters are the fates of the claimed rows, and add up to the claim. */
  ghost predicate Accounts(config: Config, server: Server, turn: nat, batch: seq<Row>, result: FlushResult) {
    var tally := Tally(config, server, turn, batch, batch);
    && result.exported == tally.exported && result.retried == tally.retried && result.dead == tally.dead
    && result.claimed == |batch| == result.exported + result.retried + result.dead
  }

  /** A flush of a batch that lives so many steps: the rows it has settled and the posts it has made by then. */
  ghost predicate Flushed(config: Config, server: Server, batch: seq<Row>, now: int, life: nat, was: seq<Row>,
                          rows: seq<Row>, before: seq<Post>, posts: seq<Post>) {
    && Handled(config, server, |before|, batch, now, was, rows, DoneBy(config, server, |before|, batch, life))
    && posts == before + PostsBy(server, |before|, batch, life)
  }

  lemma EachPosted(server: Server, turn: nat, batch: seq<Row>, life: nat, before: seq<Post>, posts: seq<Post>)
    requires life > 0 && Splits(server, turn, batch)
    requires posts == before + [Post(batch, server(turn, batch))] + Alone(server, turn, batch, Min(|batch|, life / 2))
    ensures posts == before + PostsBy(server, turn, batch, life)
  {
    Assoc(before, [Post(batch, server(turn, batch))], Alone(server, turn, batch, Min(|batch|, life / 2)));
  }

  lemma NothingToDo(config: Config, server: Server, turn: nat, batch: seq<Row>, life: nat)
    requires batch == []
    ensures DoneBy(config, server, turn, batch, life) == {}
  {
    assert IdSet(batch) == {};
    assert RetiredBy(config, batch, life) == {};
  }

  lemma NothingFlushed(config: Config, server: Server, batch: seq<Row>, now: int, rows: seq<Row>, posts: seq<Post>,
                       life: nat)
    requires batch == []
    ensures Flushed(config, server, batch, now, life, rows, rows, posts, posts)
    ensures Steps(config, server, |posts|, batch) == 0
  {
    NothingToDo(config, server, |posts|, batch, life);
    AsTheyWere(config, server, |posts|, batch, now, rows);
    NoPosts(server, batch, posts, life);
  }

  lemma NoPosts(server: Server, batch: seq<Row>, posts: seq<Post>, life: nat)
    requires batch == []
    ensures posts + PostsBy(server, |posts|, batch, life) == posts
  {
  }

  lemma AsTheyWere(config: Config, server: Server, turn: nat, batch: seq<Row>, now: int, rows: seq<Row>)
    ensures Handled(config, server, turn, batch, now, rows, rows, {})
  {
  }

  lemma NothingCounted(config: Config, server: Server, turn: nat, batch: seq<Row>, result: FlushResult)
    requires batch == [] && result == FlushResult(0, 0, 0, 0)
    ensures Accounts(config, server, turn, batch, result)
  {
    TallyNone(config, server, turn, batch, batch);
  }

  lemma TallyNone(config: Config, server: Server, turn: nat, batch: seq<Row>, none: seq<Row>)
    requires none == []
    ensures Tally(config, server, turn, batch, none) == FlushResult(0, 0, 0, 0)
  {
  }

  lemma CountersAddUp(config: Config, server: Server, turn: nat, batch: seq<Row>, result: FlushResult)
    requires result == Sum(FlushResult(|batch|, 0, 0, 0), Tally(config, server, turn, batch, batch))
    ensures Accounts(config, server, turn, batch, result)
  {
    TallyCounts(config, server, turn, batch, batch);
    SumParts(|batch|, Tally(config, server, turn, batch, batch), result);
  }

  lemma SumParts(n: nat, t: FlushResult, result: FlushResult)
    requires result == Sum(FlushResult(n, 0, 0, 0), t) && t.claimed == 0
    ensures result.claimed == n && result.exported == t.exported && result.retried == t.retried && result.dead == t.dead
  {
  }

  /** A flush that lives to its end has settled every row and made every post. */
  lemma WholeFlush(config: Config, server: Server, turn: nat, batch: seq<Row>, life: nat)
    requires batch != [] && life >= Steps(config, server, turn, batch)
    ensures DoneBy(config, server, turn, batch, life) == IdSet(batch)
    ensures PostsBy(server, turn, batch, life) == PostsOf(server, turn, batch)
  {
    assert batch[..|batch|] == batch;
    if !Splits(server, turn, batch) && !AtOnce(server(turn, batch)) {
      AllRetired(config, batch, life - 1);
    }
  }

  lemma BatchClaimed(config: Config, rows: seq<Row>, batch: seq<Row>, now: int)
    requires Ordered(rows) && batch == NextBatch(config, rows, now)
    ensures Claimed(rows, batch)
  {
    ClaimIsDue(rows, now, config.batchSize);
    forall q | q in rows && q.id in Ids(batch)
      ensures q in batch
    {
      var k :| 0 <= k < |batch| && Ids(batch)[k] == q.id;
      assert batch[k] in batch;
      var i :| 0 <= i < |rows| && rows[i] == batch[k];
      SameRow(rows, q, i);
    }
  }

  /** Whoever was exported was in a post the server stored. */
  ghost predicate Evidence(server: Server, turn: nat, batch: seq<Row>, done: set<nat>, posts: seq<Post>) {
    forall r :: r in batch && r.id in done && Success(Deciding(server, turn, batch, r)) ==> StoredIn(posts, r.id)
  }

  lemma StoredAt(posts: seq<Post>, i: nat, k: nat)
    requires i < |posts| && Stored(posts[i]) && k < |posts[i].rows|
    ensures StoredIn(posts, posts[i].rows[k].id)
  {
    assert posts[i] in posts && Ids(posts[i].rows)[k] == posts[i].rows[k].id;
  }

  /** However soon a flush dies, a row it exported was in a post it made. */
  lemma Evident(config: Config, server: Server, turn: nat, batch: seq<Row>, life: nat)
    requires Ordered(batch)
    ensures Evidence(server, turn, batch, DoneBy(config, server, turn, batch, life), PostsBy(server, turn, batch, life))
  {
    var posts := PostsBy(server, turn, batch, life);
    forall r | r in batch && r.id in DoneBy(config, server, turn, batch, life)
      && Success(Deciding(server, turn, batch, r))
      ensures StoredIn(posts, r.id)
    {
      var k :| 0 <= k < |batch| && batch[k] == r;
      if Splits(server, turn, batch) {
        SplitEvident(server, turn, batch, life, k);
      } else {
        StoredAt(posts, 0, k);
      }
    }
  }

  lemma SplitEvident(server: Server, turn: nat, batch: seq<Row>, life: nat, k: nat)
    requires Ordered(batch) && life > 0 && k < |batch| && Splits(server, turn, batch)
    requires batch[k].id in IdSet(batch[..Min(|batch|, (life - 1) / 2)])
    requires Success(Deciding(server, turn, batch, batch[k]))
    ensures StoredIn(PostsBy(server, turn, batch, life), batch[k].id)
  {
    WithinPrefix(batch, Min(|batch|, (life - 1) / 2), k);
    PlaceIs(batch, k);
    var posts, sent := PostsBy(server, turn, batch, life), Min(|batch|, life / 2);
    OwnPlace(server, turn, batch, sent, k, posts);
    StoredAt(posts, 1 + k, 0);
  }

  lemma WithinPrefix(batch: seq<Row>, n: nat, k: nat)
    requires Ordered(batch) && k < |batch| && n <= |batch| && batch[k].id in IdSet(batch[..n])
    ensures k < n
  {
    var q :| q in batch[..n] && q.id == batch[k].id;
    var i :| 0 <= i < n && batch[..n][i] == q;
    SamePlace(batch, i, k);
  }

  lemma OwnPlace(server: Server, turn: nat, batch: seq<Row>, n: nat, k: nat, posts: seq<Post>)
    requires k < n <= |batch| && posts == [Post(batch, server(turn, batch))] + Alone(server, turn, batch, n)
    ensures 1 + k < |posts| && posts[1 + k] == Post([batch[k]], server(turn + 1 + k, [batch[k]]))
  {
  }

  lemma NotYet(batch: seq<Row>, k: nat)
    requires Ordered(batch) && k < |batch|
    ensures batch[k].id !in IdSet(batch[..k])
  {
    assert forall r :: r in batch[..k] ==> r.id < batch[k].id;
  }

  /** The next row of a split batch is still as it was claimed. */
  lemma AloneClaimed(config: Config, server: Server, turn: nat, batch: seq<Row>, now: int, was: seq<Row>,
                     rows: seq<Row>, done: set<nat>, k: nat)
    requires Claimed(was, batch) && k < |batch| && done == IdSet(batch[..k])
    requires Handled(config, server, turn, batch, now, was, rows, done)
    ensures Claimed(rows, [batch[k]]) && batch[k].id !in done
  {
    NotYet(batch, k);
    OnlyRow(was, batch, k);
    StillThere(config, server, turn, batch, now, was, rows, done, batch[k]);
  }

  /** A row not settled yet is the only one of its id. */
  lemma StillThere(config: Config, server: Server, turn: nat, batch: seq<Row>, now: int, was: seq<Row>,
                   rows: seq<Row>, done: set<nat>, r: Row)
    requires Handled(config, server, turn, batch, now, was, rows, done) && r.id !in done
    requires forall q :: q in was && q.id == r.id ==> q == r
    ensures Claimed(rows, [r])
  {
    forall q | q in rows && q.id in Ids([r])
      ensures q in [r]
    {
      var i :| 0 <= i < |rows| && rows[i] == q;
      assert was[i].id == q.id && was[i] in was;
    }
  }

  lemma AloneSettles(config: Config, server: Server, turn: nat, batch: seq<Row>, now: int, was: seq<Row>,
                     rows: seq<Row>, rows': seq<Row>, done: set<nat>, own: set<nat>, k: nat, t: nat, one: seq<Row>)
    requires Splits(server, turn, batch) && Claimed(was, batch) && k < |batch| && t == turn + 1 + k && one == [batch[k]]
    requires batch[k].id !in done && own <= {batch[k].id}
    requires Handled(config, server, turn, batch, now, was, rows, done)
    requires Handled(config, server, t, one, now, rows, rows', own)
    ensures Handled(config, server, turn, batch, now, was, rows', done + own)
  {
    AloneDecides(server, turn, batch, k, t, one);
    TallyAlone(server, t, batch[k], one);
    assert Settled(config, server, turn, batch, now, batch[k]) == Settled(config, server, t, one, now, batch[k]);
    OnlyRow(was, batch, k);
    forall i | 0 <= i < |was|
      ensures rows'[i] == if was[i].id in done + own then Settled(config, server, turn, batch, now, was[i]) else was[i]
    {
      assert was[i] in was;
    }
  }

  lemma TallyAlone(server: Server, t: nat, r: Row, one: seq<Row>)
    requires one == [r]
    ensures Deciding(server, t, one, r) == server(t, one)
  {
  }

  lemma StillStored(posts: seq<Post>, posts': seq<Post>, id: nat)
    requires posts <= posts' && StoredIn(posts, id)
    ensures StoredIn(posts', id)
  {
    var p :| p in posts && Stored(p) && id in Ids(p.rows);
    assert p in posts';
  }

  lemma AlonePosted(server: Server, turn: nat, batch: seq<Row>, k: nat, t: nat, one: seq<Row>, before: seq<Post>)
    requires k < |batch| && t == turn + 1 + k && one == [batch[k]]
    ensures before + Alone(server, turn, batch, k) + [Post(one, server(t, one))] ==
            before + Alone(server, turn, batch, k + 1)
    ensures before + Alone(server, turn, batch, k) + [] == before + Alone(server, turn, batch, k)
  {
    assert Alone(server, turn, batch, k + 1) == Alone(server, turn, batch, k) + [Post(one, server(t, one))];
  }

  lemma AloneDecides(server: Server, turn: nat, batch: seq<Row>, k: nat, t: nat, one: seq<Row>)
    requires Splits(server, turn, batch) && Ordered(batch) && k < |batch| && t == turn + 1 + k && one == [batch[k]]
    ensures Deciding(server, turn, batch, batch[k]) == server(t, one)
  {
    PlaceIs(batch, k);
  }

  lemma AloneCounts(config: Config, server: Server, turn: nat, batch: seq<Row>, k: nat, t: nat, one: seq<Row>,
                    before: FlushResult, own: FlushResult)
    requires Splits(server, turn, batch) && Ordered(batch) && k < |batch| && t == turn + 1 + k && one == [batch[k]]
    requires before == Tally(config, server, turn, batch, batch[..k]) && own == Tally(config, server, t, one, one)
    ensures Sum(before, own) == Tally(config, server, turn, batch, batch[..k + 1])
  {
    var r := batch[k];
    AloneDecides(server, turn, batch, k, t, one);
    TallySnoc(config, server, turn, batch, k);
    TallyOne(config, server, t, r);
    SumCounted(before, Judge(config, r, server(t, one)));
  }

  lemma TallySnoc(config: Config, server: Server, turn: nat, batch: seq<Row>, k: nat)
    requires k < |batch|
    ensures Tally(config, server, turn, batch, batch[..k + 1]) ==
            Counted(Tally(config, server, turn, batch, batch[..k]),
                    Judge(config, batch[k], Deciding(server, turn, batch, batch[k])))
  {
    assert batch[..k + 1][..k] == batch[..k];
  }

  lemma SumAssoc(a: FlushResult, b: FlushResult, c: FlushResult)
    ensures Sum(Sum(a, b), c) == Sum(a, Sum(b, c))
  {
  }

  lemma SumCounted(t: FlushResult, fate: Fate)
    ensures Sum(t, Counted(FlushResult(0, 0, 0, 0), fate)) == Counted(t, fate)
  {
  }

  lemma TallyOne(config: Config, server: Server, turn: nat, r: Row)
    ensures Tally(config, server, turn, [r], [r]) ==
            Counted(FlushResult(0, 0, 0, 0), Judge(config, r, server(turn, [r])))
  {
    assert [r][..0] == [];
  }

  lemma AloneIds(batch: seq<Row>, k: nat)
    requires k < |batch|
    ensures IdSet(batch[..k]) <= IdSet(batch) && batch[k].id in IdSet(batch)
    ensures IdSet([batch[k]]) == {batch[k].id}
    ensures IdSet(batch[..k + 1]) == IdSet(batch[..k]) + {batch[k].id}
  {
    assert batch[..k + 1] == batch[..k] + [batch[k]];
    assert batch == batch[..k] + batch[k..];
    assert batch[k] in [batch[k]];
  }

  /** Marking a whole batch at once. */
  lemma MarkAll(was: seq<Row>, batch: seq<Row>, mark: Row -> Row, change: Row -> Row)
    requires Ordered(batch) && forall r :: mark(r).id == r.id && mark(r) == change(r)
    ensures Partly(was, UpdateEach(was, Ids(batch), mark), IdSet(batch), change)
  {
    assert Distinct(Ids(batch));
    MarkPartly(was, was, {}, change, Ids(batch), mark);
    forall id
      ensures id in Ids(batch) <==> id in IdSet(batch)
    {
      if id in IdSet(batch) {
        var k :| 0 <= k < |batch| && batch[k].id == id;
        assert Ids(batch)[k] == id;
      }
    }
    assert {} + (set id | id in Ids(batch)) == IdSet(batch);
  }

  function IdSet(batch: seq<Row>): set<nat> {
    set r | r in batch :: r.id
  }

  lemma StillFresh(config: Config, batch: seq<Row>, i: nat)
    requires i < |batch| && !Spent(config, batch[i])
    ensures FreshCount(config, batch[..i]) < FreshCount(config, batch)
  {
    assert batch[..|batch|] == batch;
    FreshNext(config, batch, i);
    FreshGrows(config, batch, i + 1, |batch|);
  }

  lemma EveryId(config: Config, batch: seq<Row>)
    requires Ordered(batch)
    ensures FreshIds(config, batch) + (set id | id in SpentIds(config, batch)) == IdSet(batch)
    ensures Distinct(SpentIds(config, batch))
    ensures forall id :: id in SpentIds(config, batch) ==> id !in FreshIds(config, batch)
  {
    SpentAre(config, batch);
    forall id | id in SpentIds(config, batch)
      ensures id !in FreshIds(config, batch)
    {
      var r :| r in batch && Spent(config, r) && r.id == id;
      var i :| 0 <= i < |batch| && batch[i] == r;
      forall q | q in batch && q.id == id
        ensures q == r
      {
        SameRow(batch, q, i);
      }
    }
  }

  /** For a row out of attempts, marking it dead is what the reply calls for. */
  lemma SpentMark(config: Config, was: seq<Row>, batch: seq<Row>, now: int, reply: Reply)
    requires Claimed(was, batch) && !Success(reply) && !Rejected(reply)
    ensures forall q :: q in was && q.id in SpentIds(config, batch) ==>
              ToDead(q, "max attempts exceeded: " + config.describe(reply)) == Changed(config, q, reply, now)
  {
    SpentAre(config, batch);
    forall q | q in was && q.id in SpentIds(config, batch)
      ensures Spent(config, q)
    {
      var r :| r in batch && Spent(config, r) && r.id == q.id;
      var i :| 0 <= i < |batch| && batch[i] == r;
      OnlyRow(was, batch, i);
    }
  }

  lemma OnlyRow(was: seq<Row>, batch: seq<Row>, i: nat)
    requires Claimed(was, batch) && i < |batch|
    ensures forall q :: q in was && q.id == batch[i].id ==> q == batch[i]
  {
    forall q | q in was && q.id == batch[i].id
      ensures q == batch[i]
    {
      assert Ids(batch)[i] == q.id;
      SameRow(batch, q, i);
    }
  }

  /** One more row of a batch joins the spent or the fresh ones. */
  lemma Grown(config: Config, batch: seq<Row>, i: nat)
    requires i < |batch| && Ordered(batch)
    ensures var r := batch[i];
            && SpentIds(config, batch[..i + 1]) == SpentIds(config, batch[..i])
               + (if Spent(config, r) then [r.id] else [])
            && FreshIds(config, batch[..i + 1]) == FreshIds(config, batch[..i])
               + (if Spent(config, r) then {} else {r.id})
            && r.id !in FreshIds(config, batch[..i])
  {
    assert batch[..i + 1] == batch[..i] + [batch[i]];
    assert forall r :: r in batch[..i] ==> r.id < batch[i].id;
  }
}
