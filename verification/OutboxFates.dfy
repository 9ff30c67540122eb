/**
 * What a flush makes of every row it claims, read off the status codes the server answered with: which posts
 * are made, which rows are exported, put off or dead, when the next attempt is due, and what error is kept.
 */
module OutboxFates {
  import opened Base
  import opened Outbox
  import opened Batcher
  import opened OutboxRuns
  import Redact

  /** A row after an answer, status by status. */
  predicate Treated(config: Config, r: Row, after: Row, reply: Reply, now: int) {
    && after.id == r.id && after.event == r.event && after.createdAt == r.createdAt
    && if reply.Answer? && 200 <= reply.status < 300 then
         after.state == Exported && after.attempts == r.attempts && after.nextAttemptAt == r.nextAttemptAt
         && after.lastError == None
       else if reply.Answer? && ClientError(reply.status) then
         after.state == Dead && after.attempts == r.attempts && after.nextAttemptAt == r.nextAttemptAt
         && Tells(after, "poison: " + config.describe(reply))
       else if r.attempts + 1 >= config.maxAttempts then
         after.state == Dead && after.attempts == r.attempts && after.nextAttemptAt == r.nextAttemptAt
         && Tells(after, "max attempts exceeded: " + config.describe(reply))
       else
         after.state == r.state && after.attempts == r.attempts + 1
         && after.nextAttemptAt == now + BackoffMs(config, r.attempts)
         && Tells(after, config.describe(reply))
  }

  /** The row keeps this error, redacted. */
  predicate Tells(r: Row, error: string) {
    r.lastError == Some(Redact.ReplaceEach(Redact.PATTERNS, error))
  }

  lemma AnswerTreats(config: Config, r: Row, reply: Reply, now: int)
    ensures Treated(config, r, Changed(config, r, reply, now), reply, now)
  {
  }

  /** The wait doubles with each attempt until it is the longest. */
  lemma BackoffDoubles(config: Config, attempts: nat)
    ensures BackoffMs(config, attempts) == Min(config.baseBackoffMs * Pow2(attempts), config.maxBackoffMs)
    ensures BackoffMs(config, 0) == Min(config.baseBackoffMs, config.maxBackoffMs)
    ensures BackoffMs(config, attempts + 1) == Min(2 * BackoffMs(config, attempts), config.maxBackoffMs)
  {
    var base, p := config.baseBackoffMs, Pow2(attempts);
    assert Pow2(attempts + 1) == 2 * p;
    assert base * (2 * p) == 2 * (base * p);
  }

  lemma StepsBounded(config: Config, server: Server, turn: nat, batch: seq<Row>)
    ensures Steps(config, server, turn, batch) <= 1 + 2 * |batch|
  {
    FreshBounded(config, batch);
  }

  lemma {:induction false} FreshBounded(config: Config, batch: seq<Row>)
    ensures FreshCount(config, batch) <= |batch|
  {
    if batch != [] {
      FreshBounded(config, batch[..|batch| - 1]);
    }
  }

  /** A flush that lives to its end, from a world any run may have come to. */
  ghost predicate Whole(config: Config, server: Server, w: World, now: int, life: nat, batch: seq<Row>, after: World) {
    && Ordered(w.rows) && batch == NextBatch(config, w.rows, now) && life >= 1 + 2 * |batch|
    && after == Flushing(config, server, w, now, life)
  }

  lemma WholeRows(config: Config, server: Server, w: World, now: int, life: nat, batch: seq<Row>, after: World, i: nat)
    requires Whole(config, server, w, now, life, batch, after) && i < |w.rows|
    ensures |after.rows| == |w.rows|
    ensures after.rows[i] ==
            if w.rows[i] in batch then Settled(config, server, |w.posts|, batch, now, w.rows[i]) else w.rows[i]
  {
    var turn, r := |w.posts|, w.rows[i];
    BatchIs(config, w.rows, now);
    StepsBounded(config, server, turn, batch);
    MadeByEnd(config, server, turn, batch, life);
    assert r in w.rows;
    if r in batch {
      assert r.id in IdSet(batch);
    } else if r.id in IdSet(batch) {
      BatchRow(w.rows, batch, r);
    }
  }

  lemma WholePosts(config: Config, server: Server, w: World, now: int, life: nat, batch: seq<Row>, after: World)
    requires Whole(config, server, w, now, life, batch, after) && batch != []
    ensures after.posts == w.posts + PostsOf(server, |w.posts|, batch)
  {
    StepsBounded(config, server, |w.posts|, batch);
    WholeFlush(config, server, |w.posts|, batch, life);
  }

  /**
   * A batch the server did not refuse for what is in it, or a batch of one row, is one post, and its answer
   * treats every claimed row; the other rows stay as they are.
   */
  lemma AnsweredTogether(config: Config, server: Server, w: World, now: int, life: nat, batch: seq<Row>,
                         after: World, reply: Reply)
    requires Whole(config, server, w, now, life, batch, after) && reply == server(|w.posts|, batch)
    requires batch != [] && (|batch| == 1 || !(reply.Answer? && ClientError(reply.status)))
    ensures after.posts == w.posts + [Post(batch, reply)] && |after.rows| == |w.rows|
    ensures forall i :: 0 <= i < |w.rows| ==>
              if w.rows[i] in batch then Treated(config, w.rows[i], after.rows[i], reply, now)
              else after.rows[i] == w.rows[i]
  {
    WholePosts(config, server, w, now, life, batch, after);
    forall i | 0 <= i < |w.rows|
      ensures if w.rows[i] in batch then Treated(config, w.rows[i], after.rows[i], reply, now)
              else after.rows[i] == w.rows[i]
    {
      WholeRows(config, server, w, now, life, batch, after, i);
      AnswerTreats(config, w.rows[i], reply, now);
    }
  }

  /** A batch of more rows that the server refused for what is in it is posted again row by row, in order. */
  lemma RefusedIsSplit(config: Config, server: Server, w: World, now: int, life: nat, batch: seq<Row>,
                       after: World, reply: Reply)
    requires Whole(config, server, w, now, life, batch, after) && reply == server(|w.posts|, batch)
    requires |batch| > 1 && reply.Answer? && ClientError(reply.status)
    ensures after.posts == w.posts + [Post(batch, reply)] + Resent(server, |w.posts| + 1, batch)
    ensures |after.rows| == |w.rows|
    ensures forall i :: 0 <= i < |w.rows| && w.rows[i] !in batch ==> after.rows[i] == w.rows[i]
  {
    var turn := |w.posts|;
    WholePosts(config, server, w, now, life, batch, after);
    SplitPosts(server, turn, batch, reply);
    Assoc(w.posts, [Post(batch, reply)], Resent(server, turn + 1, batch));
    forall i | 0 <= i < |w.rows|
      ensures w.rows[i] !in batch ==> after.rows[i] == w.rows[i]
    {
      WholeRows(config, server, w, now, life, batch, after, i);
    }
  }

  lemma ClaimedIsSettled(config: Config, server: Server, w: World, now: int, life: nat, batch: seq<Row>,
                         after: World, i: nat, r: Row)
    requires Whole(config, server, w, now, life, batch, after) && i < |w.rows| && w.rows[i] == r && r in batch
    ensures Ordered(batch) && |after.rows| == |w.rows|
    ensures after.rows[i] == Settled(config, server, |w.posts|, batch, now, r)
  {
    BatchIs(config, w.rows, now);
    WholeRows(config, server, w, now, life, batch, after, i);
  }

  /** Each row of such a batch is treated by the answer to its own post. */
  lemma AnsweredAlone(config: Config, server: Server, w: World, now: int, life: nat, batch: seq<Row>,
                      after: World, i: nat, k: nat, r: Row, own: Reply)
    requires Whole(config, server, w, now, life, batch, after)
    requires |batch| > 1 && server(|w.posts|, batch).Answer? && ClientError(server(|w.posts|, batch).status)
    requires i < |w.rows| && k < |batch| && w.rows[i] == batch[k] == r && own == server(|w.posts| + 1 + k, [r])
    ensures |after.rows| == |w.rows| && Treated(config, r, after.rows[i], own, now)
  {
    ClaimedIsSettled(config, server, w, now, life, batch, after, i, r);
    var row := after.rows[i];
    assert Treated(config, r, row, own, now) by {
      SplitTreats(config, server, |w.posts|, batch, now, k, r, own, row);
    }
  }

  /** Every row of a batch by itself, with the server's reply to each. */
  function Resent(server: Server, from: nat, batch: seq<Row>): seq<Post>
    decreases batch
  {
    if batch == [] then []
    else [Post([batch[0]], server(from, [batch[0]]))] + Resent(server, from + 1, batch[1..])
  }

  lemma {:induction false} ResentIs(server: Server, turn: nat, batch: seq<Row>, k: nat)
    requires k <= |batch|
    ensures seq(|batch| - k, i requires 0 <= i < |batch| - k =>
                  Post([batch[k + i]], server(turn + k + i, [batch[k + i]]))) == Resent(server, turn + k, batch[k..])
    decreases |batch| - k
  {
    if k < |batch| {
      ResentIs(server, turn, batch, k + 1);
      assert batch[k..][1..] == batch[k + 1..];
    }
  }

  lemma SplitPosts(server: Server, turn: nat, batch: seq<Row>, reply: Reply)
    requires reply == server(turn, batch) && |batch| > 1 && reply.Answer? && ClientError(reply.status)
    ensures PostsOf(server, turn, batch) == [Post(batch, reply)] + Resent(server, turn + 1, batch)
  {
    ResentIs(server, turn + 1, batch, 0);
    assert batch[0..] == batch;
  }

  lemma SplitTreats(config: Config, server: Server, turn: nat, batch: seq<Row>, now: int, k: nat, r: Row,
                    own: Reply, after: Row)
    requires Ordered(batch) && k < |batch| && |batch| > 1 && batch[k] == r && own == server(turn + 1 + k, [r])
    requires server(turn, batch).Answer? && ClientError(server(turn, batch).status)
    requires after == Settled(config, server, turn, batch, now, r)
    ensures Treated(config, r, after, own, now)
  {
    PlaceIs(batch, k);
    assert Deciding(server, turn, batch, r) == own;
    AnswerTreats(config, r, own, now);
  }

  /** The rows a flush does not claim stay as they are, however long it lives. */
  lemma OthersStay(config: Config, server: Server, w: World, now: int, life: nat, i: nat)
    requires Ordered(w.rows) && i < |w.rows| && w.rows[i] !in NextBatch(config, w.rows, now)
    ensures Flushing(config, server, w, now, life).rows[i] == w.rows[i]
  {
    var turn, batch, r := |w.posts|, NextBatch(config, w.rows, now), w.rows[i];
    BatchIs(config, w.rows, now);
    MadeByEnd(config, server, turn, batch, life);
    if r.id in IdSet(batch) {
      BatchRow(w.rows, batch, r);
    }
  }

  /** In some post from `from` on, this row alone was refused for what is in it. */
  ghost predicate RefusedAlone(server: Server, posts: seq<Post>, from: nat, r: Row) {
    exists n :: from <= n < |posts| && posts[n] == Post([r], server(n, [r]))
                && server(n, [r]).Answer? && ClientError(server(n, [r]).status)
  }

  /** In some post from `from` on, this row was among rows the server took. */
  ghost predicate TakenIn(posts: seq<Post>, from: nat, r: Row) {
    exists n :: from <= n < |posts| && r in posts[n].rows
                && posts[n].reply.Answer? && 200 <= posts[n].reply.status < 300
  }

  /** The `n`-th post of a flush holds the row and its reply decides the row's fate. */
  predicate DecidesAt(server: Server, turn: nat, batch: seq<Row>, life: nat, k: nat, n: nat)
    requires k < |batch| && n < |PostsBy(server, turn, batch, life)|
  {
    var p := PostsBy(server, turn, batch, life)[n];
    && p.reply == Deciding(server, turn, batch, batch[k]) == server(turn + n, p.rows) && batch[k] in p.rows
    && (p.reply.Answer? && ClientError(p.reply.status) ==> p.rows == [batch[k]])
  }

  lemma DecidedInPost(config: Config, server: Server, turn: nat, batch: seq<Row>, life: nat, k: nat) returns (n: nat)
    requires Ordered(batch) && k < |batch| && batch[k].id in DoneBy(config, server, turn, batch, life)
    ensures n < |PostsBy(server, turn, batch, life)| && DecidesAt(server, turn, batch, life, k, n)
  {
    if Splits(server, turn, batch) {
      n := 1 + k;
      WithinPrefix(batch, Min(|batch|, (life - 1) / 2), k);
      PlaceIs(batch, k);
      OwnPlace(server, turn, batch, Min(|batch|, life / 2), k, PostsBy(server, turn, batch, life));
    } else {
      n := 0;
      assert Rejected(server(turn, batch)) ==> batch == [batch[k]];
    }
  }

  lemma MadeAfter(posts: seq<Post>, made: seq<Post>, all: seq<Post>, n: nat, r: Row)
    requires all == posts + made && n < |made| && r in made[n].rows
    ensures |posts| + n < |all| && all[|posts| + n] == made[n] && r in all[|posts| + n].rows
  {
  }

  /**
   * A row that a flush has changed, however soon it died, was pending and due. It is dead with attempts left
   * only because it was refused alone, exported only because it was in a post the server took, and otherwise
   * it has one more attempt and is due later.
   */
  lemma ChangedByAnswer(config: Config, server: Server, w: World, now: int, life: nat, after: World, i: nat)
    requires Ordered(w.rows) && after == Flushing(config, server, w, now, life) && i < |w.rows|
    requires after.rows[i] != w.rows[i]
    ensures w.rows[i].state == Pending && w.rows[i].nextAttemptAt <= now
    ensures after.rows[i].state == Dead && w.rows[i].attempts + 1 < config.maxAttempts ==>
              RefusedAlone(server, after.posts, |w.posts|, w.rows[i])
    ensures after.rows[i].state == Exported ==> TakenIn(after.posts, |w.posts|, w.rows[i])
    ensures after.rows[i].state == Pending ==>
              after.rows[i].attempts == w.rows[i].attempts + 1 < config.maxAttempts
              && after.rows[i].nextAttemptAt >= now
  {
    var turn, batch, r := |w.posts|, NextBatch(config, w.rows, now), w.rows[i];
    if r !in batch {
      OthersStay(config, server, w, now, life, i);
    } else {
      ClaimIsDue(w.rows, now, config.batchSize);
      var k :| 0 <= k < |batch| && batch[k] == r;
      RowAnswered(config, server, turn, batch, now, life, k, w.posts);
    }
  }

  /** What the answer in one of its posts makes of a row of the batch. */
  lemma RowAnswered(config: Config, server: Server, turn: nat, batch: seq<Row>, now: int, life: nat, k: nat,
                    posts: seq<Post>)
    requires Ordered(batch) && k < |batch| && turn == |posts|
    requires batch[k].id in DoneBy(config, server, turn, batch, life)
    ensures var r, after := batch[k], Settled(config, server, turn, batch, now, batch[k]);
            var all := posts + PostsBy(server, turn, batch, life);
            && (after.state == Dead && r.state == Pending && r.attempts + 1 < config.maxAttempts ==>
                  RefusedAlone(server, all, turn, r))
            && (after.state == Exported && r.state == Pending ==> TakenIn(all, turn, r))
            && (after.state == Pending ==>
                  after.attempts == r.attempts + 1 < config.maxAttempts && after.nextAttemptAt >= now)
  {
    var r, made := batch[k], PostsBy(server, turn, batch, life);
    var n := DecidedInPost(config, server, turn, batch, life, k);
    AnswerTreats(config, r, Deciding(server, turn, batch, r), now);
    MadeAfter(posts, made, posts + made, n, r);
  }

  /** How many of some claimed rows a whole flush leaves in this state. */
  function Landed(config: Config, server: Server, turn: nat, batch: seq<Row>, now: int, some: seq<Row>,
                  state: RowState): nat {
    if some == [] then 0
    else
      var n := |some| - 1;
      Landed(config, server, turn, batch, now, some[..n], state)
      + if Settled(config, server, turn, batch, now, some[n]).state == state then 1 else 0
  }

  /** The counters of a flush say how many rows are exported, still pending and dead after it. */
  lemma {:induction false} CountersMean(config: Config, server: Server, turn: nat, batch: seq<Row>, now: int,
                                        some: seq<Row>)
    requires forall r :: r in some ==> r.state == Pending
    ensures var t := Tally(config, server, turn, batch, some);
            && t.exported == Landed(config, server, turn, batch, now, some, Exported)
            && t.retried == Landed(config, server, turn, batch, now, some, Pending)
            && t.dead == Landed(config, server, turn, batch, now, some, Dead)
  {
    if some != [] {
      var n := |some| - 1;
      assert some[n] in some;
      CountersMean(config, server, turn, batch, now, some[..n]);
      AnswerTreats(config, some[n], Deciding(server, turn, batch, some[n]), now);
    }
  }
}
