/** The outbox and its exporter over whole runs, with the process dying at any step. */
module OutboxRuns {
  import opened Base
  import opened Outbox
  import opened Batcher
  import Redact

  /** How often a row may be claimed by a flush that lives to its end. */
  function ClaimLimit(config: Config): int {
    if config.maxAttempts > 1 then config.maxAttempts else 1
  }

  /**
   * What a run has come to: the table, the posts made, the events ever enqueued, and for each flush that
   * lived to its end the ids it had claimed.
   */
  datatype World = World(rows: seq<Row>, posts: seq<Post>, events: seq<string>, claims: seq<set<nat>>)

  const NEW_WORLD := World([], [], [], [])

  /** One operation; a flush lives for so many steps, then the process dies and is started again. */
  datatype Op = Enqueue(event: string, now: int) | Flush(now: int, lifetime: nat) | Purge(before: int)

  /** The table after a flush of a batch that lives so many steps. */
  function FlushedRows(config: Config, server: Server, turn: nat, batch: seq<Row>, now: int, life: nat, was: seq<Row>)
    : (rows: seq<Row>)
    ensures |rows| == |was|
  {
    var done := DoneBy(config, server, turn, batch, life);
    seq(|was|, i requires 0 <= i < |was| =>
      if was[i].id in done then Settled(config, server, turn, batch, now, was[i]) else was[i])
  }

  function Flushing(config: Config, server: Server, w: World, now: int, life: nat): World {
    var turn, batch := |w.posts|, NextBatch(config, w.rows, now);
    w.(rows := FlushedRows(config, server, turn, batch, now, life, w.rows),
       posts := w.posts + PostsBy(server, turn, batch, life),
       claims := if life >= Steps(config, server, turn, batch) then w.claims + [IdSet(batch)] else w.claims)
  }

  /** What an operation makes of the world. */
  function After(config: Config, server: Server, w: World, op: Op): World {
    match op
    case Enqueue(event, now) =>
      w.(rows := w.rows + [Row(|w.events| + 1, event, Pending, 0, 0, now, None)], events := w.events + [event])
    case Flush(now, life) => Flushing(config, server, w, now, life)
    case Purge(before) => w.(rows := Kept(w.rows, before))
  }

  /** A whole run. */
  function Replay(config: Config, server: Server, ops: seq<Op>): World {
    if ops == [] then NEW_WORLD
    else After(config, server, Replay(config, server, ops[..|ops| - 1]), ops[|ops| - 1])
  }

  /** The events a run enqueues, in order. */
  function Enqueued(ops: seq<Op>): seq<string> {
    if ops == [] then []
    else Enqueued(ops[..|ops| - 1]) + if ops[|ops| - 1].Enqueue? then [ops[|ops| - 1].event] else []
  }

  /** How many completed flushes claimed this id. */
  function ClaimsOf(claims: seq<set<nat>>, id: nat): nat {
    if claims == [] then 0
    else ClaimsOf(claims[..|claims| - 1], id) + if id in claims[|claims| - 1] then 1 else 0
  }

  // ----- What every run keeps -----

  /** The row of the event enqueued under its id. */
  predicate Genuine(r: Row, events: seq<string>) {
    0 < r.id <= |events| && r.event == events[r.id - 1]
  }

  ghost predicate RowSound(config: Config, r: Row, w: World) {
    && Genuine(r, w.events)
    && (r.state == Exported ==> StoredIn(w.posts, r.id))
    && (r.state == Pending ==>
          ClaimsOf(w.claims, r.id) <= r.attempts && (r.attempts == 0 || r.attempts < config.maxAttempts))
    && (r.lastError.Some? ==> Redact.Clean(r.lastError.value))
  }

  /** A post is what the server made of it, and holds rows of events that were enqueued. */
  ghost predicate PostSound(server: Server, n: nat, p: Post, events: seq<string>) {
    && p.reply == server(n, p.rows)
    && forall r :: r in p.rows ==> Genuine(r, events)
  }

  ghost predicate PostsSound(server: Server, posts: seq<Post>, events: seq<string>) {
    forall n :: 0 <= n < |posts| ==> PostSound(server, n, posts[n], events)
  }

  /**
   * No event is lost: its row is in the table with its payload, or was deleted after the server stored it.
   * An exported row was stored. No row is claimed too often. No stored error holds a credential.
   */
  ghost predicate Sound(config: Config, server: Server, w: World) {
    && Ordered(w.rows)
    && (forall r :: r in w.rows ==> RowSound(config, r, w))
    && (forall id :: 0 < id <= |w.events| ==> id in IdSet(w.rows) || StoredIn(w.posts, id))
    && (forall id :: ClaimsOf(w.claims, id) <= ClaimLimit(config))
    && (forall id :: id > |w.events| ==> ClaimsOf(w.claims, id) == 0)
    && PostsSound(server, w.posts, w.events)
  }

  lemma ClaimedAgain(claims: seq<set<nat>>, ids: set<nat>, id: nat)
    ensures ClaimsOf(claims + [ids], id) == ClaimsOf(claims, id) + if id in ids then 1 else 0
  {
    assert (claims + [ids])[..|claims|] == claims;
  }

  lemma SettledSound(config: Config, server: Server, turn: nat, batch: seq<Row>, now: int, r: Row, w: World,
                     after: World)
    requires RowSound(config, r, w) && r.state == Pending && after.events == w.events
    requires Success(Deciding(server, turn, batch, r)) ==> StoredIn(after.posts, r.id)
    requires ClaimsOf(after.claims, r.id) <= ClaimsOf(w.claims, r.id) + 1
    ensures RowSound(config, Settled(config, server, turn, batch, now, r), after)
  {
    var error := config.describe(Deciding(server, turn, batch, r));
    Redact.RedactedIsClean(error);
    Redact.RedactedIsClean("max attempts exceeded: " + error);
    Redact.RedactedIsClean("poison: " + error);
  }

  lemma StillSound(config: Config, r: Row, w: World, after: World)
    requires RowSound(config, r, w) && w.posts <= after.posts && w.events <= after.events
    requires r.state == Pending ==> ClaimsOf(after.claims, r.id) == ClaimsOf(w.claims, r.id)
    ensures RowSound(config, r, after)
  {
    if r.state == Exported {
      StillStored(w.posts, after.posts, r.id);
    }
  }

  /** The batch of a flush is a part of the table, pending and due. */
  lemma BatchIs(config: Config, rows: seq<Row>, now: int)
    requires Ordered(rows)
    ensures var batch := NextBatch(config, rows, now);
            Selected(batch, rows) && IdSet(batch) <= IdSet(rows) && forall r :: r in batch ==> r.state == Pending
  {
    ClaimIsDue(rows, now, config.batchSize);
  }

  lemma MadeByEnd(config: Config, server: Server, turn: nat, batch: seq<Row>, life: nat)
    ensures DoneBy(config, server, turn, batch, life) <= IdSet(batch)
    ensures life >= Steps(config, server, turn, batch) ==> IdSet(batch) <= DoneBy(config, server, turn, batch, life)
  {
    var n := Min(|batch|, if life > 0 then (life - 1) / 2 else 0);
    assert forall r :: r in batch[..n] ==> r in batch;
    assert forall k :: 0 <= k < |batch| ==> batch[k] in batch;
    if batch != [] && life >= Steps(config, server, turn, batch) {
      WholeFlush(config, server, turn, batch, life);
    }
  }

  /** A row of the table after a flush, in terms of the row before it. */
  lemma FlushKeepsRow(config: Config, server: Server, w: World, now: int, life: nat, r: Row, after: World)
    requires Sound(config, server, w) && r in w.rows && after == Flushing(config, server, w, now, life)
    ensures var turn, batch := |w.posts|, NextBatch(config, w.rows, now);
            RowSound(config, if r.id in DoneBy(config, server, turn, batch, life)
                             then Settled(config, server, turn, batch, now, r) else r, after)
  {
    var turn, batch := |w.posts|, NextBatch(config, w.rows, now);
    BatchIs(config, w.rows, now);
    MadeByEnd(config, server, turn, batch, life);
    ClaimedAgain(w.claims, IdSet(batch), r.id);
    if r.id in DoneBy(config, server, turn, batch, life) {
      BatchRow(w.rows, batch, r);
      Evident(config, server, turn, batch, life);
      if Success(Deciding(server, turn, batch, r)) {
        StoredAfter(w.posts, PostsBy(server, turn, batch, life), r.id);
      }
      SettledSound(config, server, turn, batch, now, r, w, after);
    } else {
      StillSound(config, r, w, after);
    }
  }

  lemma BatchRow(rows: seq<Row>, batch: seq<Row>, r: Row)
    requires Ordered(rows) && Selected(batch, rows) && r in rows && r.id in IdSet(batch)
    ensures r in batch
  {
    var q :| q in batch && q.id == r.id;
    var i :| 0 <= i < |rows| && rows[i] == q;
    SameRow(rows, r, i);
  }

  lemma StoredAfter(posts: seq<Post>, more: seq<Post>, id: nat)
    requires StoredIn(more, id)
    ensures StoredIn(posts + more, id)
  {
    var p :| p in more && Stored(p) && id in Ids(p.rows);
    assert p in posts + more;
  }

  lemma FlushedIds(config: Config, server: Server, turn: nat, batch: seq<Row>, now: int, life: nat, was: seq<Row>)
    ensures var rows := FlushedRows(config, server, turn, batch, now, life, was);
            IdSet(rows) == IdSet(was) && (Ordered(was) ==> Ordered(rows))
  {
    var rows := FlushedRows(config, server, turn, batch, now, life, was);
    assert forall i :: 0 <= i < |was| ==> rows[i].id == was[i].id && rows[i] in rows && was[i] in was;
  }

  /** A claim too many would have been made of a row out of attempts. */
  lemma ClaimsBounded(config: Config, server: Server, w: World, now: int, life: nat, after: World, id: nat)
    requires Sound(config, server, w) && after == Flushing(config, server, w, now, life)
    ensures ClaimsOf(after.claims, id) <= ClaimLimit(config)
    ensures id > |w.events| ==> ClaimsOf(after.claims, id) == 0
  {
    var batch := NextBatch(config, w.rows, now);
    BatchIs(config, w.rows, now);
    ClaimedAgain(w.claims, IdSet(batch), id);
    if id in IdSet(batch) {
      var r :| r in batch && r.id == id;
      assert RowSound(config, r, w);
    }
  }

  lemma PostsKeep(server: Server, posts: seq<Post>, batch: seq<Row>, life: nat, events: seq<string>)
    requires PostsSound(server, posts, events) && forall r :: r in batch ==> Genuine(r, events)
    ensures PostsSound(server, posts + PostsBy(server, |posts|, batch, life), events)
  {
    var made := PostsBy(server, |posts|, batch, life);
    forall n | 0 <= n < |posts + made|
      ensures PostSound(server, n, (posts + made)[n], events)
    {
      if n >= |posts| {
        var i := n - |posts|;
        assert (posts + made)[n] == made[i];
        assert i > 0 ==> made[i] == Post([batch[i - 1]], server(n, [batch[i - 1]])) && batch[i - 1] in batch;
      }
    }
  }

  lemma FlushKeeps(config: Config, server: Server, w: World, now: int, life: nat)
    requires Sound(config, server, w)
    ensures Sound(config, server, Flushing(config, server, w, now, life))
  {
    var turn, batch, after := |w.posts|, NextBatch(config, w.rows, now), Flushing(config, server, w, now, life);
    FlushedIds(config, server, turn, batch, now, life, w.rows);
    BatchIs(config, w.rows, now);
    forall r | r in after.rows
      ensures RowSound(config, r, after)
    {
      var i :| 0 <= i < |after.rows| && after.rows[i] == r;
      FlushKeepsRow(config, server, w, now, life, w.rows[i], after);
    }
    forall id: nat
      ensures ClaimsOf(after.claims, id) <= ClaimLimit(config)
      ensures id > |w.events| ==> ClaimsOf(after.claims, id) == 0
    {
      ClaimsBounded(config, server, w, now, life, after, id);
    }
    AllStored(w.rows, w.posts, after.rows, after.posts, |w.events|);
    assert forall r :: r in batch ==> RowSound(config, r, w);
    PostsKeep(server, w.posts, batch, life, w.events);
  }

  lemma AllStored(rows: seq<Row>, posts: seq<Post>, rows': seq<Row>, posts': seq<Post>, n: nat)
    requires forall id :: 0 < id <= n ==> id in IdSet(rows) || StoredIn(posts, id)
    requires IdSet(rows) == IdSet(rows') && posts <= posts'
    ensures forall id :: 0 < id <= n ==> id in IdSet(rows') || StoredIn(posts', id)
  {
    forall id | 0 < id <= n && id !in IdSet(rows')
      ensures StoredIn(posts', id)
    {
      StillStored(posts, posts', id);
    }
  }

  lemma PostsStay(server: Server, posts: seq<Post>, events: seq<string>, event: string)
    requires PostsSound(server, posts, events)
    ensures PostsSound(server, posts, events + [event])
  {
    forall n | 0 <= n < |posts|
      ensures PostSound(server, n, posts[n], events + [event])
    {
      assert PostSound(server, n, posts[n], events);
    }
  }

  lemma EnqueueKeeps(config: Config, server: Server, w: World, event: string, now: int)
    requires Sound(config, server, w)
    ensures Sound(config, server, After(config, server, w, Enqueue(event, now)))
  {
    var r := Row(|w.events| + 1, event, Pending, 0, 0, now, None);
    var after := After(config, server, w, Enqueue(event, now));
    assert IdSet(after.rows) == IdSet(w.rows) + {r.id} by {
      assert forall q :: q in after.rows <==> q in w.rows || q == r;
    }
    forall q | q in after.rows
      ensures RowSound(config, q, after)
    {
      if q in w.rows {
        StillSound(config, q, w, after);
      }
    }
    assert forall q :: q in w.rows ==> RowSound(config, q, w) && q.id < r.id;
    PostsStay(server, w.posts, w.events, event);
  }

  lemma PurgeKeeps(config: Config, server: Server, w: World, before: int)
    requires Sound(config, server, w)
    ensures Sound(config, server, After(config, server, w, Purge(before)))
  {
    KeptSelected(w.rows, before);
    var after := After(config, server, w, Purge(before));
    forall id | 0 < id <= |w.events| && id !in IdSet(after.rows)
      ensures StoredIn(w.posts, id)
    {
      if id in IdSet(w.rows) {
        var r :| r in w.rows && r.id == id;
        assert r !in after.rows && RowSound(config, r, w);
      }
    }
    forall r | r in after.rows
      ensures RowSound(config, r, after)
    {
      assert RowSound(config, r, w);
    }
  }

  /** Every run is sound, wherever its flushes die. */
  lemma {:induction false} EveryRunSound(config: Config, server: Server, ops: seq<Op>)
    ensures Sound(config, server, Replay(config, server, ops))
    ensures Replay(config, server, ops).events == Enqueued(ops)
    decreases ops
  {
    if ops != [] {
      var w := Replay(config, server, ops[..|ops| - 1]);
      EveryRunSound(config, server, ops[..|ops| - 1]);
      match ops[|ops| - 1] {
        case Enqueue(event, now) => EnqueueKeeps(config, server, w, event, now);
        case Flush(now, life) => FlushKeeps(config, server, w, now, life);
        case Purge(before) => PurgeKeeps(config, server, w, before);
      }
      assert w.events + [] == w.events;
    }
  }

  /**
   * The `k`-th event enqueued is, after any run, still in the table and not exported, or it was in a post
   * the server was sent and stored. No more flushes than the limit lived to their end with it in their claim.
   */
  lemma NothingLost(config: Config, server: Server, ops: seq<Op>, k: nat)
    requires k < |Enqueued(ops)|
    ensures var w := Replay(config, server, ops);
            InTable(w.rows, k + 1, Enqueued(ops)[k]) || StoredIn(w.posts, k + 1)
    ensures ClaimsOf(Replay(config, server, ops).claims, k + 1) <= ClaimLimit(config)
  {
    EveryRunSound(config, server, ops);
    SoundKeeps(config, server, Replay(config, server, ops), k);
  }

  /** A row of the event is in the table, not exported. */
  ghost predicate InTable(rows: seq<Row>, id: nat, event: string) {
    exists r :: r in rows && r.id == id && r.event == event && r.state != Exported
  }

  lemma SoundKeeps(config: Config, server: Server, w: World, k: nat)
    requires Sound(config, server, w) && k < |w.events|
    ensures InTable(w.rows, k + 1, w.events[k]) || StoredIn(w.posts, k + 1)
  {
    if k + 1 in IdSet(w.rows) {
      var r :| r in w.rows && r.id == k + 1;
      assert RowSound(config, r, w);
    }
  }

  /** The server was sent this event in some post, and what it answered means that it was stored. */
  ghost predicate AnsweredStored(server: Server, posts: seq<Post>, event: string) {
    exists n, i :: 0 <= n < |posts| && 0 <= i < |posts[n].rows| && StoredRow(server, posts, n, i, event)
  }

  predicate StoredRow(server: Server, posts: seq<Post>, n: nat, i: nat, event: string)
    requires n < |posts| && i < |posts[n].rows|
  {
    Stored(Post(posts[n].rows, server(n, posts[n].rows))) && posts[n].rows[i].event == event
  }

  /** A post a run says was stored was so answered by the server, for the events that were enqueued. */
  lemma StoredMeansSent(config: Config, server: Server, ops: seq<Op>, k: nat)
    requires k < |Enqueued(ops)| && StoredIn(Replay(config, server, ops).posts, k + 1)
    ensures AnsweredStored(server, Replay(config, server, ops).posts, Enqueued(ops)[k])
  {
    EveryRunSound(config, server, ops);
    PostsMeanSent(server, Replay(config, server, ops).posts, Enqueued(ops), k);
  }

  lemma PostsMeanSent(server: Server, posts: seq<Post>, events: seq<string>, k: nat)
    requires PostsSound(server, posts, events) && k < |events| && StoredIn(posts, k + 1)
    ensures AnsweredStored(server, posts, events[k])
  {
    var p :| p in posts && Stored(p) && k + 1 in Ids(p.rows);
    var n :| 0 <= n < |posts| && posts[n] == p;
    var i :| 0 <= i < |p.rows| && Ids(p.rows)[i] == k + 1;
    assert PostSound(server, n, posts[n], events) && p.rows[i] in p.rows;
    assert StoredRow(server, posts, n, i, events[k]);
  }

  // ----- The objects do what the run says -----

  /** The table and the exporter are where the run has come to. */
  ghost predicate At(w: World, outbox: TokemetryOutbox, batcher: TokemetryBatcher)
    reads outbox, batcher
  {
    && outbox.Valid() && batcher.outbox == outbox
    && outbox.rows == w.rows && outbox.nextId == |w.events| + 1 && batcher.posts == w.posts
  }

  method Perform(outbox: TokemetryOutbox, batcher: TokemetryBatcher, op: Op, ghost w: World)
    requires At(w, outbox, batcher) && Sound(batcher.config, batcher.server, w)
    modifies outbox, batcher
    ensures At(After(batcher.config, batcher.server, w, op), outbox, batcher)
  {
    match op {
      case Enqueue(event, now) =>
        var _ := outbox.Enqueue(event, now);
      case Flush(now, lifetime) =>
        ghost var turn, batch := |w.posts|, NextBatch(batcher.config, w.rows, now);
        FlushedIds(batcher.config, batcher.server, turn, batch, now, lifetime, w.rows);
        batcher.left := lifetime;
        var alive, result := batcher.FlushOnce(now);
        assert outbox.rows == FlushedRows(batcher.config, batcher.server, turn, batch, now, lifetime, w.rows);
        SmallIds(w.rows, outbox.rows, outbox.nextId);
      case Purge(before) =>
        outbox.PurgeExported(before);
    }
  }

  lemma SmallIds(rows: seq<Row>, rows': seq<Row>, nextId: nat)
    requires IdSet(rows) == IdSet(rows') && forall r :: r in rows ==> 0 < r.id < nextId
    ensures forall r :: r in rows' ==> 0 < r.id < nextId
  {
    forall r | r in rows'
      ensures 0 < r.id < nextId
    {
      assert r.id in IdSet(rows');
    }
  }

  /** Any run at all of enqueues, purges and flushes, each flush dying where it may. */
  method RunAll(config: Config, server: Server, ops: seq<Op>)
    returns (outbox: TokemetryOutbox, batcher: TokemetryBatcher)
    ensures batcher.config == config && batcher.server == server
    ensures At(Replay(config, server, ops), outbox, batcher) && Sound(config, server, Replay(config, server, ops))
  {
    outbox := new TokemetryOutbox();
    batcher := new TokemetryBatcher(outbox, config, server, 0);
    for i := 0 to |ops|
      invariant fresh(outbox) && fresh(batcher) && batcher.config == config && batcher.server == server
      invariant At(Replay(config, server, ops[..i]), outbox, batcher)
    {
      assert ops[..i + 1][..i] == ops[..i];
      EveryRunSound(config, server, ops[..i]);
      Perform(outbox, batcher, ops[i], Replay(config, server, ops[..i]));
    }
    assert ops[..|ops|] == ops;
    EveryRunSound(config, server, ops);
  }

  // ----- A server that stores a batch whole or refuses it for its poison -----

  /** A client error other than the four that say nothing of what was sent. */
  predicate ClientError(status: int) {
    400 <= status < 500 && status != 401 && status != 403 && status != 408 && status != 429
  }

  ghost predicate AllOrNothing(server: Server, poison: string -> bool) {
    forall n: nat, rows: seq<Row> ::
      && server(n, rows).Answer?
      && if exists r :: r in rows && poison(r.event) then ClientError(server(n, rows).status)
         else 200 <= server(n, rows).status < 300
  }

  /** How many stored posts hold a row. */
  function StoredCount(posts: seq<Post>, id: nat): nat {
    if posts == [] then 0
    else StoredCount(posts[..|posts| - 1], id)
         + if Stored(posts[|posts| - 1]) && id in Ids(posts[|posts| - 1].rows) then 1 else 0
  }

  lemma StoredAgain(posts: seq<Post>, p: Post, id: nat)
    ensures StoredCount(posts + [p], id) == StoredCount(posts, id) + if Stored(p) && id in Ids(p.rows) then 1 else 0
  {
    assert (posts + [p])[..|posts|] == posts;
  }

  lemma OneAlone(server: Server, poison: string -> bool, n: nat, r: Row)
    requires AllOrNothing(server, poison)
    ensures if poison(r.event) then Rejected(server(n, [r])) else Success(server(n, [r]))
  {
    assert r in [r];
  }

  lemma {:induction false} AloneStored(server: Server, poison: string -> bool, turn: nat, batch: seq<Row>, n: nat,
                                       k: nat)
    requires AllOrNothing(server, poison) && Ordered(batch) && k < |batch| && n <= |batch|
    ensures StoredCount(Alone(server, turn, batch, n), batch[k].id) == if k < n && !poison(batch[k].event) then 1 else 0
    decreases n
  {
    if n > 0 {
      AloneStored(server, poison, turn, batch, n - 1, k);
      var one := [batch[n - 1]];
      var p := Post(one, server(turn + 1 + (n - 1), one));
      AloneGrows(server, turn, batch, n, p);
      StoredAgain(Alone(server, turn, batch, n - 1), p, batch[k].id);
      OwnPost(server, poison, turn, batch, n - 1, k, p);
    }
  }

  lemma AloneGrows(server: Server, turn: nat, batch: seq<Row>, n: nat, p: Post)
    requires 0 < n <= |batch| && p == Post([batch[n - 1]], server(turn + 1 + (n - 1), [batch[n - 1]]))
    ensures Alone(server, turn, batch, n) == Alone(server, turn, batch, n - 1) + [p]
  {
  }

  /** The post of one row of a split batch holds that row alone, and is stored if the row is healthy. */
  lemma OwnPost(server: Server, poison: string -> bool, turn: nat, batch: seq<Row>, i: nat, k: nat, p: Post)
    requires AllOrNothing(server, poison) && Ordered(batch) && i < |batch| && k < |batch|
    requires p == Post([batch[i]], server(turn + 1 + i, [batch[i]]))
    ensures Stored(p) && batch[k].id in Ids(p.rows) <==> i == k && !poison(batch[k].event)
  {
    OneAlone(server, poison, turn + 1 + i, batch[i]);
    assert Ids(p.rows) == [batch[i].id];
    if batch[k].id == batch[i].id {
      SamePlace(batch, k, i);
    }
  }

  lemma {:induction false} StoredConcat(a: seq<Post>, b: seq<Post>, id: nat)
    ensures StoredCount(a + b, id) == StoredCount(a, id) + StoredCount(b, id)
    decreases b
  {
    if b == [] {
      assert a + b == a;
    } else {
      var n := |b| - 1;
      StoredConcat(a, b[..n], id);
      assert b == b[..n] + [b[n]];
      Assoc(a, b[..n], [b[n]]);
      StoredAgain(a + b[..n], b[n], id);
      StoredAgain(b[..n], b[n], id);
    }
  }

  lemma StoredOnce(p: Post, id: nat)
    ensures StoredCount([p], id) == if Stored(p) && id in Ids(p.rows) then 1 else 0
  {
    StoredAgain([], p, id);
    assert [] + [p] == [p];
  }

  lemma SplitIsolates(config: Config, server: Server, poison: string -> bool, turn: nat, batch: seq<Row>, now: int,
                      k: nat)
    requires AllOrNothing(server, poison) && Ordered(batch) && k < |batch| && Splits(server, turn, batch)
    ensures Settled(config, server, turn, batch, now, batch[k]).state ==
            if poison(batch[k].event) then Dead else Exported
    ensures StoredCount(PostsOf(server, turn, batch), batch[k].id) == if poison(batch[k].event) then 0 else 1
  {
    PlaceIs(batch, k);
    OneAlone(server, poison, turn + 1 + k, batch[k]);
    AloneStored(server, poison, turn, batch, |batch|, k);
    StoredConcat([Post(batch, server(turn, batch))], Alone(server, turn, batch, |batch|), batch[k].id);
    StoredOnce(Post(batch, server(turn, batch)), batch[k].id);
    assert PostsOf(server, turn, batch) == [Post(batch, server(turn, batch))] + Alone(server, turn, batch, |batch|);
  }

  /**
   * Against such a server, one flush that lives to its end dead-letters exactly the poison among the rows
   * it claimed and exports the rest, and the server stores each healthy row exactly once.
   */
  lemma PoisonIsIsolated(config: Config, server: Server, poison: string -> bool, turn: nat, batch: seq<Row>, now: int,
                         k: nat)
    requires AllOrNothing(server, poison) && Ordered(batch) && k < |batch|
    ensures Settled(config, server, turn, batch, now, batch[k]).state ==
            if poison(batch[k].event) then Dead else Exported
    ensures StoredCount(PostsOf(server, turn, batch), batch[k].id) == if poison(batch[k].event) then 0 else 1
  {
    if Splits(server, turn, batch) {
      SplitIsolates(config, server, poison, turn, batch, now, k);
    } else {
      WholeIsolates(server, poison, turn, batch, k);
      StoredOnce(Post(batch, server(turn, batch)), batch[k].id);
      assert PostsOf(server, turn, batch) == [Post(batch, server(turn, batch))];
    }
  }

  /** A batch that is not split is all poison, being one row, or all healthy. */
  lemma WholeIsolates(server: Server, poison: string -> bool, turn: nat, batch: seq<Row>, k: nat)
    requires AllOrNothing(server, poison) && k < |batch| && !Splits(server, turn, batch)
    ensures if poison(batch[k].event) then Rejected(server(turn, batch)) else Success(server(turn, batch))
    ensures batch[k].id in Ids(batch)
  {
    assert Ids(batch)[k] == batch[k].id && batch[k] in batch;
    if Rejected(server(turn, batch)) {
      assert forall r :: r in batch ==> r == batch[k];
    }
  }

  // ----- Runs against such a server in which no flush is cut short -----

  /** Stored once if exported, never otherwise; and dead only for its poison. */
  predicate Once(r: Row, poison: string -> bool, posts: seq<Post>) {
    && StoredCount(posts, r.id) == (if r.state == Exported then 1 else 0)
    && (r.state == Exported ==> !poison(r.event))
    && (r.state == Dead ==> poison(r.event))
  }

  ghost predicate AllOnce(w: World, poison: string -> bool) {
    && (forall r :: r in w.rows ==> Once(r, poison, w.posts))
    && (forall id: nat :: id > |w.events| ==> StoredCount(w.posts, id) == 0)
    && (forall id: nat :: 0 < id <= |w.events| && id !in IdSet(w.rows) ==> Gone(w, poison, id))
  }

  /** The event of a deleted row: healthy, and stored once. */
  predicate Gone(w: World, poison: string -> bool, id: nat) {
    0 < id <= |w.events| && StoredCount(w.posts, id) == 1 && !poison(w.events[id - 1])
  }

  lemma {:induction false} NotHeld(posts: seq<Post>, id: nat)
    requires forall p :: p in posts ==> id !in Ids(p.rows)
    ensures StoredCount(posts, id) == 0
    decreases posts
  {
    if posts != [] {
      var n := |posts| - 1;
      assert posts[n] in posts;
      NotHeld(posts[..n], id);
    }
  }

  lemma NoPostHolds(server: Server, turn: nat, batch: seq<Row>, id: nat)
    requires id !in IdSet(batch)
    ensures StoredCount(PostsOf(server, turn, batch), id) == 0
  {
    var posts := PostsOf(server, turn, batch);
    forall p | p in posts
      ensures id !in Ids(p.rows)
    {
      assert forall r :: r in p.rows ==> r in batch;
      forall x | x in Ids(p.rows)
        ensures x in IdSet(batch)
      {
        var k :| 0 <= k < |p.rows| && Ids(p.rows)[k] == x;
        assert p.rows[k] in batch;
      }
    }
    NotHeld(posts, id);
  }

  /** What one whole flush adds to the stored posts of an id: one, if it claimed the id in a healthy row. */
  lemma ClaimedStored(config: Config, server: Server, poison: string -> bool, w: World, now: int, life: nat, k: nat)
    requires AllOrNothing(server, poison) && Sound(config, server, w) && k < |NextBatch(config, w.rows, now)|
    requires life >= Steps(config, server, |w.posts|, NextBatch(config, w.rows, now))
    ensures var r := NextBatch(config, w.rows, now)[k];
            StoredCount(Flushing(config, server, w, now, life).posts, r.id) ==
            StoredCount(w.posts, r.id) + if poison(r.event) then 0 else 1
  {
    var batch, turn := NextBatch(config, w.rows, now), |w.posts|;
    BatchIs(config, w.rows, now);
    WholeFlush(config, server, turn, batch, life);
    StoredConcat(w.posts, PostsOf(server, turn, batch), batch[k].id);
    PoisonIsIsolated(config, server, poison, turn, batch, now, k);
  }

  lemma UnclaimedStored(config: Config, server: Server, w: World, now: int, life: nat, id: nat)
    requires id !in IdSet(NextBatch(config, w.rows, now)) && |NextBatch(config, w.rows, now)| > 0
    requires life >= Steps(config, server, |w.posts|, NextBatch(config, w.rows, now))
    ensures StoredCount(Flushing(config, server, w, now, life).posts, id) == StoredCount(w.posts, id)
  {
    var batch, turn := NextBatch(config, w.rows, now), |w.posts|;
    WholeFlush(config, server, turn, batch, life);
    StoredConcat(w.posts, PostsOf(server, turn, batch), id);
    NoPostHolds(server, turn, batch, id);
  }

  lemma SettledIs(config: Config, server: Server, turn: nat, batch: seq<Row>, now: int, r: Row)
    ensures var s := Settled(config, server, turn, batch, now, r);
            s.id == r.id && s.event == r.event
  {
  }

  lemma ClaimedOnce(config: Config, server: Server, poison: string -> bool, w: World, now: int, life: nat, k: nat)
    requires AllOrNothing(server, poison) && Sound(config, server, w) && k < |NextBatch(config, w.rows, now)|
    requires life >= Steps(config, server, |w.posts|, NextBatch(config, w.rows, now))
    requires Once(NextBatch(config, w.rows, now)[k], poison, w.posts)
    ensures var turn, batch := |w.posts|, NextBatch(config, w.rows, now);
            Once(Settled(config, server, turn, batch, now, batch[k]), poison,
                 Flushing(config, server, w, now, life).posts)
  {
    var turn, batch := |w.posts|, NextBatch(config, w.rows, now);
    BatchIs(config, w.rows, now);
    ClaimedStored(config, server, poison, w, now, life, k);
    PoisonIsIsolated(config, server, poison, turn, batch, now, k);
    var after := Flushing(config, server, w, now, life).posts;
    SettledIs(config, server, turn, batch, now, batch[k]);
    SettledOnce(batch[k], Settled(config, server, turn, batch, now, batch[k]), poison, w.posts, after);
  }

  lemma SettledOnce(r: Row, settled: Row, poison: string -> bool, posts: seq<Post>, after: seq<Post>)
    requires Once(r, poison, posts) && r.state == Pending
    requires settled.id == r.id && settled.event == r.event
    requires settled.state == if poison(r.event) then Dead else Exported
    requires StoredCount(after, r.id) == StoredCount(posts, r.id) + if poison(r.event) then 0 else 1
    ensures Once(settled, poison, after)
  {
  }

  lemma FlushOnceEach(config: Config, server: Server, poison: string -> bool, w: World, now: int, life: nat, r: Row)
    requires AllOrNothing(server, poison) && Sound(config, server, w) && Once(r, poison, w.posts)
    requires |NextBatch(config, w.rows, now)| > 0 && r in w.rows
    requires life >= Steps(config, server, |w.posts|, NextBatch(config, w.rows, now))
    ensures var turn, batch := |w.posts|, NextBatch(config, w.rows, now);
            Once(if r.id in DoneBy(config, server, turn, batch, life)
                 then Settled(config, server, turn, batch, now, r) else r,
                 poison, Flushing(config, server, w, now, life).posts)
  {
    var turn, batch := |w.posts|, NextBatch(config, w.rows, now);
    BatchIs(config, w.rows, now);
    WholeFlush(config, server, turn, batch, life);
    if r.id in IdSet(batch) {
      BatchRow(w.rows, batch, r);
      var k :| 0 <= k < |batch| && batch[k] == r;
      ClaimedOnce(config, server, poison, w, now, life, k);
    } else {
      UnclaimedStored(config, server, w, now, life, r.id);
    }
  }

  lemma FlushKeepsOnce(config: Config, server: Server, poison: string -> bool, w: World, now: int, life: nat)
    requires AllOrNothing(server, poison) && Sound(config, server, w) && AllOnce(w, poison)
    requires life >= Steps(config, server, |w.posts|, NextBatch(config, w.rows, now))
    ensures AllOnce(Flushing(config, server, w, now, life), poison)
  {
    var turn, batch, after := |w.posts|, NextBatch(config, w.rows, now), Flushing(config, server, w, now, life);
    FlushedIds(config, server, turn, batch, now, life, w.rows);
    BatchIs(config, w.rows, now);
    if batch == [] {
      NothingDone(config, server, w, now, life);
      return;
    }
    forall r | r in after.rows
      ensures Once(r, poison, after.posts)
    {
      var i :| 0 <= i < |after.rows| && after.rows[i] == r;
      FlushOnceEach(config, server, poison, w, now, life, w.rows[i]);
    }
    forall id: nat | id !in IdSet(w.rows)
      ensures StoredCount(after.posts, id) == StoredCount(w.posts, id)
    {
      UnclaimedStored(config, server, w, now, life, id);
    }
    assert forall r :: r in w.rows ==> RowSound(config, r, w);
    assert forall id: nat :: id > |w.events| ==> id !in IdSet(w.rows);
    forall id: nat | 0 < id <= |w.events| && id !in IdSet(after.rows)
      ensures Gone(after, poison, id)
    {
      assert Gone(w, poison, id);
    }
  }

  lemma NothingDone(config: Config, server: Server, w: World, now: int, life: nat)
    requires NextBatch(config, w.rows, now) == []
    ensures var after := Flushing(config, server, w, now, life);
            after.rows == w.rows && after.posts == w.posts && after.events == w.events
  {
    var after := Flushing(config, server, w, now, life);
    MadeByEnd(config, server, |w.posts|, [], life);
    assert after.rows == w.rows;
  }

  lemma EnqueueKeepsOnce(config: Config, server: Server, poison: string -> bool, w: World, event: string, now: int)
    requires Sound(config, server, w) && AllOnce(w, poison)
    ensures AllOnce(After(config, server, w, Enqueue(event, now)), poison)
  {
    var after := After(config, server, w, Enqueue(event, now));
    var r := after.rows[|w.rows|];
    assert forall q :: q in after.rows <==> q in w.rows || q == r;
    assert Once(r, poison, after.posts);
    forall id: nat | 0 < id <= |after.events| && id !in IdSet(after.rows)
      ensures Gone(after, poison, id)
    {
      assert r in after.rows && id != r.id;
      assert forall q :: q in w.rows ==> q in after.rows;
      assert Gone(w, poison, id);
    }
  }

  lemma PurgeKeepsOnce(config: Config, server: Server, poison: string -> bool, w: World, before: int)
    requires Sound(config, server, w) && AllOnce(w, poison)
    ensures AllOnce(After(config, server, w, Purge(before)), poison)
  {
    KeptSelected(w.rows, before);
    var after := After(config, server, w, Purge(before));
    forall id: nat | 0 < id <= |after.events| && id !in IdSet(after.rows)
      ensures Gone(after, poison, id)
    {
      if id in IdSet(w.rows) {
        var r :| r in w.rows && r.id == id;
        assert r !in after.rows && Once(r, poison, w.posts) && RowSound(config, r, w);
      } else {
        assert Gone(w, poison, id);
      }
    }
  }

  /** No flush of the run is cut short. */
  ghost predicate LivesOn(config: Config, server: Server, ops: seq<Op>) {
    forall i :: 0 <= i < |ops| ==> Lives(config, server, ops, i)
  }

  ghost predicate Lives(config: Config, server: Server, ops: seq<Op>, i: nat)
    requires i < |ops|
  {
    var w := Replay(config, server, ops[..i]);
    ops[i].Flush? ==> ops[i].lifetime >= Steps(config, server, |w.posts|, NextBatch(config, w.rows, ops[i].now))
  }

  lemma {:induction false} EveryRunOnce(config: Config, server: Server, poison: string -> bool, ops: seq<Op>)
    requires AllOrNothing(server, poison) && LivesOn(config, server, ops)
    ensures AllOnce(Replay(config, server, ops), poison)
    decreases ops
  {
    if ops != [] {
      var n := |ops| - 1;
      var w := Replay(config, server, ops[..n]);
      forall i | 0 <= i < n
        ensures Lives(config, server, ops[..n], i)
      {
        assert ops[..n][..i] == ops[..i] && Lives(config, server, ops, i);
      }
      EveryRunOnce(config, server, poison, ops[..n]);
      EveryRunSound(config, server, ops[..n]);
      assert Lives(config, server, ops, n);
      match ops[n] {
        case Enqueue(event, now) => EnqueueKeepsOnce(config, server, poison, w, event, now);
        case Flush(now, life) => FlushKeepsOnce(config, server, poison, w, now, life);
        case Purge(before) => PurgeKeepsOnce(config, server, poison, w, before);
      }
    }
  }

  /**
   * In such a run the server has stored each healthy event exactly once, or not yet while its row is pending;
   * it has stored no poison, and a row is dead only if it is poison.
   */
  lemma StoredExactlyOnce(config: Config, server: Server, poison: string -> bool, ops: seq<Op>, k: nat)
    requires AllOrNothing(server, poison) && LivesOn(config, server, ops) && k < |Enqueued(ops)|
    ensures var w, bad := Replay(config, server, ops), poison(Enqueued(ops)[k]);
            if exists r :: r in w.rows && r.id == k + 1 && r.state == Pending then StoredCount(w.posts, k + 1) == 0
            else if bad then
              StoredCount(w.posts, k + 1) == 0 && exists r :: r in w.rows && r.id == k + 1 && r.state == Dead
            else StoredCount(w.posts, k + 1) == 1
  {
    EveryRunOnce(config, server, poison, ops);
    EveryRunSound(config, server, ops);
    var w := Replay(config, server, ops);
    if k + 1 in IdSet(w.rows) {
      var r :| r in w.rows && r.id == k + 1;
      assert Once(r, poison, w.posts) && RowSound(config, r, w);
      var i :| 0 <= i < |w.rows| && w.rows[i] == r;
      forall q | q in w.rows && q.id == k + 1
        ensures q == r
      {
        SameRow(w.rows, q, i);
      }
    } else {
      assert Gone(w, poison, k + 1);
    }
  }
}
