/** The durable outbox: a table of usage events, each update of which is one transaction. */
module Outbox {
  import opened Base
  import Redact

  datatype RowState = Pending | Exported | Dead

  datatype Row = Row(id: nat, event: string, state: RowState, attempts: nat, nextAttemptAt: int, createdAt: int,
                     lastError: Option<string>)

  /** `UPDATE ... WHERE id = ?`. */
  function Update(rows: seq<Row>, id: nat, change: Row -> Row): (updated: seq<Row>)
    ensures |updated| == |rows|
  {
    seq(|rows|, i requires 0 <= i < |rows| => if rows[i].id == id then change(rows[i]) else rows[i])
  }

  /** The same update for each of some ids, in turn. */
  function UpdateEach(rows: seq<Row>, ids: seq<nat>, change: Row -> Row): (updated: seq<Row>)
    ensures |updated| == |rows|
    decreases ids
  {
    if ids == [] then rows else UpdateEach(Update(rows, ids[0], change), ids[1..], change)
  }

  ghost predicate Distinct(ids: seq<nat>) {
    forall i, j :: 0 <= i < j < |ids| ==> ids[i] != ids[j]
  }

  /** Updates of distinct rows do not interfere. */
  lemma {:induction false} UpdateEachAt(rows: seq<Row>, ids: seq<nat>, change: Row -> Row, i: nat)
    requires i < |rows| && Distinct(ids) && change(rows[i]).id == rows[i].id
    ensures UpdateEach(rows, ids, change)[i] == if rows[i].id in ids then change(rows[i]) else rows[i]
    decreases ids
  {
    if ids != [] {
      var once := Update(rows, ids[0], change);
      if rows[i].id == ids[0] {
        Untouched(once, ids[1..], change, i);
      } else {
        UpdateEachAt(once, ids[1..], change, i);
      }
      assert ids == [ids[0]] + ids[1..];
    }
  }

  lemma {:induction false} Untouched(rows: seq<Row>, ids: seq<nat>, change: Row -> Row, i: nat)
    requires i < |rows| && rows[i].id !in ids
    ensures UpdateEach(rows, ids, change)[i] == rows[i]
    decreases ids
  {
    if ids != [] {
      Untouched(Update(rows, ids[0], change), ids[1..], change, i);
    }
  }

  lemma {:induction false} SameUpdates(rows: seq<Row>, ids: seq<nat>, f: Row -> Row, g: Row -> Row)
    requires forall r :: f(r) == g(r)
    ensures UpdateEach(rows, ids, f) == UpdateEach(rows, ids, g)
    decreases ids
  {
    if ids != [] {
      assert Update(rows, ids[0], f) == Update(rows, ids[0], g);
      SameUpdates(Update(rows, ids[0], f), ids[1..], f, g);
    }
  }

  function ToExported(r: Row): Row {
    r.(state := Exported, lastError := None)
  }

  /** An error may echo a response body: it is redacted before it is stored. */
  function Recorded(error: string): Option<string> {
    Some(Redact.ReplaceEach(Redact.PATTERNS, error))
  }

  function ToFailed(r: Row, next: int, error: string): Row {
    r.(attempts := r.attempts + 1, nextAttemptAt := next, lastError := Recorded(error))
  }

  function ToDead(r: Row, error: string): Row {
    r.(state := Dead, lastError := Recorded(error))
  }

  predicate Due(r: Row, now: int) {
    r.state == Pending && r.nextAttemptAt <= now
  }

  function DueRows(rows: seq<Row>, now: int): seq<Row> {
    if rows == [] then [] else (if Due(rows[0], now) then [rows[0]] else []) + DueRows(rows[1..], now)
  }

  function Take(rows: seq<Row>, limit: nat): seq<Row> {
    if |rows| <= limit then rows else rows[..limit]
  }

  function Kept(rows: seq<Row>, before: int): seq<Row> {
    if rows == [] then []
    else (if rows[0].state == Exported && rows[0].createdAt < before then [] else [rows[0]]) + Kept(rows[1..], before)
  }

  /** Ids grow, so no two rows share one. */
  ghost predicate Ordered(rows: seq<Row>) {
    forall i, j :: 0 <= i < j < |rows| ==> rows[i].id < rows[j].id
  }

  /** A selection of rows: all of them rows of the table, still in id order. */
  ghost predicate Selected(chosen: seq<Row>, rows: seq<Row>) {
    Ordered(chosen) && forall r :: r in chosen ==> r in rows
  }

  /** A selection of the rows after the first is one of all of them, with the first or without it. */
  lemma FirstSelected(rest: seq<Row>, rows: seq<Row>)
    requires rows != [] && Ordered(rows) && Selected(rest, rows[1..])
    ensures Selected(rest, rows) && Selected([rows[0]] + rest, rows)
  {
    forall r | r in rest
      ensures r in rows && rows[0].id < r.id
    {
      var i :| 0 <= i < |rows[1..]| && rows[1..][i] == r;
      assert rows[i + 1] == r;
    }
  }

  lemma {:induction false} DueSelected(rows: seq<Row>, now: int)
    requires Ordered(rows)
    ensures Selected(DueRows(rows, now), rows)
    ensures forall r :: r in DueRows(rows, now) ==> Due(r, now)
  {
    if rows != [] {
      DueSelected(rows[1..], now);
      FirstSelected(DueRows(rows[1..], now), rows);
      assert [] + DueRows(rows[1..], now) == DueRows(rows[1..], now);
    }
  }

  lemma {:induction false} DueComplete(rows: seq<Row>, now: int)
    ensures forall r :: r in rows && Due(r, now) ==> r in DueRows(rows, now)
  {
    if rows != [] {
      DueComplete(rows[1..], now);
    }
  }

  /** A claim is a selection of due rows: all of them, or as many as the limit, the oldest first. */
  lemma ClaimIsDue(rows: seq<Row>, now: int, limit: nat)
    requires Ordered(rows)
    ensures var claimed := Take(DueRows(rows, now), limit);
            && Selected(claimed, rows)
            && (forall r :: r in claimed ==> r.state == Pending && r.nextAttemptAt <= now)
            && (forall r :: r in rows && r.state == Pending && r.nextAttemptAt <= now && r !in claimed ==>
                  |claimed| == limit && forall q :: q in claimed ==> q.id < r.id)
  {
    DueSelected(rows, now);
    DueComplete(rows, now);
    OldestFirst(DueRows(rows, now), limit);
  }

  lemma OldestFirst(rows: seq<Row>, limit: nat)
    requires Ordered(rows)
    ensures Ordered(Take(rows, limit)) && forall r :: r in Take(rows, limit) ==> r in rows
    ensures forall r :: r in rows && r !in Take(rows, limit) ==>
              |Take(rows, limit)| == limit && forall q :: q in Take(rows, limit) ==> q.id < r.id
  {
    forall r | r in rows && r !in Take(rows, limit)
      ensures |Take(rows, limit)| == limit && forall q :: q in Take(rows, limit) ==> q.id < r.id
    {
      var i :| 0 <= i < |rows| && rows[i] == r;
      assert Take(rows, limit) == rows[..limit];
      assert forall k :: 0 <= k < limit ==> rows[k] == rows[..limit][k] && rows[k] in rows[..limit];
    }
  }

  /** A purge deletes exactly the exported rows created before its time. */
  lemma {:induction false} KeptAre(rows: seq<Row>, before: int, r: Row)
    ensures r in Kept(rows, before) <==> r in rows && !(r.state == Exported && r.createdAt < before)
  {
    if rows != [] {
      KeptAre(rows[1..], before, r);
    }
  }

  lemma {:induction false} KeptSelected(rows: seq<Row>, before: int)
    requires Ordered(rows)
    ensures Selected(Kept(rows, before), rows)
    ensures forall r :: r in rows && !(r.state == Exported && r.createdAt < before) ==> r in Kept(rows, before)
  {
    if rows != [] {
      KeptSelected(rows[1..], before);
      FirstSelected(Kept(rows[1..], before), rows);
      assert [] + Kept(rows[1..], before) == Kept(rows[1..], before);
    }
  }

  class TokemetryOutbox {
    var rows: seq<Row>
    var nextId: nat

    ghost predicate Valid()
      reads this
    {
      nextId >= 1 && Ordered(rows) && forall r :: r in rows ==> 0 < r.id < nextId
    }

    constructor ()
      ensures Valid() && rows == [] && nextId == 1
    {
      rows, nextId := [], 1;
    }

    /** Commit an event; its row is pending and due at once. */
    method Enqueue(event: string, now: int) returns (id: nat)
      requires Valid()
      modifies this
      ensures Valid() && id == old(nextId) && nextId == id + 1
      ensures rows == old(rows) + [Row(id, event, Pending, 0, 0, now, None)]
    {
      id := nextId;
      rows := rows + [Row(id, event, Pending, 0, 0, now, None)];
      nextId := nextId + 1;
    }

    /** The first due rows, in id order. */
    method ClaimBatch(limit: nat, now: int) returns (claimed: seq<Row>)
      ensures claimed == Take(DueRows(rows, now), limit)
    {
      claimed := [];
      assert rows[0..] == rows;
      for i := 0 to |rows|
        invariant DueRows(rows, now) == claimed + DueRows(rows[i..], now)
      {
        assert rows[i..][1..] == rows[i + 1..];
        if Due(rows[i], now) {
          Assoc(claimed, [rows[i]], DueRows(rows[i + 1..], now));
          claimed := claimed + [rows[i]];
        } else {
          assert [] + DueRows(rows[i + 1..], now) == DueRows(rows[i + 1..], now);
        }
      }
      assert rows[|rows|..] == [] && claimed + [] == claimed;
      if |claimed| > limit {
        claimed := claimed[..limit];
      }
    }

    method MarkExported(ids: seq<nat>)
      modifies this`rows
      ensures rows == UpdateEach(old(rows), ids, ToExported)
    {
      UpdateAll(ids, ToExported);
    }

    method MarkFailed(ids: seq<nat>, next: int, error: string)
      modifies this`rows
      ensures rows == UpdateEach(old(rows), ids, (r: Row) => ToFailed(r, next, error))
    {
      var redacted := Redact.RedactString(error);
      assert Some(redacted) == Recorded(error);
      UpdateAll(ids, (r: Row) => r.(attempts := r.attempts + 1, nextAttemptAt := next, lastError := Some(redacted)));
      SameUpdates(old(rows), ids,
                  (r: Row) => r.(attempts := r.attempts + 1, nextAttemptAt := next, lastError := Some(redacted)),
                  (r: Row) => ToFailed(r, next, error));
    }

    method MarkDead(ids: seq<nat>, error: string)
      modifies this`rows
      ensures rows == UpdateEach(old(rows), ids, (r: Row) => ToDead(r, error))
    {
      var redacted := Redact.RedactString(error);
      assert Some(redacted) == Recorded(error);
      UpdateAll(ids, (r: Row) => r.(state := Dead, lastError := Some(redacted)));
      SameUpdates(old(rows), ids, (r: Row) => r.(state := Dead, lastError := Some(redacted)),
                  (r: Row) => ToDead(r, error));
    }

    /** The statement loop of a transaction. */
    method UpdateAll(ids: seq<nat>, change: Row -> Row)
      modifies this`rows
      ensures rows == UpdateEach(old(rows), ids, change)
    {
      assert ids[0..] == ids;
      for i := 0 to |ids|
        invariant UpdateEach(old(rows), ids, change) == UpdateEach(rows, ids[i..], change)
      {
        assert ids[i..][1..] == ids[i + 1..];
        rows := Update(rows, ids[i], change);
      }
    }

    /** Only exported rows are ever deleted. */
    method PurgeExported(before: int)
      requires Valid()
      modifies this`rows
      ensures Valid() && rows == Kept(old(rows), before)
    {
      KeptSelected(rows, before);
      rows := Kept(rows, before);
    }
  }
}
