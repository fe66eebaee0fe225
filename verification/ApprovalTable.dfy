/** Queries over the whole approvals table: counts by status, and the reconcilable rows oldest first. */
module ApprovalTable {
  import opened Wrappers
  import opened ApprovalRows

  /** `ids` lists the rows in insertion order, as the autoincrement key does. */
  datatype Table = Table(ids: seq<string>, rows: map<string, Row>)

  predicate Distinct(ids: seq<string>) {
    forall i, j :: 0 <= i < j < |ids| ==> ids[i] != ids[j]
  }

  ghost predicate Sound(t: Table) {
    && Distinct(t.ids)
    && (forall id :: id in t.ids <==> id in t.rows)
  }

  // ----- status_counts -----

  function Bucket(rows: map<string, Row>, st: Status): set<string> {
    set id | id in rows && rows[id].status == st
  }

  /** Every status has an entry, zero or not. */
  function StatusCounts(rows: map<string, Row>): (counts: map<Status, nat>)
    ensures forall st: Status :: st in counts && counts[st] == |Bucket(rows, st)|
  {
    map st: Status | true :: |Bucket(rows, st)|
  }

  function Sum(counts: map<Status, nat>): nat
    requires forall st: Status :: st in counts
  {
    counts[Pending] + counts[Approved] + counts[Rejected] + counts[Executing] + counts[Unknown]
      + counts[Completed] + counts[Failed]
  }

  function Has(row: Option<Row>, st: Status): nat {
    if row.Some? && row.value.status == st then 1 else 0
  }

  function RowAt(rows: map<string, Row>, id: string): Option<Row> {
    if id in rows then Some(rows[id]) else None
  }

  lemma BucketWithout(rows: map<string, Row>, id: string, st: Status)
    ensures |Bucket(rows, st)| == |Bucket(rows - {id}, st)| + Has(RowAt(rows, id), st)
  {
    var rest := rows - {id};
    forall x ensures x in Bucket(rest, st) <==> x in Bucket(rows, st) && x != id {
      assert x in rest <==> x in rows && x != id;
    }
    assert Bucket(rest, st) == Bucket(rows, st) - {id};
  }

  /** Writing one row moves one unit: out of the bucket of its old status, if it had one, into the
      bucket of its new status. */
  lemma WriteMovesOneUnit(rows: map<string, Row>, id: string, row: Row, st: Status)
    ensures StatusCounts(rows[id := row])[st] + Has(RowAt(rows, id), st) == StatusCounts(rows)[st] + Has(Some(row), st)
  {
    assert rows[id := row] - {id} == rows - {id};
    BucketWithout(rows, id, st);
    BucketWithout(rows[id := row], id, st);
  }

  lemma SumWithout(rows: map<string, Row>, id: string)
    requires id in rows
    ensures Sum(StatusCounts(rows)) == Sum(StatusCounts(rows - {id})) + 1
  {
    BucketWithout(rows, id, Pending);
    BucketWithout(rows, id, Approved);
    BucketWithout(rows, id, Rejected);
    BucketWithout(rows, id, Executing);
    BucketWithout(rows, id, Unknown);
    BucketWithout(rows, id, Completed);
    BucketWithout(rows, id, Failed);
  }

  /** The counts add up to the number of rows. */
  lemma {:induction false} CountsAddUp(rows: map<string, Row>)
    ensures Sum(StatusCounts(rows)) == |rows|
    decreases |rows|
  {
    if rows == map[] {
      assert forall st :: Bucket(rows, st) == {};
    } else {
      var id :| id in rows;
      assert (rows - {id}).Keys == rows.Keys - {id};
      CountsAddUp(rows - {id});
      SumWithout(rows, id);
    }
  }

  // ----- list_reconcilable -----

  function ActiveIds(ids: seq<string>, rows: map<string, Row>): seq<string> {
    if ids == [] then []
    else
      var rest := ActiveIds(ids[1..], rows);
      if ids[0] in rows && Active(rows[ids[0]].status) then [ids[0]] + rest else rest
  }

  function RequestedAt(rows: map<string, Row>, id: string): int {
    if id in rows then rows[id].requestedAt else 0
  }

  predicate OldestFirst(rows: map<string, Row>, ids: seq<string>) {
    forall i, j :: 0 <= i < j < |ids| ==> RequestedAt(rows, ids[i]) <= RequestedAt(rows, ids[j])
  }

  function InsertByAge(rows: map<string, Row>, id: string, sorted: seq<string>): seq<string> {
    if sorted == [] || RequestedAt(rows, id) <= RequestedAt(rows, sorted[0]) then [id] + sorted
    else [sorted[0]] + InsertByAge(rows, id, sorted[1..])
  }

  function SortByAge(rows: map<string, Row>, ids: seq<string>): seq<string> {
    if ids == [] then [] else InsertByAge(rows, ids[0], SortByAge(rows, ids[1..]))
  }

  /** The unlimited query: EXECUTING and UNKNOWN rows, oldest request first (insertion order on ties). */
  function Reconcilable(t: Table): seq<string> {
    SortByAge(t.rows, ActiveIds(t.ids, t.rows))
  }

  function Take<T>(s: seq<T>, n: nat): seq<T> {
    if n <= |s| then s[..n] else s
  }

  lemma ConsOldest(rows: map<string, Row>, id: string, rest: seq<string>)
    requires OldestFirst(rows, rest) && forall x :: x in rest ==> RequestedAt(rows, id) <= RequestedAt(rows, x)
    ensures OldestFirst(rows, [id] + rest)
  {
  }

  lemma {:induction false} InsertKeepsCount(rows: map<string, Row>, id: string, sorted: seq<string>)
    ensures multiset(InsertByAge(rows, id, sorted)) == multiset{id} + multiset(sorted)
  {
    if sorted != [] {
      InsertKeepsCount(rows, id, sorted[1..]);
      assert sorted == [sorted[0]] + sorted[1..];
    }
  }

  lemma {:induction false} InsertKeepsOrder(rows: map<string, Row>, id: string, sorted: seq<string>)
    requires OldestFirst(rows, sorted)
    ensures OldestFirst(rows, InsertByAge(rows, id, sorted))
  {
    if sorted == [] {
    } else if RequestedAt(rows, id) <= RequestedAt(rows, sorted[0]) {
      ConsOldest(rows, id, sorted);
    } else {
      var rest := InsertByAge(rows, id, sorted[1..]);
      InsertKeepsOrder(rows, id, sorted[1..]);
      InsertKeepsCount(rows, id, sorted[1..]);
      forall x | x in rest ensures RequestedAt(rows, sorted[0]) <= RequestedAt(rows, x) {
        assert x in multiset(rest);
        assert x == id || x in sorted[1..];
      }
      ConsOldest(rows, sorted[0], rest);
    }
  }

  lemma {:induction false} SortFacts(rows: map<string, Row>, ids: seq<string>)
    ensures OldestFirst(rows, SortByAge(rows, ids))
    ensures multiset(SortByAge(rows, ids)) == multiset(ids)
  {
    if ids != [] {
      SortFacts(rows, ids[1..]);
      InsertKeepsOrder(rows, ids[0], SortByAge(rows, ids[1..]));
      InsertKeepsCount(rows, ids[0], SortByAge(rows, ids[1..]));
      assert ids == [ids[0]] + ids[1..];
    }
  }

  lemma {:induction false} ActiveIdsFacts(ids: seq<string>, rows: map<string, Row>)
    ensures forall id :: id in ActiveIds(ids, rows) <==> id in ids && id in rows && Active(rows[id].status)
    ensures Distinct(ids) ==> Distinct(ActiveIds(ids, rows))
  {
    if ids != [] {
      ActiveIdsFacts(ids[1..], rows);
      assert ids == [ids[0]] + ids[1..];
    }
  }

  lemma {:induction false} DistinctByCount(a: seq<string>)
    ensures Distinct(a) <==> forall x :: multiset(a)[x] <= 1
  {
    if a != [] {
      var n := |a| - 1;
      assert a == a[..n] + [a[n]];
      DistinctByCount(a[..n]);
      if Distinct(a) {
        assert a[n] !in a[..n];
      } else if Distinct(a[..n]) {
        var i, j :| 0 <= i < j < |a| && a[i] == a[j];
        assert a[i] in a[..n];
        assert multiset(a)[a[n]] >= 2;
      } else {
        var x :| multiset(a[..n])[x] > 1;
        assert multiset(a)[x] > 1;
      }
    }
  }

  /** The reconcilable list holds exactly the EXECUTING and UNKNOWN rows, each once, oldest first. */
  lemma ReconcilableFacts(t: Table)
    requires Sound(t)
    ensures OldestFirst(t.rows, Reconcilable(t)) && Distinct(Reconcilable(t))
    ensures forall id :: id in Reconcilable(t) <==> id in t.rows && Active(t.rows[id].status)
  {
    var active := ActiveIds(t.ids, t.rows);
    ActiveIdsFacts(t.ids, t.rows);
    SortFacts(t.rows, active);
    DistinctByCount(active);
    DistinctByCount(Reconcilable(t));
    forall id ensures id in Reconcilable(t) <==> id in active {
      assert id in multiset(Reconcilable(t)) <==> id in multiset(active);
    }
  }

  /** A limited list leaves out only rows that are no older than those it holds. */
  lemma LimitKeepsOldest(t: Table, limit: nat, kept: string, left: string)
    requires Sound(t) && kept in Take(Reconcilable(t), limit)
    requires left in Reconcilable(t) && left !in Take(Reconcilable(t), limit)
    ensures RequestedAt(t.rows, kept) <= RequestedAt(t.rows, left)
  {
    ReconcilableFacts(t);
    var all := Reconcilable(t);
    var i :| 0 <= i < |all| && i < limit && all[i] == kept;
    var j :| 0 <= j < |all| && all[j] == left;
    assert forall k :: 0 <= k < |Take(all, limit)| ==> Take(all, limit)[k] == all[k] && all[k] != left;
  }

  lemma {:induction false} DistinctCardinality(a: seq<string>, members: set<string>)
    requires Distinct(a) && forall x :: x in a <==> x in members
    ensures |a| == |members|
  {
    if a == [] {
      assert members == {};
    } else {
      var n := |a| - 1;
      assert a == a[..n] + [a[n]];
      DistinctCardinality(a[..n], members - {a[n]});
    }
  }

  /** EXECUTING plus UNKNOWN in the counts is the length of the unlimited list. */
  lemma ReconcilableCount(t: Table)
    requires Sound(t)
    ensures StatusCounts(t.rows)[Executing] + StatusCounts(t.rows)[Unknown] == |Reconcilable(t)|
  {
    ReconcilableFacts(t);
    var e, u := Bucket(t.rows, Executing), Bucket(t.rows, Unknown);
    assert e !! u;
    DistinctCardinality(Reconcilable(t), e + u);
    assert |e + u| == |e| + |u|;
  }
}
