/** Which rows the worker's cycles ever settle, when some Jobs never finish.

The batch is always the oldest reconcilable rows, and a row that cannot be settled stays where it is. */
module CycleFairness {
  import opened Wrappers
  import opened ApprovalRows
  import opened ApprovalProtocol
  import opened ApprovalTable
  import opened JobNames
  import opened ReconciliationWorkers
  import opened CycleDrain

  // ----- Lists of ids -----

  function Filter(ids: seq<string>, keep: string -> bool): (kept: seq<string>)
    ensures |kept| <= |ids|
  {
    if ids == [] then []
    else if keep(ids[0]) then [ids[0]] + Filter(ids[1..], keep)
    else Filter(ids[1..], keep)
  }

  /** The ids before the first occurrence of `id`. */
  function Ahead(ids: seq<string>, id: string): (ahead: seq<string>)
    ensures |ahead| <= |ids| && id !in ahead && ahead == ids[..|ahead|]
    ensures id in ids ==> |ahead| < |ids| && ids[|ahead|] == id
  {
    if ids == [] || ids[0] == id then [] else [ids[0]] + Ahead(ids[1..], id)
  }

  lemma {:induction false} FilterMembers(ids: seq<string>, keep: string -> bool)
    ensures forall id :: id in Filter(ids, keep) <==> id in ids && keep(id)
  {
    if ids != [] {
      FilterMembers(ids[1..], keep);
      assert ids == [ids[0]] + ids[1..];
    }
  }

  lemma TailOfJoin(a: seq<string>, b: seq<string>)
    requires a != []
    ensures (a + b)[0] == a[0] && (a + b)[1..] == a[1..] + b
  {
  }

  lemma JoinThree(a: seq<string>, b: seq<string>, c: seq<string>)
    ensures a + (b + c) == (a + b) + c
  {
  }

  lemma {:induction false} FilterJoin(a: seq<string>, b: seq<string>, keep: string -> bool)
    ensures Filter(a + b, keep) == Filter(a, keep) + Filter(b, keep)
  {
    if a == [] {
      assert a + b == b;
    } else {
      FilterJoin(a[1..], b, keep);
      TailOfJoin(a, b);
      JoinThree([a[0]], Filter(a[1..], keep), Filter(b, keep));
    }
  }

  lemma {:induction false} FilterAgrees(ids: seq<string>, p: string -> bool, q: string -> bool)
    requires forall id :: id in ids ==> p(id) == q(id)
    ensures Filter(ids, p) == Filter(ids, q)
  {
    if ids != [] {
      assert ids[0] in ids;
      assert forall id :: id in ids[1..] ==> id in ids;
      FilterAgrees(ids[1..], p, q);
    }
  }

  lemma {:induction false} FilterAll(ids: seq<string>, keep: string -> bool)
    requires forall id :: id in ids ==> keep(id)
    ensures Filter(ids, keep) == ids
  {
    if ids != [] {
      assert ids[0] in ids;
      assert forall id :: id in ids[1..] ==> id in ids;
      FilterAll(ids[1..], keep);
    }
  }

  lemma {:induction false} FilterDrops(ids: seq<string>, keep: string -> bool)
    requires |Filter(ids, keep)| == |ids|
    ensures forall id :: id in ids ==> keep(id)
  {
    if ids != [] {
      FilterDrops(ids[1..], keep);
      assert ids == [ids[0]] + ids[1..];
    }
  }

  lemma {:induction false} AheadJoin(a: seq<string>, b: seq<string>, id: string)
    requires id !in a
    ensures Ahead(a + b, id) == a + Ahead(b, id)
  {
    if a == [] {
      assert a + b == b;
    } else {
      assert a[0] in a && forall x :: x in a[1..] ==> x in a;
      AheadJoin(a[1..], b, id);
      TailOfJoin(a, b);
      JoinThree([a[0]], a[1..], Ahead(b, id));
      assert [a[0]] + a[1..] == a;
    }
  }

  // ----- One cycle on the list -----

  /** The ids that a cycle cannot settle. */
  function Failing(ids: seq<string>, jobs: map<string, JobSlot>): seq<string> {
    Filter(ids, id => !Settles(jobs, id))
  }

  /** The list after a cycle: those of the batch that settle have left it. */
  function Swept(ids: seq<string>, jobs: map<string, JobSlot>, size: nat): seq<string> {
    var batch := Take(ids, size);
    Failing(batch, jobs) + ids[|batch|..]
  }

  lemma {:induction false} FailingTwice(ids: seq<string>, jobs: map<string, JobSlot>)
    ensures Failing(Failing(ids, jobs), jobs) == Failing(ids, jobs)
  {
    FilterMembers(ids, id => !Settles(jobs, id));
    FilterAll(Failing(ids, jobs), id => !Settles(jobs, id));
  }

  lemma FailingJoin(a: seq<string>, b: seq<string>, jobs: map<string, JobSlot>)
    ensures Failing(a + b, jobs) == Failing(a, jobs) + Failing(b, jobs)
  {
    FilterJoin(a, b, id => !Settles(jobs, id));
  }

  lemma FailingMembers(ids: seq<string>, jobs: map<string, JobSlot>)
    ensures forall id :: id in Failing(ids, jobs) <==> id in ids && !Settles(jobs, id)
  {
    FilterMembers(ids, id => !Settles(jobs, id));
  }

  lemma SweptBehind(ids: seq<string>, jobs: map<string, JobSlot>, size: nat, k: nat)
    requires size <= k <= |ids|
    ensures Swept(ids, jobs, size) == Failing(ids[..k][..size], jobs) + (ids[..k][size..] + ids[k..])
  {
    assert ids[..size] == ids[..k][..size];
    assert ids[size..] == ids[..k][size..] + ids[k..];
  }

  lemma AheadOfTwo(front: seq<string>, rest: seq<string>, tail: seq<string>, id: string)
    requires id !in front && id !in rest && tail != [] && tail[0] == id
    ensures id in front + (rest + tail) && Ahead(front + (rest + tail), id) == front + rest
  {
    AheadJoin(front, rest + tail, id);
    AheadJoin(rest, tail, id);
    assert (rest + tail)[|rest|] == id;
    assert rest + [] == rest;
  }

  /** An id behind the batch stays, and those ahead of it that settle in the batch leave. */
  lemma BehindTheBatch(ids: seq<string>, jobs: map<string, JobSlot>, size: nat, id: string)
    requires id in ids && |Ahead(ids, id)| >= size
    ensures id in Swept(ids, jobs, size)
    ensures Ahead(Swept(ids, jobs, size), id) == Failing(Ahead(ids, id)[..size], jobs) + Ahead(ids, id)[size..]
  {
    var ahead := Ahead(ids, id);
    SweptBehind(ids, jobs, size, |ahead|);
    FailingMembers(ahead[..size], jobs);
    AheadOfTwo(Failing(ahead[..size], jobs), ahead[size..], ids[|ahead|..], id);
  }

  lemma LeavesTheBatch(ids: seq<string>, jobs: map<string, JobSlot>, size: nat, id: string)
    requires id in ids && Distinct(ids) && |Ahead(ids, id)| < size && Settles(jobs, id)
    ensures id !in Swept(ids, jobs, size)
  {
    var k, batch := |Ahead(ids, id)|, Take(ids, size);
    FailingMembers(batch, jobs);
    assert forall i :: |batch| <= i < |ids| ==> ids[i] != ids[k];
  }

  lemma Around(ids: seq<string>, k: nat)
    requires k < |ids|
    ensures ids == ids[..k] + ([ids[k]] + ids[k + 1..])
  {
  }

  lemma FailingAround(ids: seq<string>, jobs: map<string, JobSlot>, k: nat)
    requires k < |ids| && !Settles(jobs, ids[k])
    ensures Failing(ids, jobs) == Failing(ids[..k], jobs) + ([ids[k]] + Failing(ids[k + 1..], jobs))
  {
    Around(ids, k);
    FailingJoin(ids[..k], [ids[k]] + ids[k + 1..], jobs);
    FailingJoin([ids[k]], ids[k + 1..], jobs);
    FilterAll([ids[k]], id => !Settles(jobs, id));
  }

  lemma SweptAround(ids: seq<string>, jobs: map<string, JobSlot>, size: nat, k: nat)
    requires k < |ids| && k < size && !Settles(jobs, ids[k])
    ensures exists tail :: Swept(ids, jobs, size) == Failing(ids[..k], jobs) + ([ids[k]] + tail)
  {
    var batch := Take(ids, size);
    assert batch[..k] == ids[..k] && batch[k] == ids[k];
    FailingAround(batch, jobs, k);
    var tail := Failing(batch[k + 1..], jobs) + ids[|batch|..];
    JoinFour(Failing(ids[..k], jobs), [ids[k]], Failing(batch[k + 1..], jobs), ids[|batch|..]);
    assert Swept(ids, jobs, size) == Failing(ids[..k], jobs) + ([ids[k]] + tail);
  }

  lemma JoinFour(a: seq<string>, b: seq<string>, c: seq<string>, d: seq<string>)
    ensures (a + (b + c)) + d == a + (b + (c + d))
  {
  }

  /** An id in the batch that fails stays, and so do the failing ones ahead of it. */
  lemma StaysInTheBatch(ids: seq<string>, jobs: map<string, JobSlot>, size: nat, id: string)
    requires id in ids && |Ahead(ids, id)| < size && !Settles(jobs, id)
    ensures id in Swept(ids, jobs, size)
    ensures Ahead(Swept(ids, jobs, size), id) == Failing(Ahead(ids, id), jobs)
  {
    var ahead := Ahead(ids, id);
    SweptAround(ids, jobs, size, |ahead|);
    var tail :| Swept(ids, jobs, size) == Failing(ahead, jobs) + ([id] + tail);
    FailingMembers(ahead, jobs);
    AheadJoin(Failing(ahead, jobs), [id] + tail, id);
    assert id in [id] + tail;
  }

  /** How many failing ids are ahead. */
  function FailingAhead(ids: seq<string>, jobs: map<string, JobSlot>, id: string): nat {
    |Failing(Ahead(ids, id), jobs)|
  }

  lemma FailingCount(ahead: seq<string>, jobs: map<string, JobSlot>, size: nat)
    requires size <= |ahead|
    ensures var left := Failing(ahead[..size], jobs) + ahead[size..];
      && |Failing(left, jobs)| == |Failing(ahead, jobs)|
      && (|Failing(ahead, jobs)| < size ==> |left| < |ahead|)
  {
    assert ahead == ahead[..size] + ahead[size..];
    FailingJoin(ahead[..size], ahead[size..], jobs);
    FailingTwice(ahead[..size], jobs);
    FailingJoin(Failing(ahead[..size], jobs), ahead[size..], jobs);
  }

  /** What a cycle does to the place of an id: the failing ids ahead of it never change, and if it is
      behind the batch and fewer fail than a batch holds, it moves up. */
  lemma PlaceAfterCycle(ids: seq<string>, jobs: map<string, JobSlot>, size: nat, id: string)
    requires id in ids && Distinct(ids)
    ensures var after := Swept(ids, jobs, size);
      && (id !in after <==> Settles(jobs, id) && |Ahead(ids, id)| < size)
      && (id in after ==> FailingAhead(after, jobs, id) == FailingAhead(ids, jobs, id))
      && (id in after && Settles(jobs, id) && FailingAhead(ids, jobs, id) < size ==>
            |Ahead(after, id)| < |Ahead(ids, id)|)
  {
    if |Ahead(ids, id)| >= size {
      BehindTheBatch(ids, jobs, size, id);
      FailingCount(Ahead(ids, id), jobs, size);
    } else if Settles(jobs, id) {
      LeavesTheBatch(ids, jobs, size, id);
    } else {
      StaysInTheBatch(ids, jobs, size, id);
      FailingTwice(Ahead(ids, id), jobs);
    }
  }

  // ----- One cycle on the table -----

  lemma {:induction false} ActiveIdsFilter(ids: seq<string>, rows: map<string, Row>, after: map<string, Row>,
                                           keep: string -> bool)
    requires forall id :: id in ids ==> id in rows && id in after
    requires forall id :: id in ids ==> (Active(after[id].status) <==> Active(rows[id].status) && keep(id))
    ensures ActiveIds(ids, after) == Filter(ActiveIds(ids, rows), keep)
  {
    if ids != [] {
      assert ids[0] in ids && forall id :: id in ids[1..] ==> id in ids;
      ActiveIdsFilter(ids[1..], rows, after, keep);
    }
  }

  lemma {:induction false} InsertFilter(rows: map<string, Row>, id: string, sorted: seq<string>, keep: string -> bool)
    requires OldestFirst(rows, sorted)
    ensures Filter(InsertByAge(rows, id, sorted), keep) ==
            if keep(id) then InsertByAge(rows, id, Filter(sorted, keep)) else Filter(sorted, keep)
  {
    if sorted == [] {
    } else if RequestedAt(rows, id) <= RequestedAt(rows, sorted[0]) {
      var kept := Filter(sorted, keep);
      assert ([id] + sorted)[1..] == sorted;
      FilterMembers(sorted, keep);
      if kept != [] {
        assert kept[0] in kept;
        var i :| 0 <= i < |sorted| && sorted[i] == kept[0];
        assert RequestedAt(rows, sorted[0]) <= RequestedAt(rows, sorted[i]);
      }
    } else {
      InsertFilter(rows, id, sorted[1..], keep);
      var rest := InsertByAge(rows, id, sorted[1..]);
      assert ([sorted[0]] + rest)[1..] == rest;
      if keep(sorted[0]) {
        var kept := [sorted[0]] + Filter(sorted[1..], keep);
        assert kept[1..] == Filter(sorted[1..], keep);
      }
    }
  }

  lemma {:induction false} SortFilter(rows: map<string, Row>, ids: seq<string>, keep: string -> bool)
    ensures SortByAge(rows, Filter(ids, keep)) == Filter(SortByAge(rows, ids), keep)
  {
    if ids != [] {
      SortFilter(rows, ids[1..], keep);
      SortFacts(rows, ids[1..]);
      InsertFilter(rows, ids[0], SortByAge(rows, ids[1..]), keep);
    }
  }

  lemma {:induction false} InsertSameAge(rows: map<string, Row>, after: map<string, Row>, id: string,
                                         sorted: seq<string>)
    requires forall x :: RequestedAt(after, x) == RequestedAt(rows, x)
    ensures InsertByAge(after, id, sorted) == InsertByAge(rows, id, sorted)
  {
    if sorted != [] {
      InsertSameAge(rows, after, id, sorted[1..]);
    }
  }

  lemma {:induction false} SortSameAge(rows: map<string, Row>, after: map<string, Row>, ids: seq<string>)
    requires forall x :: RequestedAt(after, x) == RequestedAt(rows, x)
    ensures SortByAge(after, ids) == SortByAge(rows, ids)
  {
    if ids != [] {
      SortSameAge(rows, after, ids[1..]);
      InsertSameAge(rows, after, ids[0], SortByAge(rows, ids[1..]));
    }
  }

  /** When rows keep their request times and some leave the reconcilable list, the rest keep their order. */
  lemma ReconcilableFilter(t: Table, after: Table, keep: string -> bool)
    requires Sound(t) && Sound(after) && after.ids == t.ids
    requires forall id :: RequestedAt(after.rows, id) == RequestedAt(t.rows, id)
    requires forall id :: id in t.rows ==> (Active(after.rows[id].status) <==> Active(t.rows[id].status) && keep(id))
    ensures Reconcilable(after) == Filter(Reconcilable(t), keep)
  {
    ActiveIdsFilter(t.ids, t.rows, after.rows, keep);
    SortSameAge(t.rows, after.rows, ActiveIds(t.ids, after.rows));
    SortFilter(t.rows, ActiveIds(t.ids, t.rows), keep);
  }

  /** Whether a reconcilable id is still there after a cycle with this batch. */
  predicate Stays(batch: seq<string>, jobs: map<string, JobSlot>, id: string) {
    id !in batch || !Settles(jobs, id)
  }

  lemma RestIsOther(ids: seq<string>, n: nat)
    requires Distinct(ids) && n <= |ids|
    ensures forall id :: id in ids[n..] ==> id !in ids[..n]
  {
  }

  lemma SweptIsFilter(ids: seq<string>, jobs: map<string, JobSlot>, size: nat)
    requires Distinct(ids)
    ensures Filter(ids, id => Stays(Take(ids, size), jobs, id)) == Swept(ids, jobs, size)
  {
    var batch := Take(ids, size);
    var rest := ids[|batch|..];
    var stays := id => Stays(batch, jobs, id);
    assert ids == batch + rest && batch == ids[..|batch|];
    RestIsOther(ids, |batch|);
    FilterJoin(batch, rest, stays);
    FilterAgrees(batch, stays, id => !Settles(jobs, id));
    FilterAll(rest, stays);
  }

  /** A quiet cycle sweeps the reconcilable list: what leaves it is settled, and what was not in it is
      as it was. */
  ghost predicate Sweeps(t: Table, jobs: map<string, JobSlot>, size: nat, after: Table) {
    && Sound(after) && after.ids == t.ids && after.rows.Keys == t.rows.Keys
    && Reconcilable(after) == Swept(Reconcilable(t), jobs, size)
    && (forall id :: id in t.rows && id !in Reconcilable(t) ==> after.rows[id] == t.rows[id])
    && (forall id :: id in Reconcilable(t) && id !in Reconcilable(after) ==>
          id in after.rows && Settled(after.rows[id].status))
  }

  lemma AdvancedStatus(t: Table, jobs: map<string, JobSlot>, batch: seq<string>, after: map<string, Row>, id: string)
    requires Listed(t.rows, batch) && Advanced(t.rows, jobs, batch, after) && id in t.rows
    ensures id in after && RequestedAt(after, id) == RequestedAt(t.rows, id)
    ensures Active(after[id].status) <==> Active(t.rows[id].status) && Stays(batch, jobs, id)
    ensures !Stays(batch, jobs, id) ==> Settled(after[id].status)
  {
    assert id in after.Keys;
  }

  lemma CycleSweeps(t: Table, jobs: map<string, JobSlot>, turns: nat -> Turn, size: nat)
    requires Sound(t) && AllQuiet(turns)
    ensures Sweeps(t, jobs, size, Cycle(t, jobs, turns, size).0)
  {
    var all, batch := Reconcilable(t), Take(Reconcilable(t), size);
    var after := Cycle(t, jobs, turns, size).0;
    BatchFacts(t, size);
    QuietBatch(t.rows, jobs, batch, turns);
    assert batch[..|batch|] == batch;
    forall id | id in t.rows
      ensures id in after.rows && RequestedAt(after.rows, id) == RequestedAt(t.rows, id)
      ensures Active(after.rows[id].status) <==> Active(t.rows[id].status) && Stays(batch, jobs, id)
      ensures !Stays(batch, jobs, id) ==> Settled(after.rows[id].status)
    {
      AdvancedStatus(t, jobs, batch, after.rows, id);
    }
    assert after.rows.Keys == t.rows.Keys;
    assert Sound(after) by {
      forall id ensures id in after.rows <==> id in t.rows { assert id in after.rows.Keys <==> id in t.rows.Keys; }
    }
    ReconcilableFacts(t);
    ReconcilableFilter(t, after, id => Stays(batch, jobs, id));
    SweptIsFilter(all, jobs, size);
    FilterMembers(all, id => Stays(batch, jobs, id));
  }

  // ----- All cycles -----

  /** The row can be settled, and fewer rows ahead of it cannot than a batch holds. */
  predicate GetsItsTurn(t: Table, jobs: map<string, JobSlot>, size: nat, id: string) {
    Settles(jobs, id) && FailingAhead(Reconcilable(t), jobs, id) < size
  }

  /** A row that is reconcilable and will not get its turn, or one that will and its place. */
  ghost predicate Waits(t: Table, jobs: map<string, JobSlot>, size: nat, id: string, turn: bool) {
    Sound(t) && id in Reconcilable(t) && GetsItsTurn(t, jobs, size, id) == turn
  }

  lemma OneCycle(t: Table, jobs: map<string, JobSlot>, turns: nat -> Turn, size: nat, id: string, turn: bool)
    requires AllQuiet(turns) && Waits(t, jobs, size, id, turn)
    ensures var after := Cycle(t, jobs, turns, size).0;
      if id in Reconcilable(after) then
        Waits(after, jobs, size, id, turn)
        && (turn ==> |Ahead(Reconcilable(after), id)| < |Ahead(Reconcilable(t), id)|)
      else turn && id in after.rows && Settled(after.rows[id].status)
  {
    CycleSweeps(t, jobs, turns, size);
    ReconcilableFacts(t);
    PlaceAfterCycle(Reconcilable(t), jobs, size, id);
    BoundsFailing(Reconcilable(t), jobs, id);
  }

  lemma BoundsFailing(ids: seq<string>, jobs: map<string, JobSlot>, id: string)
    ensures FailingAhead(ids, jobs, id) <= |Ahead(ids, id)|
  {
  }

  /** A row that does not get its turn waits for ever. */
  lemma WaitsForEver(t: Table, jobs: map<string, JobSlot>, turns: nat -> nat -> Turn, size: nat, id: string, c: nat)
    requires EveryCycleQuiet(turns) && Waits(t, jobs, size, id, false)
    ensures Waits(Cycles(t, jobs, turns, size, c), jobs, size, id, false)
  {
    var n := 0;
    while n < c
      invariant n <= c && Waits(Cycles(t, jobs, turns, size, n), jobs, size, id, false)
    {
      OneCycle(Cycles(t, jobs, turns, size, n), jobs, turns(n), size, id, false);
      n := n + 1;
    }
  }

  ghost predicate SettledBy(t: Table, jobs: map<string, JobSlot>, turns: nat -> nat -> Turn, size: nat, id: string,
                            c: nat)
  {
    var after := Cycles(t, jobs, turns, size, c);
    id in after.rows && Settled(after.rows[id].status)
  }

  /** A row that gets its turn moves up with every cycle until it is settled. */
  lemma {:induction false} SettledInTime(t: Table, jobs: map<string, JobSlot>, turns: nat -> nat -> Turn, size: nat,
                                         id: string,
                                         c: nat)
    returns (d: nat)
    requires EveryCycleQuiet(turns) && Waits(Cycles(t, jobs, turns, size, c), jobs, size, id, true)
    ensures c < d <= c + |Ahead(Reconcilable(Cycles(t, jobs, turns, size, c)), id)| + 1
    ensures SettledBy(t, jobs, turns, size, id, d)
    decreases |Ahead(Reconcilable(Cycles(t, jobs, turns, size, c)), id)|
  {
    OneCycle(Cycles(t, jobs, turns, size, c), jobs, turns(c), size, id, true);
    if id in Reconcilable(Cycles(t, jobs, turns, size, c + 1)) {
      d := SettledInTime(t, jobs, turns, size, id, c + 1);
    } else {
      d := c + 1;
    }
  }

  /** With nothing else going wrong, the cycles settle a reconcilable row if and only if its Job can be
      looked up and has finished, and fewer than a batch of the older rows fail that test. */
  lemma SettledExactlyWhen(t: Table, jobs: map<string, JobSlot>, turns: nat -> nat -> Turn, size: nat, id: string)
    requires Sound(t) && EveryCycleQuiet(turns) && id in Reconcilable(t)
    ensures (exists c :: SettledBy(t, jobs, turns, size, id, c)) <==>
            Settles(jobs, id) && FailingAhead(Reconcilable(t), jobs, id) < size
  {
    if GetsItsTurn(t, jobs, size, id) {
      var c := SettledInTime(t, jobs, turns, size, id, 0);
    } else {
      forall c ensures !SettledBy(t, jobs, turns, size, id, c) {
        WaitsForEver(t, jobs, turns, size, id, c);
        ReconcilableFacts(Cycles(t, jobs, turns, size, c));
      }
    }
  }

  // ----- A head that cannot be settled -----

  /** None of the oldest `size` reconcilable rows can be settled, for whatever reason. */
  ghost predicate StuckHead(t: Table, jobs: map<string, JobSlot>, size: nat) {
    forall id :: id in Take(Reconcilable(t), size) ==> !Settles(jobs, id)
  }

  lemma BehindAStuckHead(ids: seq<string>, jobs: map<string, JobSlot>, size: nat, id: string)
    requires id in ids && Settles(jobs, id) && forall x :: x in Take(ids, size) ==> !Settles(jobs, x)
    ensures FailingAhead(ids, jobs, id) >= size
  {
    var ahead := Ahead(ids, id);
    assert forall k :: 0 <= k < |Take(ids, size)| ==> Take(ids, size)[k] == ids[k];
    assert |ahead| >= size;
    assert ahead == ahead[..size] + ahead[size..];
    FailingJoin(ahead[..size], ahead[size..], jobs);
    assert ahead[..size] == Take(ids, size);
    FilterAll(ahead[..size], x => !Settles(jobs, x));
  }

  /** Behind such a head no row is ever settled, however many cycles run and whether or not its own Job
      has finished. */
  lemma StuckHeadStarvesTheRest(t: Table, jobs: map<string, JobSlot>, turns: nat -> nat -> Turn, size: nat, id: string,
                                c: nat)
    requires Sound(t) && StuckHead(t, jobs, size) && EveryCycleQuiet(turns) && id in Reconcilable(t)
    ensures !SettledBy(t, jobs, turns, size, id, c)
  {
    if Settles(jobs, id) {
      BehindAStuckHead(Reconcilable(t), jobs, size, id);
    }
    SettledExactlyWhen(t, jobs, turns, size, id);
  }

  /** A reconcile can neither settle the row nor change it: its name is refused, its Job still runs, or
      it is UNKNOWN and its Job is not there. */
  predicate Idle(rows: map<string, Row>, jobs: map<string, JobSlot>, id: string) {
    && id in rows && Active(rows[id].status)
    && (|| !MatchesId(id)
        || (JobOf(jobs, id).Live? && StateOf(JobOf(jobs, id)) == JobRunning)
        || (!JobOf(jobs, id).Live? && rows[id].status == Unknown))
  }

  lemma IdleItem(rows: map<string, Row>, jobs: map<string, JobSlot>, id: string, turn: Turn)
    requires Idle(rows, jobs, id) && Quiet(turn)
    ensures Overlay(Attempt(rows, jobs, id, turn).0, turn.writes) == rows
  {
    NamesCohere(id);
    assert rows[id := rows[id]] == rows;
    assert Overlay(rows, map[]) == rows;
  }

  lemma IdleBatch(rows: map<string, Row>, jobs: map<string, JobSlot>, batch: seq<string>, turns: nat -> Turn)
    requires AllQuiet(turns) && forall id :: id in batch ==> Idle(rows, jobs, id)
    ensures RowsAfter(rows, jobs, batch, turns, |batch|) == rows
  {
    var n := 0;
    while n < |batch|
      invariant n <= |batch| && RowsAfter(rows, jobs, batch, turns, n) == rows
    {
      assert Quiet(turns(n)) && batch[n] in batch;
      IdleItem(rows, jobs, batch[n], turns(n));
      OneMoreItem(rows, jobs, batch, turns, n);
      n := n + 1;
    }
  }

  lemma IdleCycle(t: Table, jobs: map<string, JobSlot>, turns: nat -> Turn, size: nat)
    requires AllQuiet(turns) && forall id :: id in Take(Reconcilable(t), size) ==> Idle(t.rows, jobs, id)
    ensures Cycle(t, jobs, turns, size).0 == t
  {
    IdleBatch(t.rows, jobs, Take(Reconcilable(t), size), turns);
  }

  /** When every row of the head is idle, no number of cycles changes anything at all. */
  lemma IdleHeadStopsTheWorker(t: Table, jobs: map<string, JobSlot>, turns: nat -> nat -> Turn, size: nat, c: nat)
    requires EveryCycleQuiet(turns) && forall id :: id in Take(Reconcilable(t), size) ==> Idle(t.rows, jobs, id)
    ensures Cycles(t, jobs, turns, size, c) == t
  {
    var n := 0;
    while n < c
      invariant n <= c && Cycles(t, jobs, turns, size, n) == t
    {
      IdleCycle(t, jobs, turns(n), size);
      n := n + 1;
    }
  }

  // ----- An input on which a finished Job is never read -----

  function Requested(at: int): Row {
    Row("trace", TRAINING_ACTION, at, Executing, Some(Verdict(at, "operator", None)), Some(at), None)
  }

  function LostAndFinished(): Table {
    Table(["a", "b"], map["a" := Requested(0).(status := Unknown, result := Some(Payload(false, true, Fault))),
                          "b" := Requested(1)])
  }

  lemma LostComesFirst()
    ensures Sound(LostAndFinished()) && Reconcilable(LostAndFinished()) == ["a", "b"]
  {
    var t := LostAndFinished();
    assert ["a", "b"][1..] == ["b"] && ["b"][1..] == [];
    assert ActiveIds(["b"], t.rows) == ["b"];
    assert ActiveIds(t.ids, t.rows) == ["a", "b"];
    assert SortByAge(t.rows, ["b"]) == ["b"];
  }

  /** One row is UNKNOWN and its Job is gone; a younger one's Job has completed. With a batch of one, the
      completed Job is never read back. */
  lemma FinishedRowStarves(turns: nat -> nat -> Turn, c: nat)
    requires EveryCycleQuiet(turns)
    ensures var t := LostAndFinished(); var jobs := map[LookupName("b") := Live(0, true, Some(0))];
      && Settles(jobs, "b") && "b" in Reconcilable(t)
      && !SettledBy(t, jobs, turns, 1, "b", c)
  {
    var t := LostAndFinished();
    var jobs := map[LookupName("b") := Live(0, true, Some(0))];
    LostComesFirst();
    LookupsDiffer("a", "b");
    assert Take(["a", "b"], 1) == ["a"];
    StuckHeadStarvesTheRest(t, jobs, turns, 1, "b", c);
  }
}
