/** What worker cycles achieve when every Job has finished: they drain the reconcilable rows. */
module CycleDrain {
  import opened Wrappers
  import opened ApprovalRows
  import opened ApprovalProtocol
  import opened ApprovalTable
  import opened ControlPlane
  import opened JobNames
  import opened ReconciliationWorkers

  /** Nothing fails, the read is truthful and nobody else writes. */
  predicate Quiet(turn: Turn) {
    turn.oracle.read == ReadHonestly && !turn.firstAuditFails && !turn.lastAuditFails && turn.writes == map[]
  }

  ghost predicate AllQuiet(turns: nat -> Turn) {
    forall i :: Quiet(turns(i))
  }

  function JobOf(jobs: map<string, JobSlot>, id: string): JobSlot {
    Lookup(jobs, LookupName(id), Never)
  }

  predicate Finished(job: JobSlot) {
    job.Live? && StateOf(job) != JobRunning
  }

  /** Reconciling the row settles it: its Job can be looked up and has finished. */
  predicate Settles(jobs: map<string, JobSlot>, id: string) {
    MatchesId(id) && Finished(JobOf(jobs, id))
  }

  ghost predicate AllFinished(rows: map<string, Row>, jobs: map<string, JobSlot>) {
    forall id :: id in rows && Active(rows[id].status) ==> Settles(jobs, id)
  }

  /** The row with the outcome of its Job. */
  function Concluded(row: Row, job: JobSlot): Row
    requires Finished(job)
  {
    row.(status := ReadBackStatus(StateOf(job)), result := Some(ReadBackPayload(StateOf(job))))
  }

  /** What a quiet item makes of an active row. */
  predicate Outcome(jobs: map<string, JobSlot>, id: string, before: Row, after: Row) {
    if Settles(jobs, id) then after == Concluded(before, JobOf(jobs, id))
    else Active(after.status) && after.requestedAt == before.requestedAt
  }

  lemma QuietItem(rows: map<string, Row>, jobs: map<string, JobSlot>, id: string, turn: Turn)
    requires id in rows && Active(rows[id].status) && Quiet(turn)
    ensures var (after, returned) := Attempt(rows, jobs, id, turn);
      && id in after && after == rows[id := after[id]] && Outcome(jobs, id, rows[id], after[id])
      && (Settles(jobs, id) ==> returned)
      && Overlay(after, turn.writes) == after
  {
    NamesCohere(id);
    var (after, returned) := Attempt(rows, jobs, id, turn);
    assert after == rows || after == rows[id := after[id]];
  }

  /** After quiet items: the rows tried have their outcome and the others are as they were. */
  ghost predicate Advanced(rows: map<string, Row>, jobs: map<string, JobSlot>, done: seq<string>,
                           after: map<string, Row>)
  {
    && after.Keys == rows.Keys
    && forall id :: id in rows ==>
         if id in done then Outcome(jobs, id, rows[id], after[id]) else after[id] == rows[id]
  }

  lemma QuietStep(rows: map<string, Row>, jobs: map<string, JobSlot>, done: seq<string>, before: map<string, Row>,
                  id: string, turn: Turn)
    requires Advanced(rows, jobs, done, before) && id in rows && id !in done && Active(rows[id].status) && Quiet(turn)
    ensures Advanced(rows, jobs, done + [id], Overlay(Attempt(before, jobs, id, turn).0, turn.writes))
    ensures Settles(jobs, id) ==> Attempt(before, jobs, id, turn).1
  {
    assert id in before.Keys && before[id] == rows[id];
    QuietItem(before, jobs, id, turn);
  }

  /** The batch lists reconcilable rows, each once. */
  ghost predicate Listed(rows: map<string, Row>, batch: seq<string>) {
    Distinct(batch) && forall id :: id in batch ==> id in rows && Active(rows[id].status)
  }

  lemma NextStep(rows: map<string, Row>, jobs: map<string, JobSlot>, batch: seq<string>, turn: Turn, n: nat,
                 before: map<string, Row>)
    requires n < |batch| && Listed(rows, batch) && Quiet(turn) && Advanced(rows, jobs, batch[..n], before)
    ensures Advanced(rows, jobs, batch[..n + 1], Overlay(Attempt(before, jobs, batch[n], turn).0, turn.writes))
    ensures Settles(jobs, batch[n]) ==> Attempt(before, jobs, batch[n], turn).1
  {
    assert batch[n] in batch && batch[n] !in batch[..n];
    assert batch[..n + 1] == batch[..n] + [batch[n]];
    QuietStep(rows, jobs, batch[..n], before, batch[n], turn);
  }

  /** After the first `n` items of a quiet batch; all of them returned if all of them settle. */
  ghost predicate QuietUpTo(rows: map<string, Row>, jobs: map<string, JobSlot>, batch: seq<string>,
                            turns: nat -> Turn, n: nat)
    requires n <= |batch|
  {
    && Advanced(rows, jobs, batch[..n], RowsAfter(rows, jobs, batch, turns, n))
    && ((forall id :: id in batch ==> Settles(jobs, id)) ==> ReturnedOf(rows, jobs, batch, turns, n) == n)
  }

  lemma QuietNext(rows: map<string, Row>, jobs: map<string, JobSlot>, batch: seq<string>, turns: nat -> Turn, n: nat)
    requires n < |batch| && Listed(rows, batch) && Quiet(turns(n)) && QuietUpTo(rows, jobs, batch, turns, n)
    ensures QuietUpTo(rows, jobs, batch, turns, n + 1)
  {
    NextStep(rows, jobs, batch, turns(n), n, RowsAfter(rows, jobs, batch, turns, n));
    OneMoreItem(rows, jobs, batch, turns, n);
    assert batch[n] in batch;
  }

  lemma {:induction false} QuietItems(rows: map<string, Row>, jobs: map<string, JobSlot>, batch: seq<string>,
                                      turns: nat -> Turn, n: nat)
    requires n <= |batch| && Listed(rows, batch) && AllQuiet(turns)
    ensures QuietUpTo(rows, jobs, batch, turns, n)
  {
    if n > 0 {
      QuietItems(rows, jobs, batch, turns, n - 1);
      assert Quiet(turns(n - 1));
      QuietNext(rows, jobs, batch, turns, n - 1);
    }
  }

  lemma QuietBatch(rows: map<string, Row>, jobs: map<string, JobSlot>, batch: seq<string>, turns: nat -> Turn)
    requires Listed(rows, batch) && AllQuiet(turns)
    ensures QuietUpTo(rows, jobs, batch, turns, |batch|)
  {
    QuietItems(rows, jobs, batch, turns, |batch|);
  }

  function Min(a: nat, b: nat): nat {
    if a <= b then a else b
  }

  /** The table after one cycle, and how many items it processed. */
  function Cycle(t: Table, jobs: map<string, JobSlot>, turns: nat -> Turn, size: nat): (Table, nat) {
    var batch := Take(Reconcilable(t), size);
    (Table(t.ids, RowsAfter(t.rows, jobs, batch, turns, |batch|)), ReturnedOf(t.rows, jobs, batch, turns, |batch|))
  }

  lemma MembersCount(t: Table, members: set<string>)
    requires Sound(t) && forall id :: id in members <==> id in t.rows && Active(t.rows[id].status)
    ensures |Reconcilable(t)| == |members|
  {
    ReconcilableFacts(t);
    DistinctCardinality(Reconcilable(t), members);
  }

  lemma BatchFacts(t: Table, size: nat)
    requires Sound(t)
    ensures var batch := Take(Reconcilable(t), size);
      |batch| == Min(|Reconcilable(t)|, size) && Listed(t.rows, batch)
  {
    ReconcilableFacts(t);
    var batch := Take(Reconcilable(t), size);
    forall id | id in batch ensures id in Reconcilable(t) {
      var i :| 0 <= i < |batch| && batch[i] == id;
      assert Reconcilable(t)[i] == id;
    }
  }

  lemma ActiveAfterwards(t: Table, after: Table, jobs: map<string, JobSlot>, batch: seq<string>, active: set<string>)
    requires Sound(t) && AllFinished(t.rows, jobs)
    requires after.ids == t.ids && Listed(t.rows, batch) && Advanced(t.rows, jobs, batch, after.rows)
    requires forall id :: id in active <==> id in t.rows && Active(t.rows[id].status)
    ensures Sound(after)
    ensures forall id :: id in active && id !in batch <==> id in after.rows && Active(after.rows[id].status)
  {
    forall id ensures id in after.rows <==> id in t.rows {
      assert id in after.rows.Keys <==> id in t.rows.Keys;
    }
  }

  lemma ConcludedRowsLeave(t: Table, after: Table, jobs: map<string, JobSlot>, batch: seq<string>)
    requires Sound(t) && AllFinished(t.rows, jobs)
    requires after.ids == t.ids && Listed(t.rows, batch) && Advanced(t.rows, jobs, batch, after.rows)
    ensures Sound(after) && |Reconcilable(after)| == |Reconcilable(t)| - |batch|
  {
    var active := set id | id in t.rows && Active(t.rows[id].status);
    var tried := set id | id in batch;
    ActiveAfterwards(t, after, jobs, batch, active);
    MembersCount(t, active);
    DistinctCardinality(batch, tried);
    MembersCount(after, active - tried);
    assert tried <= active;
  }

  lemma FinishedStays(rows: map<string, Row>, jobs: map<string, JobSlot>, batch: seq<string>, after: map<string, Row>)
    requires AllFinished(rows, jobs) && Listed(rows, batch) && Advanced(rows, jobs, batch, after)
    ensures AllFinished(after, jobs)
  {
    forall id | id in after && Active(after[id].status) ensures Settles(jobs, id) {
      assert id in after.Keys;
    }
  }

  /** With every Job finished and nothing in the way, one cycle settles exactly as many rows as its
      batch holds, returns that number and leaves every other row alone. */
  lemma CycleSettlesItsBatch(t: Table, jobs: map<string, JobSlot>, turns: nat -> Turn, size: nat)
    requires Sound(t) && AllFinished(t.rows, jobs) && AllQuiet(turns)
    ensures var (after, returned) := Cycle(t, jobs, turns, size); var batch := Take(Reconcilable(t), size);
      && Sound(after) && AllFinished(after.rows, jobs)
      && Advanced(t.rows, jobs, batch, after.rows)
      && returned == |batch| == Min(|Reconcilable(t)|, size)
      && |Reconcilable(after)| == |Reconcilable(t)| - returned
  {
    var batch := Take(Reconcilable(t), size);
    BatchFacts(t, size);
    QuietBatch(t.rows, jobs, batch, turns);
    assert batch[..|batch|] == batch;
    var after := Cycle(t, jobs, turns, size).0;
    ConcludedRowsLeave(t, after, jobs, batch);
    FinishedStays(t.rows, jobs, batch, after.rows);
  }

  /** The table after `c` cycles. */
  function Cycles(t: Table, jobs: map<string, JobSlot>, turns: nat -> nat -> Turn, size: nat, c: nat): Table {
    if c == 0 then t else Cycle(Cycles(t, jobs, turns, size, c - 1), jobs, turns(c - 1), size).0
  }

  ghost predicate EveryCycleQuiet(turns: nat -> nat -> Turn) {
    forall c :: AllQuiet(turns(c))
  }

  /** What `c` full batches hold. */
  function Taken(size: nat, c: nat): nat {
    if c == 0 then 0 else Taken(size, c - 1) + size
  }

  /** After `c` cycles, `c` batches are gone from the reconcilable rows. */
  ghost predicate DrainedBy(t: Table, jobs: map<string, JobSlot>, size: nat, c: nat, after: Table) {
    && Sound(after) && AllFinished(after.rows, jobs)
    && |Reconcilable(after)| == |Reconcilable(t)| - Min(|Reconcilable(t)|, Taken(size, c))
  }

  lemma DrainsOn(t: Table, jobs: map<string, JobSlot>, size: nat, c: nat, after: Table, turns: nat -> Turn)
    requires DrainedBy(t, jobs, size, c, after) && AllQuiet(turns)
    ensures DrainedBy(t, jobs, size, c + 1, Cycle(after, jobs, turns, size).0)
  {
    CycleSettlesItsBatch(after, jobs, turns, size);
  }

  lemma CyclesDrain(t: Table, jobs: map<string, JobSlot>, turns: nat -> nat -> Turn, size: nat, c: nat)
    requires Sound(t) && AllFinished(t.rows, jobs) && EveryCycleQuiet(turns)
    ensures DrainedBy(t, jobs, size, c, Cycles(t, jobs, turns, size, c))
  {
    var n := 0;
    while n < c
      invariant n <= c && DrainedBy(t, jobs, size, n, Cycles(t, jobs, turns, size, n))
    {
      DrainsOn(t, jobs, size, n, Cycles(t, jobs, turns, size, n), turns(n));
      n := n + 1;
    }
  }

  /** `n / size`, rounded up. */
  function CyclesNeeded(n: nat, size: nat): nat
    requires size >= 1
  {
    (n + size - 1) / size
  }

  lemma {:induction false} TakenIsProduct(size: nat, c: nat)
    ensures Taken(size, c) == c * size
  {
    if c > 0 {
      TakenIsProduct(size, c - 1);
    }
  }

  lemma {:induction false} TakenGrows(size: nat, c: nat, d: nat)
    requires c <= d
    ensures Taken(size, c) <= Taken(size, d)
    decreases d
  {
    if c < d {
      TakenGrows(size, c, d - 1);
    }
  }

  lemma CeilingIsLeast(n: nat, size: nat, c: nat)
    requires size >= 1
    ensures c >= CyclesNeeded(n, size) <==> Taken(size, c) >= n
  {
    var q := CyclesNeeded(n, size);
    TakenIsProduct(size, q);
    assert q * size <= n + size - 1 < q * size + size;
    if c >= q {
      TakenGrows(size, q, c);
    } else {
      TakenGrows(size, c, q - 1);
    }
  }

  /** The reconcilable rows are gone after exactly as many cycles as there are batches in them. */
  lemma DrainedExactlyWhen(t: Table, jobs: map<string, JobSlot>, turns: nat -> nat -> Turn, size: nat, c: nat)
    requires Sound(t) && AllFinished(t.rows, jobs) && EveryCycleQuiet(turns) && size >= 1
    ensures Reconcilable(Cycles(t, jobs, turns, size, c)) == [] <==> c >= CyclesNeeded(|Reconcilable(t)|, size)
  {
    CyclesDrain(t, jobs, turns, size, c);
    CeilingIsLeast(|Reconcilable(t)|, size, c);
  }
}
