/** The reconciliation worker: one lock-holding cycle over a bounded batch, and what cycles achieve.

A `Turn` says what the environment does around one item of a batch: how the read and the clock turn
out, whether an audit write fails, which rows other processes write before the next item, whether the
worker's database session ends before the item, and which rivals' attempts at the lock fail. */
module ReconciliationWorkers {
  import opened Wrappers
  import opened ApprovalRows
  import opened ApprovalProtocol
  import opened ApprovalTable
  import opened ApprovalStores
  import opened ControlPlane
  import opened JobNames
  import opened SoloReconcile
  import opened AdvisoryLocks

  datatype Turn = Turn(
    oracle: Oracle,
    firstAuditFails: bool,
    lastAuditFails: bool,
    writes: map<string, Row>,
    sessionEnds: bool,
    failing: set<nat>)

  /** Other processes write some of the rows. */
  function Overlay(rows: map<string, Row>, writes: map<string, Row>): (after: map<string, Row>)
    ensures after.Keys == rows.Keys
  {
    map id | id in rows :: if id in writes then writes[id] else rows[id]
  }

  /** `service.reconcile(id)` as the worker sees it: the rows afterwards, and whether it returned. */
  function Attempt(rows: map<string, Row>, jobs: map<string, JobSlot>, id: string, turn: Turn)
    : (map<string, Row>, bool)
  {
    if id !in rows then (rows, false)
    else if !Active(rows[id].status) then (rows, true)
    else if turn.firstAuditFails || !MatchesName(LookupName(id)) then (rows, false)
    else
      match Alone(rows[id], Lookup(jobs, LookupName(id), Never), turn.oracle)
      case Raised(_) => (rows, false)
      case Returned(row, _) => (rows[id := row], !turn.lastAuditFails)
  }

  /** The rows after the first `n` items of a batch. */
  function RowsAfter(rows: map<string, Row>, jobs: map<string, JobSlot>, batch: seq<string>, turns: nat -> Turn, n: nat)
    : map<string, Row>
    requires n <= |batch|
  {
    if n == 0 then rows
    else
      var tried := Attempt(RowsAfter(rows, jobs, batch, turns, n - 1), jobs, batch[n - 1], turns(n - 1));
      Overlay(tried.0, turns(n - 1).writes)
  }

  /** How many of the first `n` items return. */
  function ReturnedOf(rows: map<string, Row>, jobs: map<string, JobSlot>, batch: seq<string>, turns: nat -> Turn,
                      n: nat)
    : (count: nat)
    requires n <= |batch|
    ensures count <= n
  {
    if n == 0 then 0
    else
      ReturnedOf(rows, jobs, batch, turns, n - 1)
      + if Attempt(RowsAfter(rows, jobs, batch, turns, n - 1), jobs, batch[n - 1], turns(n - 1)).1 then 1 else 0
  }

  lemma OneMoreItem(rows: map<string, Row>, jobs: map<string, JobSlot>, batch: seq<string>, turns: nat -> Turn, n: nat)
    requires n < |batch|
    ensures var tried := Attempt(RowsAfter(rows, jobs, batch, turns, n), jobs, batch[n], turns(n));
      && RowsAfter(rows, jobs, batch, turns, n + 1) == Overlay(tried.0, turns(n).writes)
      && ReturnedOf(rows, jobs, batch, turns, n + 1) ==
         ReturnedOf(rows, jobs, batch, turns, n) + if tried.1 then 1 else 0
  {
  }

  /** Where a cycle stands after `n` items. */
  predicate CycleAt(rows: map<string, Row>, jobs: map<string, JobSlot>, batch: seq<string>, turns: nat -> Turn, n: nat,
                    now: map<string, Row>, processed: nat, failed: nat)
    requires n <= |batch|
  {
    && now == RowsAfter(rows, jobs, batch, turns, n)
    && processed == ReturnedOf(rows, jobs, batch, turns, n)
    && processed + failed == n
  }

  lemma CycleOn(rows: map<string, Row>, jobs: map<string, JobSlot>, batch: seq<string>, turns: nat -> Turn, n: nat,
                now: map<string, Row>, processed: nat, failed: nat, after: map<string, Row>, returned: bool)
    requires n < |batch| && CycleAt(rows, jobs, batch, turns, n, now, processed, failed)
    requires returned == Attempt(now, jobs, batch[n], turns(n)).1
    requires after == Overlay(Attempt(now, jobs, batch[n], turns(n)).0, turns(n).writes)
    ensures CycleAt(rows, jobs, batch, turns, n + 1, after, if returned then processed + 1 else processed,
                    if returned then failed else failed + 1)
  {
    OneMoreItem(rows, jobs, batch, turns, n);
  }

  /** Whether the session ends before one of the first `n` items. */
  predicate EndsWithin(turns: nat -> Turn, n: nat) {
    n > 0 && (turns(n - 1).sessionEnds || EndsWithin(turns, n - 1))
  }

  datatype CycleFailure = AcquireFailed | LoadFailed | ReleaseFailed | BadInterval | BadBatchSize

  class ReconciliationWorker {
    const store: ApprovalStore
    const lock: PostgresAdvisoryLock
    const interval: int
    const batchSize: int

    constructor (store: ApprovalStore, lock: PostgresAdvisoryLock, interval: int, batchSize: int)
      ensures this.store == store && this.lock == lock && this.interval == interval && this.batchSize == batchSize
    {
      this.store, this.lock, this.interval, this.batchSize := store, lock, interval, batchSize;
    }

    /** The settings that the constructor accepts. */
    static method Build(store: ApprovalStore, lock: PostgresAdvisoryLock, interval: int, batchSize: int)
      returns (r: Result<ReconciliationWorker, CycleFailure>)
      ensures r.Ok? <==> interval >= 1 && batchSize >= 1
      ensures r.Ok? ==> r.value.store == store && r.value.lock == lock && r.value.batchSize == batchSize
      ensures r.Err? ==> r.error == if interval < 1 then BadInterval else BadBatchSize
    {
      if interval < 1 {
        return Err(BadInterval);
      }
      if batchSize < 1 {
        return Err(BadBatchSize);
      }
      var worker := new ReconciliationWorker(store, lock, interval, batchSize);
      return Ok(worker);
    }

    /** One item of the batch. */
    method Reconcile(jobs: map<string, JobSlot>, id: string, turn: Turn) returns (returned: bool)
      requires store.Valid()
      modifies store`rows
      ensures store.Valid() && (store.rows, returned) == Attempt(old(store.rows), jobs, id, turn)
    {
      var (rows, ok) := Attempt(store.rows, jobs, id, turn);
      store.rows := rows;
      return ok;
    }

    /** `list_reconcilable(limit=batch_size)`. */
    method Load() returns (batch: seq<string>)
      requires store.Valid() && batchSize >= 1
      ensures batch == Take(Reconcilable(store.Contents()), batchSize)
    {
      var listed := store.ListReconcilable(batchSize);
      return listed.value;
    }

    /** Other processes write rows. */
    method Overwritten(writes: map<string, Row>)
      requires store.Valid()
      modifies store`rows
      ensures store.Valid() && store.rows == Overlay(old(store.rows), writes)
    {
      store.rows := Overlay(store.rows, writes);
    }

    /** One turn of the loop: the session may end, rivals try the lock, the item is reconciled, others
        write rows. */
    method Turned(jobs: map<string, JobSlot>, id: string, turn: Turn, rivals: seq<PostgresAdvisoryLock>)
      returns (returned: bool)
      requires store.Valid() && Inside(rivals)
      modifies store`rows, lock, lock.server`owner, rivals
      ensures store.Valid() && Inside(rivals)
      ensures lock.broken <==> old(lock.broken) || turn.sessionEnds
      ensures returned == Attempt(old(store.rows), jobs, id, turn).1
      ensures store.rows == Overlay(Attempt(old(store.rows), jobs, id, turn).0, turn.writes)
    {
      if turn.sessionEnds {
        lock.SessionEnds();
      }
      var admitted := Rivals(lock, rivals, turn.failing);
      assert !lock.broken ==> !admitted;
      returned := Reconcile(jobs, id, turn);
      Overwritten(turn.writes);
    }

    /** This worker is between a successful acquire and its release, and as long as its session lives none
        of the rivals is. */
    ghost predicate Inside(rivals: seq<PostgresAdvisoryLock>)
      reads lock, lock.server, lock.server.clients, rivals
    {
      && lock.server.Valid() && lock in lock.server.clients && lock.connected
      && (forall t :: t in rivals ==> t in lock.server.clients && t != lock)
      && (!lock.broken ==> forall t :: t in rivals ==> !t.connected)
    }

    /** The loop of `run_once` after `n` items; `ended` is whether the session had ended before it. */
    ghost predicate Midway(rows: map<string, Row>, jobs: map<string, JobSlot>, batch: seq<string>,
                           turns: nat -> Turn, n: nat, processed: nat, failed: nat,
                           rivals: seq<PostgresAdvisoryLock>, ended: bool)
      requires n <= |batch|
      reads store, lock, lock.server, lock.server.clients, rivals
    {
      && store.Valid() && Inside(rivals)
      && CycleAt(rows, jobs, batch, turns, n, store.rows, processed, failed)
      && (lock.broken <==> ended || EndsWithin(turns, n))
    }

    /** One round of the loop: the item counts as processed if it returns and as failed if it raises. */
    method RunItem(ghost rows: map<string, Row>, jobs: map<string, JobSlot>, batch: seq<string>, turns: nat -> Turn,
                   n: nat, processed: nat, failed: nat, rivals: seq<PostgresAdvisoryLock>, ghost ended: bool)
      returns (nextProcessed: nat, nextFailed: nat)
      requires n < |batch| && Midway(rows, jobs, batch, turns, n, processed, failed, rivals, ended)
      modifies store`rows, lock, lock.server`owner, rivals
      ensures Midway(rows, jobs, batch, turns, n + 1, nextProcessed, nextFailed, rivals, ended)
    {
      ghost var now := store.rows;
      var returned := Turned(jobs, batch[n], turns(n), rivals);
      CycleOn(rows, jobs, batch, turns, n, now, processed, failed, store.rows, returned);
      nextProcessed := if returned then processed + 1 else processed;
      nextFailed := if returned then failed else failed + 1;
    }

    /** The loop of `run_once`. */
    method RunBatch(jobs: map<string, JobSlot>, batch: seq<string>, turns: nat -> Turn,
                    rivals: seq<PostgresAdvisoryLock>)
      returns (attempted: seq<string>, processed: nat, failed: nat)
      requires store.Valid() && Inside(rivals)
      modifies store`rows, lock, lock.server`owner, rivals
      ensures store.Valid() && Inside(rivals)
      ensures lock.broken <==> old(lock.broken) || EndsWithin(turns, |batch|)
      ensures attempted == batch && processed + failed == |batch|
      ensures processed == ReturnedOf(old(store.rows), jobs, batch, turns, |batch|)
      ensures store.rows == RowsAfter(old(store.rows), jobs, batch, turns, |batch|)
    {
      attempted, processed, failed := [], 0, 0;
      ghost var rows, ended := store.rows, lock.broken;
      for n := 0 to |batch|
        invariant attempted == batch[..n]
        invariant Midway(rows, jobs, batch, turns, n, processed, failed, rivals, ended)
      {
        attempted := attempted + [batch[n]];
        processed, failed := RunItem(rows, jobs, batch, turns, n, processed, failed, rivals, ended);
      }
    }

    /** `run_once`: the count it returns or the exception it raises, the ids it tried in order, and how
        many of them failed. `rivals` are other workers' locks, which try to get in at every item. */
    method RunOnce(jobs: map<string, JobSlot>, turns: nat -> Turn, acquireFails: bool, loadFails: bool,
                   rivals: seq<PostgresAdvisoryLock>)
      returns (r: Result<nat, CycleFailure>, attempted: seq<string>, failed: nat)
      requires store.Valid() && batchSize >= 1
      requires lock.server.Valid() && lock in lock.server.clients && !lock.connected
      requires forall t :: t in rivals ==> t in lock.server.clients && t != lock && !t.connected
      modifies store`rows, lock, lock.server`owner, rivals
      ensures store.Valid() && lock.server.Valid() && !lock.connected
      ensures var batch := Take(Reconcilable(old(store.Contents())), batchSize);
        if acquireFails then
          && r == Err(AcquireFailed) && attempted == []
          && store.rows == old(store.rows) && lock.server.owner == old(lock.server.owner)
        else if old(lock.server.owner) != null then
          r == Ok(0) && attempted == [] && store.rows == old(store.rows) && lock.server.owner == old(lock.server.owner)
        else if loadFails then
          r == Err(LoadFailed) && attempted == [] && store.rows == old(store.rows) && lock.server.owner == null
        else
          && attempted == batch
          && failed + ReturnedOf(old(store.rows), jobs, batch, turns, |batch|) == |batch|
          && store.rows == RowsAfter(old(store.rows), jobs, batch, turns, |batch|)
          && if EndsWithin(turns, |batch|) then r == Err(ReleaseFailed)
             else r == Ok(|batch| - failed) && lock.server.owner == null && forall t :: t in rivals ==> !t.connected
    {
      var acquired, refused := lock.TryAcquire(acquireFails);
      if refused {
        return Err(AcquireFailed), [], 0;
      }
      if !acquired {
        return Ok(0), [], 0;
      }
      if loadFails {
        var _ := lock.Release();
        return Err(LoadFailed), [], 0;
      }
      var batch := Load();
      var processed;
      attempted, processed, failed := RunBatch(jobs, batch, turns, rivals);
      var raised := lock.Release();
      return if raised then Err(ReleaseFailed) else Ok(processed), attempted, failed;
    }
  }
}
