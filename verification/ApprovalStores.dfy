/** The approval store: a table of rows that every mutator updates in one transaction. */
module ApprovalStores {
  import opened Wrappers
  import opened ApprovalRows
  import opened ApprovalTable

  /** The table after a transaction on row `id` that ends in `outcome`: an exception rolls back. */
  function Stored(rows: map<string, Row>, id: string, outcome: Result<Row, Refusal>): map<string, Row> {
    if outcome.Ok? then rows[id := outcome.value] else rows
  }

  function StoredClaim(rows: map<string, Row>, id: string, outcome: Result<Claim, Refusal>): map<string, Row> {
    if outcome.Ok? && outcome.value.owned then rows[id := outcome.value.row] else rows
  }

  class ApprovalStore {
    var ids: seq<string>
    var rows: map<string, Row>

    function Contents(): Table
      reads this
    {
      Table(ids, rows)
    }

    ghost predicate Valid()
      reads this
    {
      Sound(Contents())
    }

    constructor ()
      ensures Valid() && rows == map[]
    {
      ids, rows := [], map[];
    }

    method Create(id: string, trace: string, action: string, at: int, status: Status)
      returns (r: Result<Row, Refusal>)
      requires Valid()
      modifies this
      ensures Valid()
      ensures r == if status != Pending then Err(IllegalMove(status, Pending))
                   else if id in old(rows) then Err(AlreadyExists)
                   else Ok(NewRow(trace, action, at))
      ensures rows == Stored(old(rows), id, r)
      ensures ids == if r.Ok? then old(ids) + [id] else old(ids)
    {
      if status != Pending {
        return Err(IllegalMove(status, Pending));
      }
      if id in rows {
        return Err(AlreadyExists);
      }
      var row := NewRow(trace, action, at);
      rows := rows[id := row];
      ids := ids + [id];
      return Ok(row);
    }

    method Get(id: string) returns (row: Option<Row>)
      ensures row == RowAt(rows, id)
    {
      if id in rows {
        return Some(rows[id]);
      }
      return None;
    }

    method CountStatuses() returns (counts: map<Status, nat>)
      requires Valid()
      ensures counts == StatusCounts(rows)
      ensures Sum(counts) == |rows|
      ensures counts[Executing] + counts[Unknown] == |Reconcilable(Contents())|
    {
      counts := StatusCounts(rows);
      CountsAddUp(rows);
      ReconcilableCount(Contents());
    }

    method ListReconcilable(limit: int) returns (r: Result<seq<string>, Refusal>)
      requires Valid()
      ensures r == if limit < 1 then Err(NotPositive) else Ok(Take(Reconcilable(Contents()), limit))
      ensures r.Ok? ==>
        && OldestFirst(rows, r.value) && Distinct(r.value)
        && (forall id :: id in r.value ==> id in rows && Active(rows[id].status))
        && (|r.value| < limit ==> forall id :: id in rows && Active(rows[id].status) ==> id in r.value)
        && (forall kept, left :: kept in r.value && left in rows && Active(rows[left].status) && left !in r.value ==>
              RequestedAt(rows, kept) <= RequestedAt(rows, left))
    {
      if limit < 1 {
        return Err(NotPositive);
      }
      ReconcilableFacts(Contents());
      forall kept, left | kept in Take(Reconcilable(Contents()), limit) && left in Reconcilable(Contents())
                          && left !in Take(Reconcilable(Contents()), limit)
        ensures RequestedAt(rows, kept) <= RequestedAt(rows, left)
      {
        LimitKeepsOldest(Contents(), limit, kept, left);
      }
      return Ok(Take(Reconcilable(Contents()), limit));
    }

    method Decide(id: string, approved: bool, verdict: Verdict) returns (r: Result<Row, Refusal>)
      requires Valid()
      modifies this`rows
      ensures Valid()
      ensures r == if id in old(rows) then ApprovalRows.Decide(old(rows)[id], approved, verdict) else Err(NotFound)
      ensures rows == Stored(old(rows), id, r)
    {
      if id !in rows {
        return Err(NotFound);
      }
      var row := rows[id];
      var target := if approved then Approved else Rejected;
      if target !in Targets(row.status) {
        return Err(IllegalMove(row.status, target));
      }
      row := row.(status := target);
      row := row.(verdict := Some(verdict));
      rows := rows[id := row];
      return Ok(row);
    }

    method MarkExecuting(id: string, clock: int) returns (r: Result<Row, Refusal>)
      requires Valid()
      modifies this`rows
      ensures Valid()
      ensures r == if id in old(rows) then ApprovalRows.MarkExecuting(old(rows)[id], clock) else Err(NotFound)
      ensures rows == Stored(old(rows), id, r)
    {
      if id !in rows {
        return Err(NotFound);
      }
      var row := rows[id];
      if Executing !in Targets(row.status) {
        return Err(IllegalMove(row.status, Executing));
      }
      row := row.(status := Executing);
      row := row.(startedAt := Some(clock));
      rows := rows[id := row];
      return Ok(row);
    }

    method ClaimExecution(id: string, clock: int) returns (r: Result<Claim, Refusal>)
      requires Valid()
      modifies this`rows
      ensures Valid()
      ensures r == if id in old(rows) then ApprovalRows.ClaimExecution(old(rows)[id], clock) else Err(NotFound)
      ensures rows == StoredClaim(old(rows), id, r)
    {
      if id !in rows {
        return Err(NotFound);
      }
      var row := rows[id];
      if row.status == Executing {
        return Ok(Claim(row, false));
      }
      if Executing !in Targets(row.status) {
        return Err(IllegalMove(row.status, Executing));
      }
      row := row.(status := Executing);
      row := row.(startedAt := Some(clock));
      rows := rows[id := row];
      return Ok(Claim(row, true));
    }

    method MarkUnknown(id: string, payload: Payload) returns (r: Result<Row, Refusal>)
      requires Valid()
      modifies this`rows
      ensures Valid()
      ensures r == if id in old(rows) then ApprovalRows.MarkUnknown(old(rows)[id], payload) else Err(NotFound)
      ensures rows == Stored(old(rows), id, r)
    {
      if id !in rows {
        return Err(NotFound);
      }
      var row := rows[id];
      if Unknown !in Targets(row.status) {
        return Err(IllegalMove(row.status, Unknown));
      }
      row := row.(status := Unknown);
      row := row.(result := Some(payload));
      rows := rows[id := row];
      return Ok(row);
    }

    /** `mark_completed` and `mark_failed`, which differ only in the status they write. */
    method MarkSettled(id: string, target: Status, payload: Payload) returns (r: Result<Row, Refusal>)
      requires Valid() && Settled(target)
      modifies this`rows
      ensures Valid()
      ensures r == if id in old(rows) then ApprovalRows.MarkSettled(old(rows)[id], target, payload) else Err(NotFound)
      ensures rows == Stored(old(rows), id, r)
    {
      if id !in rows {
        return Err(NotFound);
      }
      var row := rows[id];
      if row.status != target {
        if target !in Targets(row.status) {
          return Err(IllegalMove(row.status, target));
        }
        row := row.(status := target);
        row := row.(result := Some(payload));
        rows := rows[id := row];
      }
      return Ok(row);
    }

    method MarkRetryExecuting(id: string, clock: int) returns (r: Result<Row, Refusal>)
      requires Valid()
      modifies this`rows
      ensures Valid()
      ensures r == if id in old(rows) then ApprovalRows.MarkRetryExecuting(old(rows)[id], clock) else Err(NotFound)
      ensures rows == Stored(old(rows), id, r)
    {
      if id !in rows {
        return Err(NotFound);
      }
      var row := rows[id];
      if row.status != Unknown {
        return Err(IllegalMove(row.status, Executing));
      }
      row := row.(status := Executing);
      row := row.(startedAt := Some(clock));
      rows := rows[id := row];
      return Ok(row);
    }

    method ClaimRetryExecution(id: string, clock: int) returns (r: Result<Claim, Refusal>)
      requires Valid()
      modifies this`rows
      ensures Valid()
      ensures r == if id in old(rows) then Ok(ClaimRetry(old(rows)[id], clock)) else Err(NotFound)
      ensures rows == StoredClaim(old(rows), id, r)
    {
      if id !in rows {
        return Err(NotFound);
      }
      var row := rows[id];
      if row.status != Unknown {
        return Ok(Claim(row, false));
      }
      row := row.(status := Executing);
      row := row.(startedAt := Some(clock));
      rows := rows[id := row];
      return Ok(Claim(row, true));
    }

    method RecoverStaleExecution(id: string, lease: int, clock: int) returns (r: Result<Claim, Refusal>)
      requires Valid()
      modifies this`rows
      ensures Valid()
      ensures r == if lease < 1 then Err(NotPositive)
                   else if id in old(rows) then RecoverStale(old(rows)[id], lease, clock)
                   else Err(NotFound)
      ensures rows == StoredClaim(old(rows), id, r)
    {
      if lease < 1 {
        return Err(NotPositive);
      }
      if id !in rows {
        return Err(NotFound);
      }
      var row := rows[id];
      if row.status != Executing || row.startedAt.None? {
        return Ok(Claim(row, false));
      }
      var startedAt := row.startedAt.value;
      var cutoff := clock - lease;
      if startedAt > cutoff {
        return Ok(Claim(row, false));
      }
      row := row.(status := Unknown);
      row := row.(result := Some(Payload(false, true, LeaseExpired(startedAt))));
      rows := rows[id := row];
      return Ok(Claim(row, true));
    }
  }
}
