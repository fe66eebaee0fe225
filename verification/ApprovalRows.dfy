/** One approval row and the guarded updates that the store commits on it.

Every function below is the effect of one `ApprovalStore` mutator on the row it has
locked: either the new row, or the exception that leaves the row as it was. */
module ApprovalRows {
  import opened Wrappers

  datatype Status = Pending | Approved | Rejected | Executing | Unknown | Completed | Failed

  /** What `kubectl get job` reports about a Job that exists. */
  datatype JobState = JobRunning | JobCompleted | JobFailed

  /** Which code path wrote an execution result. */
  datatype Origin =
    | Applied
    | AppliedOnRetry
    | Refused
    | Fault
    | ReadBack(state: JobState)
    | Inconclusive
    | LeaseExpired(startedAt: int)

  /** The `executed` and `unknown` keys of an execution result, and where it came from. */
  datatype Payload = Payload(executed: bool, unknown: bool, origin: Origin)

  datatype Verdict = Verdict(at: int, who: string, comment: Option<string>)

  datatype Row = Row(
    trace: string,
    action: string,
    requestedAt: int,
    status: Status,
    verdict: Option<Verdict>,
    startedAt: Option<int>,
    result: Option<Payload>)

  datatype Refusal =
    | NotFound
    | AlreadyExists
    | IllegalMove(current: Status, target: Status)
    | NotPositive

  /** A row and whether the caller won the claim on it. */
  datatype Claim = Claim(row: Row, owned: bool)

  predicate Active(s: Status) {
    s == Executing || s == Unknown
  }

  predicate Settled(s: Status) {
    s == Completed || s == Failed
  }

  predicate Final(s: Status) {
    s == Rejected || Settled(s)
  }

  /** The transition table. UNKNOWN to EXECUTING is absent: only a retry claim makes that move. */
  function Targets(s: Status): set<Status> {
    match s
    case Pending => {Approved, Rejected}
    case Approved => {Executing}
    case Executing => {Unknown, Completed, Failed}
    case Unknown => {Completed, Failed}
    case Rejected => {}
    case Completed => {}
    case Failed => {}
  }

  function NewRow(trace: string, action: string, at: int): Row {
    Row(trace, action, at, Pending, None, None, None)
  }

  function Transition(row: Row, target: Status): Result<Row, Refusal> {
    if target in Targets(row.status) then Ok(row.(status := target))
    else Err(IllegalMove(row.status, target))
  }

  function Decide(row: Row, approved: bool, verdict: Verdict): Result<Row, Refusal> {
    match Transition(row, if approved then Approved else Rejected)
    case Err(e) => Err(e)
    case Ok(moved) => Ok(moved.(verdict := Some(verdict)))
  }

  function MarkExecuting(row: Row, clock: int): Result<Row, Refusal> {
    match Transition(row, Executing)
    case Err(e) => Err(e)
    case Ok(moved) => Ok(moved.(startedAt := Some(clock)))
  }

  function ClaimExecution(row: Row, clock: int): Result<Claim, Refusal> {
    if row.status == Executing then Ok(Claim(row, false))
    else
      match MarkExecuting(row, clock)
      case Err(e) => Err(e)
      case Ok(moved) => Ok(Claim(moved, true))
  }

  function MarkUnknown(row: Row, payload: Payload): Result<Row, Refusal> {
    match Transition(row, Unknown)
    case Err(e) => Err(e)
    case Ok(moved) => Ok(moved.(result := Some(payload)))
  }

  /** `mark_completed` and `mark_failed`: a second mark with the same status changes nothing. */
  function MarkSettled(row: Row, target: Status, payload: Payload): Result<Row, Refusal>
    requires Settled(target)
  {
    if row.status == target then Ok(row)
    else
      match Transition(row, target)
      case Err(e) => Err(e)
      case Ok(moved) => Ok(moved.(result := Some(payload)))
  }

  function MarkRetryExecuting(row: Row, clock: int): Result<Row, Refusal> {
    if row.status != Unknown then Err(IllegalMove(row.status, Executing))
    else Ok(row.(status := Executing, startedAt := Some(clock)))
  }

  function ClaimRetry(row: Row, clock: int): Claim {
    match MarkRetryExecuting(row, clock)
    case Err(_) => Claim(row, false)
    case Ok(moved) => Claim(moved, true)
  }

  /** Whether an execution lease taken at `row.startedAt` has run out on this clock. */
  predicate LeaseOver(row: Row, lease: int, clock: int) {
    row.status == Executing && row.startedAt.Some? && row.startedAt.value <= clock - lease
  }

  function RecoverStale(row: Row, lease: int, clock: int): Result<Claim, Refusal> {
    if lease < 1 then Err(NotPositive)
    else if !LeaseOver(row, lease, clock) then Ok(Claim(row, false))
    else
      Ok(Claim(row.(status := Unknown,
                    result := Some(Payload(false, true, LeaseExpired(row.startedAt.value)))), true))
  }

  /** Every status change that any mutator can commit. */
  predicate Edge(before: Status, after: Status) {
    after in Targets(before) || (before == Unknown && after == Executing)
  }
}
