/** The execution protocol of one approval as a transition system.

A state holds the approval's row, its Job in the cluster, the `kubectl apply` requests under
way, the processes working on the approval, its audit events and a clock. An `Action` names
one atomic step and carries every choice the environment makes, so `Next` is a function and a
sequence of actions is one interleaving. An action that is not enabled changes nothing. */
module ApprovalProtocol {
  import opened Wrappers
  import opened ApprovalRows

  /** `ttlSecondsAfterFinished` of the training manifest. */
  const TTL := 86400

  const TRAINING_ACTION := "create_training_job"

  // ----- The cluster -----

  /** `Gone` is a Job that finished and was deleted by the TTL controller. */
  datatype JobSlot =
    | Never
    | Live(failedPods: nat, completed: bool, finishedAt: Option<int>)
    | Gone(endedAt: int)

  /** An apply request that has left a process and may still reach the API server.
      `claimedAt` is the time at which the sender claimed the row. */
  datatype Flight = Flight(claimedAt: int, issuedAt: int)

  /** What a status read tells its caller. */
  datatype Report = Saw(state: JobState) | SaysAbsent | SaysUnavailable | ReadRaised

  /** How an apply call ends for its caller. */
  datatype Reply = ApplyExecuted | ApplyRefused | ApplyTimedOut | ApplyRaised

  function StateOf(job: JobSlot): JobState
    requires job.Live?
  {
    if job.completed then JobCompleted
    else if job.failedPods > 0 then JobFailed
    else JobRunning
  }

  /** The report that a truthful read gives. */
  function Truth(job: JobSlot): Report {
    if job.Live? then Saw(StateOf(job)) else SaysAbsent
  }

  // ----- Processes -----

  datatype Caller = ExecuteHandler | ServiceCall | RetryCall

  datatype Task =
    | DoCreate(trace: string, action: string)
    | DoDecide(approved: bool, who: string, comment: Option<string>)
    | DoExecute(caller: Caller)
    | DoReconcile

  datatype Event =
    | ApprovalRequested
    | ApprovalDecided(approved: bool)
    | ExecutionStarted
    | ExecutionUnknown
    | ReconciliationStarted(seen: Status)
    | ReconciliationCompleted(now: Status)
    | ExecutionRetry
    | ExecutionCompleted
    | ExecutionFailed

  /** The step that a process performs next. */
  datatype Pc =
    | Begin(task: Task)
    | TakeClaim(caller: Caller)
    | LogClaim(caller: Caller)
    | RetryLook
    | RetrySettle(report: Report)
    | LogRetry
    | LogRetryRunning
    | SendApply(caller: Caller)
    | AwaitApply(caller: Caller, request: nat)
    | MarkReply(caller: Caller, reply: Reply)
    | LogLast(event: Event)
    | RecLogStart(seen: Status)
    | RecLook(seen: Status)
    | RecSettle(seen: Status, report: Report, honest: bool)
    | RecLogStale(row: Row)
    | RecLogEnd(row: Row)

  /** The process has claimed the row and not yet marked it or returned. */
  predicate IsOwner(pc: Pc) {
    || pc.LogClaim? || pc.RetryLook? || pc.RetrySettle? || pc.LogRetry? || pc.LogRetryRunning?
    || pc.SendApply? || pc.AwaitApply? || pc.MarkReply?
  }

  /** `since` is when an owner claimed the row, or when a reconciler first read it. */
  datatype Proc = Proc(pc: Pc, since: int)

  /** The environment's choices for one process step. */
  datatype ReadFate = ReadHonestly | ReadNonzeroExit | ReadNoKubectl | ReadRaises
  datatype ApplyFate = ApplySent | ApplyOk | ApplyNonzero | ApplyTimeout | ApplyNoKubectl | ApplyRaises
  datatype Oracle = Oracle(clock: int, lease: int, read: ReadFate, apply: ApplyFate)

  datatype Action =
    | Tick(dt: nat)
    | Spawn(p: nat, task: Task)
    | Move(p: nat, oracle: Oracle)
    | Crash(p: nat)
    | Land(request: nat)
    | PodFails
    | JobEnds(completed: bool)
    | TtlDelete

  /** Bookkeeping that no code reads: committed statuses, apply calls (those of the API path and those
      of `ApprovalService.execute`), requests sent, Jobs ever created, and the start of the latest full
      reconcile whose read was truthful (or the first claim, before there is one). */
  datatype Book = Book(history: seq<Status>, calls: nat, serviceCalls: nat, sent: nat, created: nat, covered: int)

  datatype Slice = Slice(
    now: int,
    row: Option<Row>,
    job: JobSlot,
    flights: map<nat, Flight>,
    procs: map<nat, Proc>,
    log: seq<Event>,
    book: Book)

  function Start(now: int): Slice {
    Slice(now, None, Never, map[], map[], [], Book([], 0, 0, 0, 0, now))
  }

  // ----- Building blocks of a step -----

  function Goto(s: Slice, p: nat, pc: Pc): Slice
    requires p in s.procs
  {
    s.(procs := s.procs[p := s.procs[p].(pc := pc)])
  }

  function GotoSince(s: Slice, p: nat, pc: Pc): Slice {
    s.(procs := s.procs[p := Proc(pc, s.now)])
  }

  /** The process returns or raises. */
  function End(s: Slice, p: nat): Slice {
    s.(procs := s.procs - {p})
  }

  function Record(s: Slice, e: Event): Slice {
    s.(log := s.log + [e])
  }

  /** One database transaction on the row. */
  function Commit(s: Slice, row: Row): Slice {
    var moved := s.row.None? || s.row.value.status != row.status;
    var first := s.row.Some? && s.row.value.status == Approved && row.status == Executing;
    s.(row := Some(row),
       book := s.book.(history := if moved then s.book.history + [row.status] else s.book.history,
                       covered := if first then s.now else s.book.covered))
  }

  /** The API server handles an apply request: create the Job if there is none. */
  function LandRequest(s: Slice, r: nat): Slice
    requires r in s.flights
  {
    var s' := s.(flights := s.flights - {r});
    if s.job.Live? then s'
    else s'.(job := Live(0, false, None), book := s.book.(created := s.book.created + 1))
  }

  function ReadJob(job: JobSlot, fate: ReadFate): Report {
    match fate
    case ReadHonestly => Truth(job)
    case ReadNonzeroExit => SaysAbsent
    case ReadNoKubectl => SaysUnavailable
    case ReadRaises => ReadRaised
  }

  // ----- The steps of each kind of process -----

  function BeginStep(s: Slice, p: nat, task: Task, clock: int): Slice
    requires p in s.procs
  {
    match task
    case DoCreate(trace, action) =>
      if s.row.Some? || action != TRAINING_ACTION then End(s, p)
      else Goto(Commit(s, NewRow(trace, action, clock)), p, LogLast(ApprovalRequested))
    case DoDecide(approved, who, comment) =>
      if s.row.None? then End(s, p)
      else (
        match Decide(s.row.value, approved, Verdict(clock, who, comment))
        case Err(_) => End(s, p)
        case Ok(row) => Goto(Commit(s, row), p, LogLast(ApprovalDecided(approved))))
    case DoExecute(ServiceCall) => Goto(s, p, TakeClaim(ServiceCall))
    case DoExecute(ExecuteHandler) =>
      if s.row.None? || s.row.value.action != TRAINING_ACTION then End(s, p)
      else Goto(s, p, TakeClaim(ExecuteHandler))
    case DoExecute(RetryCall) =>
      if s.row.None? || s.row.value.status != Unknown then End(s, p)
      else Goto(s, p, TakeClaim(RetryCall))
    case DoReconcile =>
      if s.row.None? || !Active(s.row.value.status) then End(s, p)
      else GotoSince(s, p, RecLogStart(s.row.value.status))
  }

  function TryClaim(row: Row, caller: Caller, clock: int): Result<Claim, Refusal> {
    if caller == RetryCall then Ok(ClaimRetry(row, clock)) else ClaimExecution(row, clock)
  }

  function ClaimStep(s: Slice, p: nat, caller: Caller, clock: int): Slice
    requires p in s.procs
  {
    if s.row.None? then End(s, p)
    else
      match TryClaim(s.row.value, caller, clock)
      case Err(_) => End(s, p)
      case Ok(claim) =>
        if !claim.owned then End(s, p)
        else GotoSince(Commit(s, claim.row), p,
                       if caller == ServiceCall then SendApply(ServiceCall) else LogClaim(caller))
  }

  function AfterRetryLook(report: Report): Pc {
    match report
    case Saw(JobRunning) => LogRetryRunning
    case SaysAbsent => LogRetry
    case _ => RetrySettle(report)
  }

  /** `kubectl apply` is called: it fails before sending anything, or a request goes out. */
  function SendStep(s: Slice, p: nat, caller: Caller, fate: ApplyFate): Slice
    requires p in s.procs
  {
    var s' := s.(book := if caller == ServiceCall then s.book.(serviceCalls := s.book.serviceCalls + 1)
                         else s.book.(calls := s.book.calls + 1));
    match fate
    case ApplyRaises => Goto(s', p, MarkReply(caller, ApplyRaised))
    case ApplyNoKubectl => Goto(s', p, MarkReply(caller, ApplyRefused))
    case _ =>
      var r := s.book.sent;
      Goto(s'.(flights := s.flights[r := Flight(s.procs[p].since, s.now)],
               book := s'.book.(sent := r + 1)),
           p, AwaitApply(caller, r))
  }

  /** `kubectl apply` returns. It reports success only for a request that has been handled;
      after a timeout or an error exit the request may still be under way. */
  function AwaitStep(s: Slice, p: nat, caller: Caller, request: nat, fate: ApplyFate): Slice
    requires p in s.procs
  {
    match fate
    case ApplyOk =>
      if request in s.flights then s else Goto(s, p, MarkReply(caller, ApplyExecuted))
    case ApplyNonzero => Goto(s, p, MarkReply(caller, ApplyRefused))
    case ApplyTimeout => Goto(s, p, MarkReply(caller, ApplyTimedOut))
    case ApplyRaises => Goto(s, p, MarkReply(caller, ApplyRaised))
    case _ => s
  }

  /** The status a caller writes for a reply, and the result it writes with it. */
  function ReplyStatus(caller: Caller, reply: Reply): Status {
    match reply
    case ApplyExecuted => Completed
    case ApplyRefused => Failed
    case ApplyTimedOut => Unknown
    case ApplyRaised => if caller == RetryCall then Unknown else Failed
  }

  function ReplyPayload(caller: Caller, reply: Reply): Payload {
    match reply
    case ApplyExecuted => Payload(true, false, if caller == RetryCall then AppliedOnRetry else Applied)
    case ApplyRefused => Payload(false, false, Refused)
    case ApplyTimedOut => Payload(false, true, Fault)
    case ApplyRaised => Payload(false, caller == RetryCall, Fault)
  }

  function ReplyEvent(reply: Reply): Event {
    match reply
    case ApplyExecuted => ExecutionCompleted
    case ApplyTimedOut => ExecutionUnknown
    case _ => ExecutionFailed
  }

  /** `mark_unknown`, `mark_completed` or `mark_failed`. */
  function Mark(row: Row, target: Status, payload: Payload): Result<Row, Refusal>
    requires target == Unknown || Settled(target)
  {
    if target == Unknown then MarkUnknown(row, payload) else MarkSettled(row, target, payload)
  }

  function MarkStep(s: Slice, p: nat, caller: Caller, reply: Reply): Slice
    requires p in s.procs
  {
    if s.row.None? then End(s, p)
    else
      match Mark(s.row.value, ReplyStatus(caller, reply), ReplyPayload(caller, reply))
      case Err(_) => End(s, p)
      case Ok(row) =>
        if caller == ExecuteHandler then Goto(Commit(s, row), p, LogLast(ReplyEvent(reply)))
        else End(Commit(s, row), p)
  }

  /** The result that reconciliation writes for a finished Job. */
  function ReadBackStatus(state: JobState): Status {
    if state == JobCompleted then Completed else Failed
  }

  function ReadBackPayload(state: JobState): Payload {
    Payload(state == JobCompleted, false, ReadBack(state))
  }

  /** A retry that did not find the Job absent or running marks what it read. */
  function RetrySettleStep(s: Slice, p: nat, report: Report): Slice
    requires p in s.procs
  {
    if s.row.None? then End(s, p)
    else
      match report
      case Saw(state) => (
        match MarkSettled(s.row.value, ReadBackStatus(state), ReadBackPayload(state))
        case Err(_) => End(s, p)
        case Ok(row) => Goto(Commit(s, row), p, LogLast(ReconciliationCompleted(row.status))))
      case _ =>
        match MarkUnknown(s.row.value,
                          Payload(false, true, if report.ReadRaised? then Fault else Inconclusive))
        case Err(_) => End(s, p)
        case Ok(row) => End(Commit(s, row), p)
  }

  /** Note that a reconcile with a truthful read has run from `since` up to its mark. */
  function NoteCovered(s: Slice, since: int, honest: bool): Slice {
    if honest && s.book.covered < since then s.(book := s.book.(covered := since)) else s
  }

  function RecSettleStep(s: Slice, p: nat, seen: Status, report: Report, o: Oracle): Slice
    requires p in s.procs
  {
    if s.row.None? then End(s, p)
    else
      match report
      case Saw(JobRunning) => Goto(s, p, RecLogEnd(s.row.value))
      case Saw(state) => (
        match MarkSettled(s.row.value, ReadBackStatus(state), ReadBackPayload(state))
        case Err(_) => End(s, p)
        case Ok(row) => Goto(Commit(s, row), p, RecLogEnd(row)))
      case SaysAbsent =>
        if seen != Executing then Goto(s, p, RecLogEnd(s.row.value))
        else (
          match RecoverStale(s.row.value, o.lease, o.clock)
          case Err(_) => End(s, p)
          case Ok(claim) =>
            if claim.owned then Goto(Commit(s, claim.row), p, RecLogStale(claim.row))
            else Goto(s, p, RecLogEnd(s.row.value)))
      case _ => Goto(s, p, RecLogEnd(s.row.value))
  }

  function Advance(s: Slice, p: nat, o: Oracle): Slice
    requires p in s.procs
  {
    match s.procs[p].pc
    case Begin(task) => BeginStep(s, p, task, o.clock)
    case TakeClaim(caller) => ClaimStep(s, p, caller, o.clock)
    case LogClaim(RetryCall) => Goto(Record(s, ReconciliationStarted(Executing)), p, RetryLook)
    case LogClaim(caller) => Goto(Record(s, ExecutionStarted), p, SendApply(caller))
    case RetryLook => Goto(s, p, AfterRetryLook(ReadJob(s.job, o.read)))
    case RetrySettle(report) => RetrySettleStep(s, p, report)
    case LogRetry => Goto(Record(s, ExecutionRetry), p, SendApply(RetryCall))
    case LogRetryRunning => End(Record(s, ReconciliationCompleted(Executing)), p)
    case SendApply(caller) => SendStep(s, p, caller, o.apply)
    case AwaitApply(caller, request) => AwaitStep(s, p, caller, request, o.apply)
    case MarkReply(caller, reply) => MarkStep(s, p, caller, reply)
    case LogLast(event) => End(Record(s, event), p)
    case RecLogStart(seen) => Goto(Record(s, ReconciliationStarted(seen)), p, RecLook(seen))
    case RecLook(seen) =>
      var report := ReadJob(s.job, o.read);
      if report.ReadRaised? then End(s, p)
      else Goto(s, p, RecSettle(seen, report, report == Truth(s.job)))
    case RecSettle(seen, report, honest) =>
      RecSettleStep(NoteCovered(s, s.procs[p].since, honest), p, seen, report, o)
    case RecLogStale(row) => Goto(Record(s, ExecutionUnknown), p, RecLogEnd(row))
    case RecLogEnd(row) => End(Record(s, ReconciliationCompleted(row.status)), p)
  }

  // ----- One action, and a whole run -----

  function Next(s: Slice, a: Action): Slice {
    match a
    case Tick(dt) => s.(now := s.now + dt)
    case Spawn(p, task) => if p in s.procs then s else GotoSince(s, p, Begin(task))
    case Move(p, o) => if p in s.procs then Advance(s, p, o) else s
    case Crash(p) => End(s, p)
    case Land(r) => if r in s.flights then LandRequest(s, r) else s
    case PodFails =>
      if s.job.Live? && s.job.finishedAt.None? then s.(job := s.job.(failedPods := s.job.failedPods + 1)) else s
    case JobEnds(completed) =>
      if s.job.Live? && s.job.finishedAt.None? && (completed || s.job.failedPods > 0)
      then s.(job := s.job.(completed := completed, finishedAt := Some(s.now)))
      else s
    case TtlDelete =>
      if s.job.Live? && s.job.finishedAt.Some? && s.job.finishedAt.value + TTL <= s.now
      then s.(job := Gone(s.job.finishedAt.value))
      else s
  }

  function Run(s: Slice, actions: seq<Action>): Slice {
    if actions == [] then s
    else Next(Run(s, actions[..|actions| - 1]), actions[|actions| - 1])
  }
}
