/** The handlers of the control plane, as the code has them, running among other processes.

Each handler is a process `p`. `env` supplies the environment: what the clocks, `kubectl` and every
other process do at each point where they may act. Whatever it is, the handler's execution is a run of
the protocol in which `p` performs its task from start to end: the site stays valid, its trace only
grows, and of `p`'s own actions it gains the spawn of its task and moves, never a crash. */
module Handlers {
  import opened Wrappers
  import opened ApprovalRows
  import opened ApprovalProtocol
  import opened ApprovalTable
  import opened ApprovalStores
  import opened ControlPlane
  import opened JobNames
  import opened Sites
  import ProtocolSafety
  import RunTheorems

  datatype Env = Env(oracle: nat -> Oracle, others: nat -> seq<Action>)

  /** What a handler raises: an HTTP error, or an exception of the store or the executor. */
  datatype Failure =
    | NotFoundError
    | IdMismatch
    | UnsupportedAction
    | Conflict(refusal: Refusal)
    | ExecutionFailedError
    | ExecutorRaised

  /** The row has been in the store, and is still there if its status is final. */
  predicate Given(s: Slice, row: Row) {
    row.status in s.book.history && (Final(row.status) ==> s.row == Some(row))
  }

  /** The store refused to leave a status that was committed. */
  predicate Refused(s: Slice, refusal: Refusal) {
    refusal.IllegalMove? && refusal.current in s.book.history
  }

  lemma StoredIsGiven(site: Site, row: Row)
    requires site.Valid() && site.slice.row == Some(row)
    ensures Given(site.slice, row)
  {
    RunTheorems.ReachedStatesAreSound(site.origin, site.trace, site.slice);
  }

  lemma StillGiven(s: Slice, t: Slice, row: Row)
    requires Kept(s, t) && Given(s, row)
    ensures Given(t, row)
  {
  }

  /** Since `start`, action `i` of the trace is another's, or a move of `p`. */
  ghost predicate KeepsMoving(start: seq<Action>, trace: seq<Action>, p: nat, i: int) {
    && start <= trace
    && (|start| <= i < |trace| && OwnAction(trace[i], p) ==> trace[i].Move?)
  }

  /** Since `start`, process `p` has neither started nor crashed. */
  ghost predicate Moving(start: seq<Action>, trace: seq<Action>, p: nat) {
    forall i :: KeepsMoving(start, trace, p, i)
  }

  /** Process `p` has moved since `start` and is at `pc`. */
  ghost predicate Working(site: Site, start: seq<Action>, p: nat, pc: Pc)
    reads site, site.store, site.audit, site.cluster
  {
    site.Valid() && Moving(start, site.trace, p) && p in site.slice.procs && site.slice.procs[p].pc == pc
  }

  /** Process `p` has moved since `start` and is gone. */
  ghost predicate Done(site: Site, start: seq<Action>, p: nat)
    reads site, site.store, site.audit, site.cluster
  {
    site.Valid() && Moving(start, site.trace, p) && p !in site.slice.procs
  }

  lemma MovingOn(start: seq<Action>, trace: seq<Action>, p: nat, more: seq<Action>)
    requires Moving(start, trace, p)
    requires forall i :: 0 <= i < |more| && OwnAction(more[i], p) ==> more[i].Move?
    ensures Moving(start, trace + more, p)
  {
    assert KeepsMoving(start, trace, p, 0);
    forall i ensures KeepsMoving(start, trace + more, p, i) {
      assert KeepsMoving(start, trace, p, i);
      if |trace| <= i < |trace + more| {
        assert (trace + more)[i] == more[i - |trace|];
      }
    }
  }

  // ----- One step of a process -----

  /** Process `p` has taken its next step, which the shared objects already show. */
  method Moved(site: Site, ghost start: seq<Action>, p: nat, o: Oracle)
    requires MatchesId(site.id) && site.store.Valid() && RunTheorems.Reaches(site.origin, site.trace, site.slice)
    requires site.Holds(Next(site.slice, Move(p, o))) && Moving(start, site.trace, p)
    modifies site
    ensures site.Valid() && Moving(start, site.trace, p)
    ensures site.slice == Next(old(site.slice), Move(p, o)) && Kept(old(site.slice), site.slice)
  {
    MovingOn(start, site.trace, p, [Move(p, o)]);
    site.Account(Move(p, o));
  }

  method Spawned(site: Site, p: nat, task: Task) returns (ghost start: seq<Action>)
    requires site.Valid() && p !in site.slice.procs
    modifies site
    ensures start == old(site.trace) + [Spawn(p, task)] && Working(site, start, p, Begin(task))
    ensures site.slice.row == old(site.slice).row
  {
    start := site.trace + [Spawn(p, task)];
    site.Account(Spawn(p, task));
    assert forall i :: KeepsMoving(start, site.trace, p, i);
  }

  /** Others act while `p` does nothing. */
  method Waited(site: Site, ghost start: seq<Action>, p: nat, pc: Pc, others: seq<Action>)
    requires Working(site, start, p, pc)
    modifies site, site.store, site.audit, site.cluster
    ensures Working(site, start, p, pc) && Kept(old(site.slice), site.slice)
  {
    OthersAreOthers(others, p);
    MovingOn(start, site.trace, p, Others(others, p));
    site.Interfere(others, p);
  }

  /** Others act after `p` has left the protocol. */
  method WaitedAfter(site: Site, ghost start: seq<Action>, p: nat, others: seq<Action>)
    requires Done(site, start, p)
    modifies site, site.store, site.audit, site.cluster
    ensures Done(site, start, p) && Kept(old(site.slice), site.slice)
  {
    OthersAreOthers(others, p);
    MovingOn(start, site.trace, p, Others(others, p));
    site.Interfere(others, p);
  }

  lemma {:induction false} OthersAreOthers(script: seq<Action>, p: nat)
    ensures forall a :: a in Others(script, p) ==> !OwnAction(a, p)
  {
    if script != [] {
      OthersAreOthers(script[..|script| - 1], p);
    }
  }

  /** An unlocked `get`, by which an execute, retry or reconcile begins. */
  method FirstRead(site: Site, ghost start: seq<Action>, p: nat, task: Task, o: Oracle) returns (row: Option<Row>)
    requires Working(site, start, p, Begin(task))
    requires task in {DoExecute(ExecuteHandler), DoExecute(RetryCall), DoReconcile}
    modifies site
    ensures row == site.slice.row == old(site.slice).row
    ensures if row.Some? && GoesOn(row.value, task) then Working(site, start, p, AfterFirstRead(row.value, task))
            else Done(site, start, p)
  {
    row := site.store.Get(site.id);
    Moved(site, start, p, o);
  }

  predicate GoesOn(row: Row, task: Task) {
    match task
    case DoExecute(ExecuteHandler) => row.action == TRAINING_ACTION
    case DoExecute(RetryCall) => row.status == Unknown
    case _ => Active(row.status)
  }

  function AfterFirstRead(row: Row, task: Task): Pc {
    if task.DoExecute? then TakeClaim(task.caller) else RecLogStart(row.status)
  }

  /** A process starts and reads the row. */
  method Entered(site: Site, p: nat, task: Task, o: Oracle) returns (ghost start: seq<Action>, row: Option<Row>)
    requires site.Valid() && p !in site.slice.procs
    requires task in {DoExecute(ExecuteHandler), DoExecute(RetryCall), DoReconcile}
    modifies site
    ensures start == old(site.trace) + [Spawn(p, task)] && row == site.slice.row == old(site.slice).row
    ensures if row.Some? && GoesOn(row.value, task) then Working(site, start, p, AfterFirstRead(row.value, task))
            else Done(site, start, p)
  {
    start := Spawned(site, p, task);
    row := FirstRead(site, start, p, task, o);
  }

  lemma TakeClaimStep(s: Slice, p: nat, caller: Caller, o: Oracle)
    requires p in s.procs && s.procs[p].pc == TakeClaim(caller)
    ensures Next(s, Move(p, o)) ==
      if s.row.None? || TryClaim(s.row.value, caller, o.clock).Err?
         || !TryClaim(s.row.value, caller, o.clock).value.owned
      then End(s, p)
      else GotoSince(Commit(s, TryClaim(s.row.value, caller, o.clock).value.row), p,
                     if caller == ServiceCall then SendApply(ServiceCall) else LogClaim(caller))
  {
  }

  /** `claim_execution` or `claim_retry_execution`. */
  method Claimed(site: Site, ghost start: seq<Action>, p: nat, caller: Caller, o: Oracle)
    returns (r: Result<Claim, Refusal>)
    requires Working(site, start, p, TakeClaim(caller))
    modifies site, site.store
    ensures Kept(old(site.slice), site.slice)
    ensures r.Ok? ==> site.slice.row == Some(r.value.row) && Given(site.slice, r.value.row)
    ensures r.Err? ==> if old(site.slice).row.None? then r.error == NotFound else Refused(site.slice, r.error)
    ensures r.Ok? && !r.value.owned && caller != RetryCall ==> r.value.row.status == Executing
    ensures if r.Ok? && r.value.owned
            then r.value.row.status == Executing
                 && Working(site, start, p, if caller == ServiceCall then SendApply(caller) else LogClaim(caller))
            else Done(site, start, p)
  {
    if caller == RetryCall {
      r := RetryTaken(site, start, p, o);
    } else {
      r := ExecutionTaken(site, start, p, caller, o);
    }
  }

  method ExecutionTaken(site: Site, ghost start: seq<Action>, p: nat, caller: Caller, o: Oracle)
    returns (r: Result<Claim, Refusal>)
    requires Working(site, start, p, TakeClaim(caller)) && caller != RetryCall
    modifies site, site.store
    ensures Kept(old(site.slice), site.slice)
    ensures r.Ok? ==> site.slice.row == Some(r.value.row) && Given(site.slice, r.value.row)
    ensures r.Err? ==> if old(site.slice).row.None? then r.error == NotFound else Refused(site.slice, r.error)
    ensures r.Ok? && !r.value.owned ==> r.value.row.status == Executing
    ensures if r.Ok? && r.value.owned
            then r.value.row.status == Executing
                 && Working(site, start, p, if caller == ServiceCall then SendApply(caller) else LogClaim(caller))
            else Done(site, start, p)
  {
    ghost var before := site.slice;
    if before.row.Some? { StoredIsGiven(site, before.row.value); }
    TakeClaimStep(before, p, caller, o);
    r := site.store.ClaimExecution(site.id, o.clock);
    Moved(site, start, p, o);
    if r.Ok? {
      StoredIsGiven(site, r.value.row);
    }
  }

  method RetryTaken(site: Site, ghost start: seq<Action>, p: nat, o: Oracle)
    returns (r: Result<Claim, Refusal>)
    requires Working(site, start, p, TakeClaim(RetryCall))
    modifies site, site.store
    ensures Kept(old(site.slice), site.slice)
    ensures r.Ok? ==> site.slice.row == Some(r.value.row) && Given(site.slice, r.value.row)
    ensures r.Err? ==> old(site.slice).row.None? && r.error == NotFound
    ensures if r.Ok? && r.value.owned
            then r.value.row.status == Executing && Working(site, start, p, LogClaim(RetryCall))
            else Done(site, start, p)
  {
    TakeClaimStep(site.slice, p, RetryCall, o);
    r := site.store.ClaimRetryExecution(site.id, o.clock);
    Moved(site, start, p, o);
    if r.Ok? {
      StoredIsGiven(site, r.value.row);
    }
  }

  /** The event that a process at `pc` appends, and where it goes on. */
  function EventAt(pc: Pc): Option<(Event, Option<Pc>)> {
    match pc
    case LogClaim(RetryCall) => Some((ReconciliationStarted(Executing), Some(RetryLook)))
    case LogClaim(caller) => Some((ExecutionStarted, Some(SendApply(caller))))
    case LogRetry => Some((ExecutionRetry, Some(SendApply(RetryCall))))
    case LogRetryRunning => Some((ReconciliationCompleted(Executing), None))
    case LogLast(e) => Some((e, None))
    case RecLogStart(seen) => Some((ReconciliationStarted(seen), Some(RecLook(seen))))
    case RecLogStale(row) => Some((ExecutionUnknown, Some(RecLogEnd(row))))
    case RecLogEnd(row) => Some((ReconciliationCompleted(row.status), None))
    case _ => None
  }

  lemma RecordStep(s: Slice, p: nat, o: Oracle)
    requires p in s.procs && EventAt(s.procs[p].pc).Some?
    ensures var (e, next) := EventAt(s.procs[p].pc).value;
      Next(s, Move(p, o)) == if next.Some? then Goto(Record(s, e), p, next.value) else End(Record(s, e), p)
  {
  }

  /** The event is the last one of the log. */
  predicate EndsWith(log: seq<Event>, e: Event) {
    log != [] && log[|log| - 1] == e
  }

  /** `audit_service.record`. */
  method Recorded(site: Site, ghost start: seq<Action>, p: nat, pc: Pc, e: Event, o: Oracle)
    requires Working(site, start, p, pc) && EventAt(pc).Some? && EventAt(pc).value.0 == e
    modifies site, site.audit
    ensures Kept(old(site.slice), site.slice) && site.slice.log == old(site.slice).log + [e]
    ensures var next := EventAt(pc).value.1;
      if next.Some? then Working(site, start, p, next.value) else Done(site, start, p)
  {
    RecordStep(site.slice, p, o);
    site.Append(e);
    Moved(site, start, p, o);
  }

  /** Others act, and then `audit_service.record`. */
  method RecordedNext(site: Site, ghost start: seq<Action>, p: nat, pc: Pc, e: Event, others: seq<Action>, o: Oracle)
    requires Working(site, start, p, pc) && EventAt(pc).Some? && EventAt(pc).value.0 == e
    modifies site, site.store, site.audit, site.cluster
    ensures Kept(old(site.slice), site.slice) && EndsWith(site.slice.log, e)
    ensures var next := EventAt(pc).value.1;
      if next.Some? then Working(site, start, p, next.value) else Done(site, start, p)
  {
    Waited(site, start, p, pc, others);
    Recorded(site, start, p, pc, e, o);
  }

  /** `kubectl get job`, for a retry. */
  method LookedForRetry(site: Site, ghost start: seq<Action>, p: nat, o: Oracle) returns (report: Report)
    requires Working(site, start, p, RetryLook)
    modifies site
    ensures Working(site, start, p, AfterRetryLook(report)) && Kept(old(site.slice), site.slice)
  {
    report := site.cluster.GetJob(LookupName(site.id), o.read);
    Moved(site, start, p, o);
  }

  /** `kubectl get job`, for a reconcile. */
  method Looked(site: Site, ghost start: seq<Action>, p: nat, seen: Status, o: Oracle)
    returns (report: Report, honest: bool)
    requires Working(site, start, p, RecLook(seen))
    modifies site
    ensures Kept(old(site.slice), site.slice)
    ensures report.ReadRaised? <==> o.read.ReadRaises?
    ensures if report.ReadRaised? then Done(site, start, p)
            else Working(site, start, p, RecSettle(seen, report, honest))
  {
    honest := ReadJob(site.slice.job, o.read) == Truth(site.slice.job);
    report := site.cluster.GetJob(LookupName(site.id), o.read);
    Moved(site, start, p, o);
  }

  /** `kubectl apply` starts: it fails before sending anything (the reply), or a request goes out. */
  method Sent(site: Site, ghost start: seq<Action>, p: nat, caller: Caller, o: Oracle) returns (reply: Option<Reply>)
    requires Working(site, start, p, SendApply(caller))
    modifies site, site.cluster
    ensures Kept(old(site.slice), site.slice)
    ensures Working(site, start, p, if reply.Some? then MarkReply(caller, reply.value)
                                    else AwaitApply(caller, old(site.slice).book.sent))
  {
    match o.apply {
      case ApplyRaises => reply := Some(ApplyRaised);
      case ApplyNoKubectl => reply := Some(ApplyRefused);
      case _ =>
        reply := None;
        site.cluster.Send(LookupName(site.id), site.slice.book.sent, Flight(site.slice.procs[p].since, site.slice.now));
    }
    Moved(site, start, p, o);
  }

  /** How `kubectl apply` ends: it waits until it has an answer or times out, and it cannot report
      success for a request that has not been handled. */
  function AnswerFate(s: Slice, request: nat, fate: ApplyFate): ApplyFate {
    match fate
    case ApplyOk => if request in s.flights then ApplyTimeout else ApplyOk
    case ApplyNonzero => ApplyNonzero
    case ApplyRaises => ApplyRaises
    case _ => ApplyTimeout
  }

  function AnswerReply(fate: ApplyFate): Reply {
    match fate
    case ApplyOk => ApplyExecuted
    case ApplyNonzero => ApplyRefused
    case ApplyRaises => ApplyRaised
    case _ => ApplyTimedOut
  }

  lemma AnswerStep(s: Slice, p: nat, caller: Caller, request: nat, o: Oracle)
    requires p in s.procs && s.procs[p].pc == AwaitApply(caller, request)
    ensures var fate := AnswerFate(s, request, o.apply);
      Next(s, Move(p, o.(apply := fate))) == Goto(s, p, MarkReply(caller, AnswerReply(fate)))
  {
  }

  method Answered(site: Site, ghost start: seq<Action>, p: nat, caller: Caller, request: nat, o: Oracle)
    returns (reply: Reply)
    requires Working(site, start, p, AwaitApply(caller, request))
    modifies site
    ensures Working(site, start, p, MarkReply(caller, reply)) && Kept(old(site.slice), site.slice)
    ensures reply == ApplyExecuted ==> request !in old(site.slice).flights
  {
    var fate := AnswerFate(site.slice, request, o.apply);
    reply := AnswerReply(fate);
    AnswerStep(site.slice, p, caller, request, o);
    Moved(site, start, p, o.(apply := fate));
  }

  /** `apply_training_job`. */
  method Applied(site: Site, ghost start: seq<Action>, p: nat, caller: Caller, env: Env) returns (reply: Reply)
    requires Working(site, start, p, SendApply(caller))
    modifies site, site.store, site.audit, site.cluster
    ensures Working(site, start, p, MarkReply(caller, reply)) && Kept(old(site.slice), site.slice)
  {
    var request := site.slice.book.sent;
    var failed := Sent(site, start, p, caller, env.oracle(10));
    if failed.Some? {
      return failed.value;
    }
    Waited(site, start, p, AwaitApply(caller, request), env.others(10));
    reply := Answered(site, start, p, caller, request, env.oracle(11));
  }

  /** Rows are never deleted, so a process at its mark finds one. */
  lemma OwnersHaveRow(site: Site, p: nat)
    requires site.Valid() && p in site.slice.procs
    requires var pc := site.slice.procs[p].pc;
      pc.RecSettle? || pc.MarkReply? || pc.RetrySettle? || pc.LogRetryRunning?
    ensures site.slice.row.Some? && (Active(site.slice.row.value.status) || Settled(site.slice.row.value.status))
  {
    RunTheorems.ReachedStatesAreSound(site.origin, site.trace, site.slice);
    assert ProtocolSafety.PcOk(site.slice, site.slice.procs[p].pc);
  }

  lemma MarkReplyStep(s: Slice, p: nat, caller: Caller, reply: Reply, o: Oracle)
    requires p in s.procs && s.row.Some? && s.procs[p].pc == MarkReply(caller, reply)
    ensures Next(s, Move(p, o)) ==
      match Mark(s.row.value, ReplyStatus(caller, reply), ReplyPayload(caller, reply))
      case Err(_) => End(s, p)
      case Ok(row) =>
        if caller == ExecuteHandler then Goto(Commit(s, row), p, LogLast(ReplyEvent(reply))) else End(Commit(s, row), p)
  {
  }

  /** `mark_completed`, `mark_failed` or `mark_unknown` with the reply of an apply. */
  method MarkedReply(site: Site, ghost start: seq<Action>, p: nat, caller: Caller, reply: Reply, o: Oracle)
    returns (r: Result<Row, Refusal>)
    requires Working(site, start, p, MarkReply(caller, reply))
    modifies site, site.store
    ensures Kept(old(site.slice), site.slice)
    ensures r.Ok? ==> r.value.status == ReplyStatus(caller, reply) && site.slice.row == Some(r.value)
    ensures if r.Ok? then Given(site.slice, r.value) else Refused(site.slice, r.error)
    ensures if r.Ok? && caller == ExecuteHandler then Working(site, start, p, LogLast(ReplyEvent(reply)))
            else Done(site, start, p)
  {
    OwnersHaveRow(site, p);
    StoredIsGiven(site, site.slice.row.value);
    MarkReplyStep(site.slice, p, caller, reply, o);
    var target := ReplyStatus(caller, reply);
    if target == Unknown {
      r := site.store.MarkUnknown(site.id, ReplyPayload(caller, reply));
    } else {
      r := site.store.MarkSettled(site.id, target, ReplyPayload(caller, reply));
    }
    Moved(site, start, p, o);
    if r.Ok? {
      StoredIsGiven(site, r.value);
    }
  }

  /** The apply call of an owner, and the mark that follows it. */
  method AppliedAndMarked(site: Site, ghost start: seq<Action>, p: nat, caller: Caller, env: Env)
    returns (reply: Reply, r: Result<Row, Refusal>)
    requires Working(site, start, p, SendApply(caller))
    modifies site, site.store, site.audit, site.cluster
    ensures Kept(old(site.slice), site.slice)
    ensures r.Ok? ==> r.value.status == ReplyStatus(caller, reply) && site.slice.row == Some(r.value)
    ensures if r.Ok? then Given(site.slice, r.value) else Refused(site.slice, r.error)
    ensures if r.Ok? && caller == ExecuteHandler then Working(site, start, p, LogLast(ReplyEvent(reply)))
            else Done(site, start, p)
  {
    reply := Applied(site, start, p, caller, env);
    Waited(site, start, p, MarkReply(caller, reply), env.others(11));
    r := MarkedReply(site, start, p, caller, reply, env.oracle(12));
  }

  // ----- What the shared objects amount to -----

  /** Wherever processes have got to on the real objects: a Job of this approval's name exists only if
      a human approved it earlier, its row says so, and a logged outcome is the outcome in the row. */
  lemma ObjectsAreSafe(site: Site)
    requires site.Valid()
    ensures !Lookup(site.cluster.jobs, LookupName(site.id), Never).Never? ==>
      && site.id in site.store.rows
      && site.store.rows[site.id].verdict.Some?
      && site.store.rows[site.id].status !in {Pending, Approved, Rejected}
      && exists i :: 0 <= i < |site.trace|
                     && RunTheorems.Approves(Run(Start(site.origin), site.trace[..i]), site.trace[i])
    ensures var logged := EventsOf(site.audit.events, site.id);
      && (ExecutionCompleted in logged ==> site.id in site.store.rows && site.store.rows[site.id].status == Completed)
      && (ExecutionFailed in logged ==> site.id in site.store.rows && site.store.rows[site.id].status == Failed)
  {
    RunTheorems.ReachedStatesAreSound(site.origin, site.trace, site.slice);
    RunTheorems.NoJobWithoutHumanYes(site.origin, site.trace, site.slice);
    RunTheorems.ReachesRun(site.origin, site.trace, site.slice);
    RunTheorems.AuditAgreesWithRow(site.origin, site.trace, []);
    assert site.trace + [] == site.trace;
  }

  // ----- agent_service.py -----

  /** The claim of `execute_approval` and its audit event. */
  method BeginExecution(site: Site, ghost start: seq<Action>, p: nat, env: Env) returns (r: Result<Claim, Refusal>)
    requires Working(site, start, p, TakeClaim(ExecuteHandler)) && site.slice.row.Some?
    modifies site, site.store, site.audit, site.cluster
    ensures if r.Err? then Refused(site.slice, r.error) && Done(site, start, p)
            else if r.value.owned then Working(site, start, p, SendApply(ExecuteHandler))
            else r.value.row.status == Executing && Given(site.slice, r.value.row) && Done(site, start, p)
  {
    r := Claimed(site, start, p, ExecuteHandler, env.oracle(1));
    if r.Ok? && r.value.owned {
      RecordedNext(site, start, p, LogClaim(ExecuteHandler), ExecutionStarted, env.others(1), env.oracle(2));
    }
  }

  /** What `execute_approval` gives its caller once an apply of its own was answered by `reply`: the row
      with the status of the reply, or after an executor that raised its error, with the row marked FAILED;
      in both cases right after the event of the reply. Or else the store's refusal of its mark. */
  predicate ExecutionAnswer(s: Slice, reply: Reply, r: Result<Row, Failure>) {
    match r
    case Ok(row) =>
      && reply != ApplyRaised && row.status == ReplyStatus(ExecuteHandler, reply)
      && Given(s, row) && EndsWith(s.log, ReplyEvent(reply))
    case Err(ExecutionFailedError) =>
      && reply == ApplyRaised && s.row.Some? && s.row.value.status == Failed
      && EndsWith(s.log, ReplyEvent(reply))
    case Err(Conflict(refusal)) => Refused(s, refusal)
    case Err(_) => false
  }

  /** The rest of `execute_approval`, with the claim in hand. */
  method FinishExecution(site: Site, ghost start: seq<Action>, p: nat, env: Env)
    returns (r: Result<Row, Failure>, ghost reply: Reply)
    requires Working(site, start, p, SendApply(ExecuteHandler))
    modifies site, site.store, site.audit, site.cluster
    ensures Done(site, start, p) && ExecutionAnswer(site.slice, reply, r)
  {
    var answer, marked := AppliedAndMarked(site, start, p, ExecuteHandler, env);
    reply := answer;
    if marked.Err? {
      r := Err(Conflict(marked.error));
      return;
    }
    ghost var before := site.slice;
    RecordedNext(site, start, p, LogLast(ReplyEvent(answer)), ReplyEvent(answer), env.others(3), env.oracle(3));
    StillGiven(before, site.slice, marked.value);
    r := if answer == ApplyRaised then Err(ExecutionFailedError) else Ok(marked.value);
  }

  /** `execute_approval`, with the reply of its apply if it made one. */
  method ExecuteApproval(site: Site, p: nat, env: Env) returns (r: Result<Row, Failure>, ghost reply: Option<Reply>)
    requires site.Valid() && p !in site.slice.procs
    modifies site, site.store, site.audit, site.cluster
    ensures Done(site, old(site.trace) + [Spawn(p, DoExecute(ExecuteHandler))], p)
    ensures r == Err(NotFoundError) <==> old(site.slice).row.None?
    ensures r == Err(UnsupportedAction) <==>
            old(site.slice).row.Some? && old(site.slice).row.value.action != TRAINING_ACTION
    ensures reply.Some? ==> ExecutionAnswer(site.slice, reply.value, r)
    ensures reply.None? ==>
              match r
              case Ok(row) => row.status == Executing && Given(site.slice, row)
              case Err(Conflict(refusal)) => Refused(site.slice, refusal)
              case Err(e) => e in {NotFoundError, UnsupportedAction}
  {
    ghost var start;
    var approval;
    start, approval := Entered(site, p, DoExecute(ExecuteHandler), env.oracle(0));
    reply := None;
    if approval.None? {
      r := Err(NotFoundError);
      return;
    }
    if approval.value.action != TRAINING_ACTION {
      r := Err(UnsupportedAction);
      return;
    }
    Waited(site, start, p, TakeClaim(ExecuteHandler), env.others(0));
    var claim := BeginExecution(site, start, p, env);
    if claim.Err? {
      r := Err(Conflict(claim.error));
      return;
    }
    if !claim.value.owned {
      r := Ok(claim.value.row);
      return;
    }
    Waited(site, start, p, SendApply(ExecuteHandler), env.others(2));
    ghost var answer;
    r, answer := FinishExecution(site, start, p, env);
    reply := Some(answer);
  }

  lemma DecideStep(s: Slice, p: nat, o: Oracle)
    requires p in s.procs && s.procs[p].pc.Begin? && s.procs[p].pc.task.DoDecide?
    ensures var task := s.procs[p].pc.task;
      Next(s, Move(p, o)) ==
      if s.row.None? || s.row.value.status != Pending then End(s, p)
      else Goto(Commit(s, s.row.value.(status := if task.approved then Approved else Rejected,
                                       verdict := Some(Verdict(o.clock, task.who, task.comment)))),
                p, LogLast(ApprovalDecided(task.approved)))
  {
  }

  method Decided(site: Site, ghost start: seq<Action>, p: nat, approved: bool, who: string, comment: Option<string>,
                 o: Oracle)
    returns (r: Result<Row, Refusal>)
    requires Working(site, start, p, Begin(DoDecide(approved, who, comment)))
    modifies site, site.store
    ensures r.Ok? <==> old(site.slice).row.Some? && old(site.slice).row.value.status == Pending
    ensures r.Ok? ==> r.value == old(site.slice).row.value.(status := if approved then Approved else Rejected,
                                                            verdict := Some(Verdict(o.clock, who, comment)))
    ensures site.slice.row == if r.Ok? then Some(r.value) else old(site.slice).row
    ensures if r.Ok? then Working(site, start, p, LogLast(ApprovalDecided(approved))) else Done(site, start, p)
  {
    DecideStep(site.slice, p, o);
    r := site.store.Decide(site.id, approved, Verdict(o.clock, who, comment));
    Moved(site, start, p, o);
  }

  /** `decide_approval`; `bodyId` is the id in the request's body, the site's id the one in its path. */
  method DecideApproval(site: Site, p: nat, bodyId: string, approved: bool, who: string, comment: Option<string>,
                        env: Env)
    returns (r: Result<Row, Failure>)
    requires site.Valid() && p !in site.slice.procs
    modifies site, site.store, site.audit, site.cluster
    ensures if bodyId == site.id then Done(site, old(site.trace) + [Spawn(p, DoDecide(approved, who, comment))], p)
            else r == Err(IdMismatch) && site.Valid() && site.trace == old(site.trace)
    ensures r.Ok? <==> bodyId == site.id && old(site.slice).row.Some? && old(site.slice).row.value.status == Pending
    ensures r.Ok? ==> r.value == old(site.slice).row.value.(status := if approved then Approved else Rejected,
                                                            verdict := Some(Verdict(env.oracle(0).clock, who, comment)))
    ensures r.Ok? && !approved ==> site.slice.row == Some(r.value)
  {
    if bodyId != site.id {
      return Err(IdMismatch);
    }
    r := DecideMatched(site, p, approved, who, comment, env);
  }

  method DecideMatched(site: Site, p: nat, approved: bool, who: string, comment: Option<string>, env: Env)
    returns (r: Result<Row, Failure>)
    requires site.Valid() && p !in site.slice.procs
    modifies site, site.store, site.audit, site.cluster
    ensures Done(site, old(site.trace) + [Spawn(p, DoDecide(approved, who, comment))], p)
    ensures r.Ok? <==> old(site.slice).row.Some? && old(site.slice).row.value.status == Pending
    ensures r.Ok? ==> r.value == old(site.slice).row.value.(status := if approved then Approved else Rejected,
                                                            verdict := Some(Verdict(env.oracle(0).clock, who, comment)))
    ensures r.Ok? && !approved ==> site.slice.row == Some(r.value)
  {
    ghost var start := Spawned(site, p, DoDecide(approved, who, comment));
    var decided := Decided(site, start, p, approved, who, comment, env.oracle(0));
    if decided.Err? {
      return Err(if decided.error == NotFound then NotFoundError else Conflict(decided.error));
    }
    RecordedNext(site, start, p, LogLast(ApprovalDecided(approved)), ApprovalDecided(approved), env.others(0),
                 env.oracle(1));
    return Ok(decided.value);
  }

  method Created(site: Site, ghost start: seq<Action>, p: nat, trace: string, action: string, o: Oracle)
    returns (r: Result<Row, Failure>)
    requires Working(site, start, p, Begin(DoCreate(trace, action)))
    modifies site, site.store
    ensures r.Ok? <==> action == TRAINING_ACTION && old(site.slice).row.None?
    ensures r.Ok? ==> r.value == NewRow(trace, action, o.clock)
    ensures site.slice.row == if r.Ok? then Some(r.value) else old(site.slice).row
    ensures if r.Ok? then Working(site, start, p, LogLast(ApprovalRequested)) else Done(site, start, p)
  {
    if action != TRAINING_ACTION {
      Moved(site, start, p, o);
      return Err(UnsupportedAction);
    }
    var created := site.store.Create(site.id, trace, action, o.clock, Pending);
    Moved(site, start, p, o);
    return if created.Err? then Err(Conflict(created.error)) else Ok(created.value);
  }

  /** `create_approval`, with the site's id as the id it draws. */
  method CreateApproval(site: Site, p: nat, trace: string, action: string, env: Env)
    returns (r: Result<Row, Failure>)
    requires site.Valid() && p !in site.slice.procs
    modifies site, site.store, site.audit, site.cluster
    ensures Done(site, old(site.trace) + [Spawn(p, DoCreate(trace, action))], p)
    ensures r.Ok? <==> action == TRAINING_ACTION && old(site.slice).row.None?
    ensures r.Ok? ==> r.value == NewRow(trace, action, env.oracle(0).clock)
  {
    ghost var start := Spawned(site, p, DoCreate(trace, action));
    var created := Created(site, start, p, trace, action, env.oracle(0));
    if created.Err? {
      return Err(created.error);
    }
    RecordedNext(site, start, p, LogLast(ApprovalRequested), ApprovalRequested, env.others(0), env.oracle(1));
    return Ok(created.value);
  }

  // ----- approval_service.py -----

  method ServiceBegun(site: Site, p: nat, o: Oracle) returns (ghost start: seq<Action>)
    requires site.Valid() && p !in site.slice.procs
    modifies site
    ensures start == old(site.trace) + [Spawn(p, DoExecute(ServiceCall))]
    ensures Working(site, start, p, TakeClaim(ServiceCall))
  {
    start := Spawned(site, p, DoExecute(ServiceCall));
    Moved(site, start, p, o);
  }

  /** `ApprovalService.execute`: no first read and no audit events. */
  method ServiceExecute(site: Site, p: nat, env: Env) returns (r: Result<Row, Refusal>)
    requires site.Valid() && p !in site.slice.procs
    modifies site, site.store, site.audit, site.cluster
    ensures Done(site, old(site.trace) + [Spawn(p, DoExecute(ServiceCall))], p)
    ensures r.Ok? ==> site.slice.row == Some(r.value)
  {
    ghost var start := ServiceBegun(site, p, env.oracle(0));
    Waited(site, start, p, TakeClaim(ServiceCall), env.others(0));
    var claim := Claimed(site, start, p, ServiceCall, env.oracle(1));
    if claim.Err? {
      return Err(claim.error);
    }
    if !claim.value.owned {
      return Ok(claim.value.row);
    }
    Waited(site, start, p, SendApply(ServiceCall), env.others(1));
    var _, marked := AppliedAndMarked(site, start, p, ServiceCall, env);
    return marked;
  }

  // ----- reconciliation_service.py -----

  lemma ReadBackStep(s: Slice, p: nat, o: Oracle)
    requires p in s.procs && s.row.Some? && s.procs[p].pc.RecSettle?
    requires s.procs[p].pc.report.Saw? && s.procs[p].pc.report.state != JobRunning
    ensures var t := NoteCovered(s, s.procs[p].since, s.procs[p].pc.honest); var state := s.procs[p].pc.report.state;
      Next(s, Move(p, o)) ==
      match MarkSettled(s.row.value, ReadBackStatus(state), ReadBackPayload(state))
      case Err(_) => End(t, p)
      case Ok(row) => Goto(Commit(t, row), p, RecLogEnd(row))
  {
  }

  lemma ReadBackFacts(row: Row, state: JobState)
    requires (Active(row.status) || Settled(row.status)) && state != JobRunning
    ensures var marked := MarkSettled(row, ReadBackStatus(state), ReadBackPayload(state));
      if marked.Ok? then marked.value.status == ReadBackStatus(state) else Settled(row.status)
  {
  }

  /** A reconcile has read a finished Job. */
  method ReadBackMarked(site: Site, ghost start: seq<Action>, p: nat, seen: Status, state: JobState, honest: bool,
                        o: Oracle)
    returns (r: Result<Row, Refusal>)
    requires Working(site, start, p, RecSettle(seen, Saw(state), honest)) && state != JobRunning
    modifies site, site.store
    ensures Kept(old(site.slice), site.slice)
    ensures old(site.slice).row.Some? && site.slice.row == if r.Ok? then Some(r.value) else old(site.slice).row
    ensures if r.Ok? then r.value.status == ReadBackStatus(state) else Settled(site.slice.row.value.status)
    ensures if r.Err? then Done(site, start, p) else Working(site, start, p, RecLogEnd(r.value))
  {
    OwnersHaveRow(site, p);
    ReadBackFacts(site.slice.row.value, state);
    ReadBackStep(site.slice, p, o);
    r := site.store.MarkSettled(site.id, ReadBackStatus(state), ReadBackPayload(state));
    Moved(site, start, p, o);
  }

  lemma StaleStep(s: Slice, p: nat, o: Oracle)
    requires p in s.procs && s.row.Some?
    requires s.procs[p].pc.RecSettle? && s.procs[p].pc.seen == Executing && s.procs[p].pc.report == SaysAbsent
    ensures var t := NoteCovered(s, s.procs[p].since, s.procs[p].pc.honest);
      Next(s, Move(p, o)) ==
      match RecoverStale(s.row.value, o.lease, o.clock)
      case Err(_) => End(t, p)
      case Ok(claim) =>
        if claim.owned then Goto(Commit(t, claim.row), p, RecLogStale(claim.row))
        else Goto(t, p, RecLogEnd(s.row.value))
  {
  }

  /** A reconcile has found the Job of an executing row absent. */
  method StaleRecovered(site: Site, ghost start: seq<Action>, p: nat, honest: bool, o: Oracle)
    returns (r: Result<Claim, Refusal>)
    requires Working(site, start, p, RecSettle(Executing, SaysAbsent, honest))
    modifies site, site.store
    ensures Kept(old(site.slice), site.slice) && old(site.slice).row.Some?
    ensures if o.lease < 1 then r == Err(NotPositive)
            else r.Ok? && (r.value.owned <==> LeaseOver(old(site.slice).row.value, o.lease, o.clock))
    ensures site.slice.row == if r.Ok? then Some(r.value.row) else old(site.slice).row
    ensures r.Ok? ==> if r.value.owned then r.value.row.status == Unknown else r.value.row == old(site.slice).row.value
    ensures if r.Err? then Done(site, start, p)
            else Working(site, start, p, if r.value.owned then RecLogStale(r.value.row) else RecLogEnd(r.value.row))
  {
    OwnersHaveRow(site, p);
    StaleStep(site.slice, p, o);
    r := site.store.RecoverStaleExecution(site.id, o.lease, o.clock);
    Moved(site, start, p, o);
  }

  /** A reconcile has learnt nothing to act on, and reads the row again. */
  method ReadAgain(site: Site, ghost start: seq<Action>, p: nat, seen: Status, report: Report, honest: bool, o: Oracle)
    returns (row: Row)
    requires Working(site, start, p, RecSettle(seen, report, honest))
    requires (report.Saw? ==> report.state == JobRunning) && !(seen == Executing && report == SaysAbsent)
    modifies site
    ensures site.slice.row == old(site.slice).row == Some(row) && Kept(old(site.slice), site.slice)
    ensures Working(site, start, p, RecLogEnd(row))
  {
    OwnersHaveRow(site, p);
    var found := site.store.Get(site.id);
    row := found.value;
    Moved(site, start, p, o);
  }

  /** A reconcile recovers the row as stale: it read EXECUTING, found the Job absent, and the lease of the
      row, as it is now, has run out. */
  predicate FoundStale(row: Row, seen: Status, report: Report, o: Oracle) {
    seen == Executing && report == SaysAbsent && o.lease >= 1 && LeaseOver(row, o.lease, o.clock)
  }

  /** What a reconcile does with the state it has read. */
  method Resolved(site: Site, ghost start: seq<Action>, p: nat, seen: Status, report: Report, honest: bool, o: Oracle)
    returns (r: Result<Row, Refusal>, stale: bool)
    requires Working(site, start, p, RecSettle(seen, report, honest))
    modifies site, site.store
    ensures Kept(old(site.slice), site.slice) && old(site.slice).row.Some?
    ensures stale <==> FoundStale(old(site.slice).row.value, seen, report, o)
    ensures r.Ok? ==> site.slice.row == Some(r.value)
    ensures r.Ok? ==> if report.Saw? && report.state != JobRunning then r.value.status == ReadBackStatus(report.state)
                      else if stale then r.value.status == Unknown
                      else r.value == old(site.slice).row.value
    ensures r.Err? ==> site.slice.row == old(site.slice).row
                       && (o.lease < 1 || Settled(site.slice.row.value.status))
    ensures if r.Err? then Done(site, start, p)
            else Working(site, start, p, if stale then RecLogStale(r.value) else RecLogEnd(r.value))
  {
    stale := false;
    if report.Saw? && report.state != JobRunning {
      r := ReadBackMarked(site, start, p, seen, report.state, honest, o);
    } else if seen == Executing && report == SaysAbsent {
      var claim := StaleRecovered(site, start, p, honest, o);
      if claim.Err? {
        return Err(claim.error), false;
      }
      r, stale := Ok(claim.value.row), claim.value.owned;
    } else {
      var row := ReadAgain(site, start, p, seen, report, honest, o);
      r := Ok(row);
    }
  }

  /** The audit events that end a reconcile. */
  method EndReconcile(site: Site, ghost start: seq<Action>, p: nat, row: Row, stale: bool, env: Env)
    requires Working(site, start, p, if stale then RecLogStale(row) else RecLogEnd(row))
    modifies site, site.store, site.audit, site.cluster
    ensures Done(site, start, p) && Kept(old(site.slice), site.slice)
  {
    if stale {
      RecordedNext(site, start, p, RecLogStale(row), ExecutionUnknown, env.others(3), env.oracle(4));
    }
    RecordedNext(site, start, p, RecLogEnd(row), ReconciliationCompleted(row.status), env.others(4), env.oracle(5));
  }

  /** A reconcile from its first event on. */
  method ReconcileActive(site: Site, ghost start: seq<Action>, p: nat, seen: Status, env: Env)
    returns (r: Result<Row, Failure>)
    requires Working(site, start, p, RecLogStart(seen))
    modifies site, site.store, site.audit, site.cluster
    ensures Done(site, start, p) && ReconcileAnswer(site.slice, env, r)
  {
    Recorded(site, start, p, RecLogStart(seen), ReconciliationStarted(seen), env.oracle(1));
    Waited(site, start, p, RecLook(seen), env.others(1));
    var report, honest := Looked(site, start, p, seen, env.oracle(2));
    if report.ReadRaised? {
      return Err(ExecutorRaised);
    }
    Waited(site, start, p, RecSettle(seen, report, honest), env.others(2));
    r := ReconcileRead(site, start, p, seen, report, honest, env);
  }

  /** What a reconcile of an active row gives its caller. */
  predicate ReconcileAnswer(s: Slice, env: Env, r: Result<Row, Failure>) {
    match r
    case Ok(row) => !env.oracle(2).read.ReadRaises? && Given(s, row)
    case Err(ExecutorRaised) => env.oracle(2).read.ReadRaises?
    case Err(Conflict(_)) =>
      !env.oracle(2).read.ReadRaises? && (env.oracle(3).lease < 1 || (s.row.Some? && Settled(s.row.value.status)))
    case Err(_) => false
  }

  /** The rest of a reconcile, with the state of the Job read. */
  method ReconcileRead(site: Site, ghost start: seq<Action>, p: nat, seen: Status, report: Report, honest: bool,
                       env: Env)
    returns (r: Result<Row, Failure>)
    requires Working(site, start, p, RecSettle(seen, report, honest)) && !env.oracle(2).read.ReadRaises?
    modifies site, site.store, site.audit, site.cluster
    ensures Done(site, start, p) && ReconcileAnswer(site.slice, env, r)
  {
    var settled, stale := Resolved(site, start, p, seen, report, honest, env.oracle(3));
    if settled.Err? {
      return Err(Conflict(settled.error));
    }
    StoredIsGiven(site, settled.value);
    ghost var before := site.slice;
    EndReconcile(site, start, p, settled.value, stale, env);
    StillGiven(before, site.slice, settled.value);
    return Ok(settled.value);
  }

  /** `reconcile`. */
  method Reconcile(site: Site, p: nat, env: Env) returns (r: Result<Row, Failure>)
    requires site.Valid() && p !in site.slice.procs
    modifies site, site.store, site.audit, site.cluster
    ensures Done(site, old(site.trace) + [Spawn(p, DoReconcile)], p)
    ensures r == Err(NotFoundError) <==> old(site.slice).row.None?
    ensures old(site.slice).row.Some? ==>
              if Active(old(site.slice).row.value.status) then ReconcileAnswer(site.slice, env, r)
              else r == Ok(old(site.slice).row.value)
  {
    ghost var start;
    var approval;
    start, approval := Entered(site, p, DoReconcile, env.oracle(0));
    if approval.None? {
      return Err(NotFoundError);
    }
    if !Active(approval.value.status) {
      return Ok(approval.value);
    }
    Waited(site, start, p, RecLogStart(approval.value.status), env.others(0));
    r := ReconcileActive(site, start, p, approval.value.status, env);
  }

  /** What a retry that owns its claim gives its caller: a row that has been in the store, or the store's
      refusal of its mark. */
  predicate RetryAnswer(s: Slice, r: Result<Row, Failure>) {
    match r
    case Ok(row) => Given(s, row)
    case Err(Conflict(refusal)) => Refused(s, refusal)
    case Err(_) => false
  }

  /** The status and the result that such a retry writes. */
  function Known(report: Report): (Status, Payload) {
    if report.Saw? then (ReadBackStatus(report.state), ReadBackPayload(report.state))
    else (Unknown, Payload(false, true, if report.ReadRaised? then Fault else Inconclusive))
  }

  lemma RetryMarkStep(s: Slice, p: nat, report: Report, o: Oracle)
    requires p in s.procs && s.row.Some? && s.procs[p].pc == RetrySettle(report)
    ensures Next(s, Move(p, o)) ==
      match Mark(s.row.value, Known(report).0, Known(report).1)
      case Err(_) => End(s, p)
      case Ok(row) =>
        if report.Saw? then Goto(Commit(s, row), p, LogLast(ReconciliationCompleted(row.status)))
        else End(Commit(s, row), p)
  {
  }

  /** A retry that reads a finished Job, or cannot tell, marks what it knows. */
  method RetrySettled(site: Site, ghost start: seq<Action>, p: nat, report: Report, o: Oracle)
    returns (r: Result<Row, Refusal>)
    requires Working(site, start, p, RetrySettle(report)) && report != SaysAbsent && report != Saw(JobRunning)
    modifies site, site.store
    ensures Kept(old(site.slice), site.slice)
    ensures r.Ok? ==> r.value.status == if report.Saw? then ReadBackStatus(report.state) else Unknown
    ensures if r.Ok? then Given(site.slice, r.value) else Refused(site.slice, r.error)
    ensures if r.Ok? && report.Saw? then Working(site, start, p, LogLast(ReconciliationCompleted(r.value.status)))
            else Done(site, start, p)
  {
    OwnersHaveRow(site, p);
    StoredIsGiven(site, site.slice.row.value);
    RetryMarkStep(site.slice, p, report, o);
    if report.Saw? {
      r := site.store.MarkSettled(site.id, ReadBackStatus(report.state), ReadBackPayload(report.state));
    } else {
      r := site.store.MarkUnknown(site.id, Payload(false, true, if report.ReadRaised? then Fault else Inconclusive));
    }
    Moved(site, start, p, o);
    if r.Ok? {
      StoredIsGiven(site, r.value);
    }
  }

  /** A retry that has read a finished Job, or cannot tell. */
  method EndRetry(site: Site, ghost start: seq<Action>, p: nat, report: Report, env: Env)
    returns (r: Result<Row, Failure>)
    requires Working(site, start, p, RetrySettle(report)) && report != SaysAbsent && report != Saw(JobRunning)
    modifies site, site.store, site.audit, site.cluster
    ensures Done(site, start, p) && RetryAnswer(site.slice, r)
  {
    var marked := RetrySettled(site, start, p, report, env.oracle(4));
    if marked.Err? {
      return Err(Conflict(marked.error));
    }
    if report.Saw? {
      var e := ReconciliationCompleted(marked.value.status);
      ghost var before := site.slice;
      RecordedNext(site, start, p, LogLast(e), e, env.others(4), env.oracle(5));
      StillGiven(before, site.slice, marked.value);
    }
    return Ok(marked.value);
  }

  /** A retry that has found the Job running records that, and reads the row again. */
  method KeepRunning(site: Site, ghost start: seq<Action>, p: nat, env: Env) returns (row: Row)
    requires Working(site, start, p, LogRetryRunning)
    modifies site, site.store, site.audit, site.cluster
    ensures Done(site, start, p) && Given(site.slice, row)
  {
    OwnersHaveRow(site, p);
    Recorded(site, start, p, LogRetryRunning, ReconciliationCompleted(Executing), env.oracle(4));
    WaitedAfter(site, start, p, env.others(4));
    var found := site.store.Get(site.id);
    row := found.value;
    StoredIsGiven(site, row);
  }

  /** A retry that has found the Job absent applies it. */
  method ApplyAgain(site: Site, ghost start: seq<Action>, p: nat, env: Env) returns (r: Result<Row, Failure>)
    requires Working(site, start, p, LogRetry)
    modifies site, site.store, site.audit, site.cluster
    ensures Done(site, start, p) && RetryAnswer(site.slice, r)
  {
    Recorded(site, start, p, LogRetry, ExecutionRetry, env.oracle(4));
    Waited(site, start, p, SendApply(RetryCall), env.others(4));
    var _, marked := AppliedAndMarked(site, start, p, RetryCall, env);
    return if marked.Err? then Err(Conflict(marked.error)) else Ok(marked.value);
  }

  /** A retry that has read the state of the Job. */
  method RetryRead(site: Site, ghost start: seq<Action>, p: nat, report: Report, env: Env)
    returns (r: Result<Row, Failure>)
    requires Working(site, start, p, AfterRetryLook(report))
    modifies site, site.store, site.audit, site.cluster
    ensures Done(site, start, p) && RetryAnswer(site.slice, r)
  {
    if report == SaysAbsent {
      r := ApplyAgain(site, start, p, env);
    } else if report == Saw(JobRunning) {
      var row := KeepRunning(site, start, p, env);
      r := Ok(row);
    } else {
      r := EndRetry(site, start, p, report, env);
    }
  }

  /** A retry that owns its claim. */
  method RetryClaimed(site: Site, ghost start: seq<Action>, p: nat, env: Env) returns (r: Result<Row, Failure>)
    requires Working(site, start, p, LogClaim(RetryCall))
    modifies site, site.store, site.audit, site.cluster
    ensures Done(site, start, p) && RetryAnswer(site.slice, r)
  {
    RecordedNext(site, start, p, LogClaim(RetryCall), ReconciliationStarted(Executing), env.others(1), env.oracle(2));
    Waited(site, start, p, RetryLook, env.others(2));
    var report := LookedForRetry(site, start, p, env.oracle(3));
    Waited(site, start, p, AfterRetryLook(report), env.others(3));
    r := RetryRead(site, start, p, report, env);
  }

  /** `retry_if_absent`. */
  method RetryIfAbsent(site: Site, p: nat, env: Env) returns (r: Result<Row, Failure>)
    requires site.Valid() && p !in site.slice.procs
    modifies site, site.store, site.audit, site.cluster
    ensures Done(site, old(site.trace) + [Spawn(p, DoExecute(RetryCall))], p)
    ensures r == Err(NotFoundError) <==> old(site.slice).row.None?
    ensures old(site.slice).row.Some? ==>
              if old(site.slice).row.value.status == Unknown then RetryAnswer(site.slice, r)
              else r == Ok(old(site.slice).row.value)
  {
    ghost var start;
    var approval;
    start, approval := Entered(site, p, DoExecute(RetryCall), env.oracle(0));
    if approval.None? {
      return Err(NotFoundError);
    }
    if approval.value.status != Unknown {
      return Ok(approval.value);
    }
    Waited(site, start, p, TakeClaim(RetryCall), env.others(0));
    var claim := Claimed(site, start, p, RetryCall, env.oracle(1));
    if claim.Err? {
      return Err(Conflict(claim.error));
    }
    if !claim.value.owned {
      return Ok(claim.value.row);
    }
    r := RetryClaimed(site, start, p, env);
  }
}
