/** What every interleaving of the protocol keeps: the row follows one story line, its columns
agree with its status, final rows are frozen, and nothing reaches the cluster unapproved. */
module ProtocolSafety {
  import opened Wrappers
  import opened ApprovalRows
  import opened ApprovalProtocol

  // ----- The simple machine that the row refines -----

  function Last(h: seq<Status>): Status
    requires h != []
  {
    h[|h| - 1]
  }

  /** pending, approved, executing, unknown, executing, unknown, ... */
  predicate Ongoing(h: seq<Status>) {
    && |h| >= 2
    && h[0] == Pending
    && h[1] == Approved
    && forall i :: 2 <= i < |h| ==> h[i] == if i % 2 == 0 then Executing else Unknown
  }

  /** pending, then rejected, or approved followed by executing/unknown alternation that ends in
      at most one of completed/failed. */
  predicate Story(h: seq<Status>) {
    || h == []
    || h == [Pending]
    || h == [Pending, Rejected]
    || Ongoing(h)
    || (|h| >= 4 && Settled(Last(h)) && Ongoing(h[..|h| - 1]))
  }

  lemma StoryGrows(h: seq<Status>, next: Status)
    requires Story(h) && h != [] && Edge(Last(h), next)
    ensures Story(h + [next])
  {
    var grown := h + [next];
    assert grown[..|grown| - 1] == h;
  }

  /** In a story that has reached execution, the human decision comes first. */
  lemma StoryNeedsApproval(h: seq<Status>)
    requires Story(h) && h != [] && (Active(Last(h)) || Settled(Last(h)))
    ensures |h| >= 3 && h[0] == Pending && h[1] == Approved && h[2] == Executing
    ensures Rejected !in h
  {
    if !Ongoing(h) {
      var open := h[..|h| - 1];
      assert h == open + [Last(h)];
    }
  }

  // ----- Columns -----

  /** The columns of a row born through `create`, given the statuses it has been through. */
  predicate Shape(row: Row, history: seq<Status>) {
    && (row.verdict.Some? <==> row.status != Pending)
    && (row.startedAt.Some? <==> Active(row.status) || Settled(row.status))
    && (row.result.Some? <==> Settled(row.status) || Unknown in history)
    && (row.result.Some? ==> (row.result.value.executed <==> row.status == Completed))
    && (row.status == Unknown ==> row.result.Some? && row.result.value.unknown)
    && row.action == TRAINING_ACTION
  }

  /** A row and the statuses committed on it so far. */
  predicate RowFits(row: Option<Row>, history: seq<Status>) {
    && Story(history)
    && (row.None? <==> history == [])
    && (row.Some? ==> Last(history) == row.value.status && Shape(row.value, history))
  }

  predicate RowInv(s: Slice) {
    RowFits(s.row, s.book.history)
  }

  /** The row has been claimed at least once, so a human approved it. */
  predicate Claimed(s: Slice) {
    s.row.Some? && (Active(s.row.value.status) || Settled(s.row.value.status))
  }

  predicate HasStatus(s: Slice, status: Status) {
    s.row.Some? && s.row.value.status == status
  }

  // ----- The invariant -----

  /** What a process relies on at its program counter. */
  predicate PcOk(s: Slice, pc: Pc) {
    match pc
    case Begin(_) => true
    case TakeClaim(caller) => caller == RetryCall ==> Claimed(s)
    case LogClaim(caller) => Claimed(s) && caller != ServiceCall
    case LogLast(ApprovalRequested) => true
    case LogLast(ApprovalDecided(_)) => true
    case LogLast(ExecutionCompleted) => HasStatus(s, Completed)
    case LogLast(ExecutionFailed) => HasStatus(s, Failed)
    case LogLast(ReconciliationCompleted(status)) => Settled(status) && HasStatus(s, status)
    case LogLast(ExecutionUnknown) => Claimed(s)
    case LogLast(_) => false
    case RetrySettle(report) => Claimed(s) && report != SaysAbsent && report != Saw(JobRunning)
    case RecSettle(seen, report, _) => Claimed(s) && report != ReadRaised
    case _ => Claimed(s)
  }

  predicate ProcsOk(s: Slice) {
    forall p :: p in s.procs ==> PcOk(s, s.procs[p].pc)
  }

  predicate LogOk(s: Slice) {
    && (ExecutionCompleted in s.log ==> HasStatus(s, Completed))
    && (ExecutionFailed in s.log ==> HasStatus(s, Failed))
  }

  /** The cluster has been touched, or may yet be by a request already sent. */
  predicate Touched(s: Slice) {
    || s.book.calls > 0 || s.book.serviceCalls > 0 || s.book.sent > 0
    || s.flights != map[] || !s.job.Never? || s.book.created > 0
  }

  predicate Inv(s: Slice) {
    RowInv(s) && ProcsOk(s) && LogOk(s) && (Touched(s) ==> Claimed(s))
  }

  /** How the row may change in one step. */
  predicate Progress(s: Slice, t: Slice) {
    && (s.row.Some? ==> t.row.Some?)
    && (Claimed(s) ==> Claimed(t))
    && (s.row.Some? && Final(s.row.value.status) ==> t.row == s.row && t.book.history == s.book.history)
    && s.book.history <= t.book.history
    && s.log <= t.log
    && s.now <= t.now
  }

  // ----- One transaction -----

  /** A row update that follows an edge and keeps the columns in step. */
  predicate Lawful(s: Slice, row: Row) {
    if s.row.None? then row.status == Pending && Shape(row, [Pending])
    else
      var old' := s.row.value;
      (row == old' || (Edge(old'.status, row.status) && Shape(row, s.book.history + [row.status])))
  }

  lemma CommitKeeps(s: Slice, row: Row)
    requires RowInv(s) && Lawful(s, row)
    ensures RowInv(Commit(s, row)) && Progress(s, Commit(s, row))
  {
    var h := s.book.history;
    if s.row.None? {
      assert h + [row.status] == [Pending];
    } else if row != s.row.value {
      assert Last(h) == s.row.value.status;
      StoryGrows(h, row.status);
      assert RowFits(Some(row), h + [row.status]);
    }
  }

  /** Every mutator's outcome is lawful. */
  lemma MutatorsLawful(s: Slice)
    requires RowInv(s) && s.row.Some?
    ensures forall approved, v {:trigger Decide(s.row.value, approved, v)} ::
      Decide(s.row.value, approved, v).Ok? ==> Lawful(s, Decide(s.row.value, approved, v).value)
    ensures forall caller, clock {:trigger TryClaim(s.row.value, caller, clock)} ::
      var r := TryClaim(s.row.value, caller, clock);
      r.Ok? && r.value.owned ==> Lawful(s, r.value.row) && r.value.row.status == Executing
    ensures forall clock {:trigger MarkExecuting(s.row.value, clock)} ::
      MarkExecuting(s.row.value, clock).Ok? ==> Lawful(s, MarkExecuting(s.row.value, clock).value)
    ensures forall clock {:trigger MarkRetryExecuting(s.row.value, clock)} ::
      MarkRetryExecuting(s.row.value, clock).Ok? ==> Lawful(s, MarkRetryExecuting(s.row.value, clock).value)
    ensures forall p: Payload {:trigger MarkUnknown(s.row.value, p)} ::
      var r := MarkUnknown(s.row.value, p);
      r.Ok? && p.unknown && !p.executed ==> Lawful(s, r.value) && r.value.status == Unknown
    ensures forall t, p: Payload {:trigger MarkSettled(s.row.value, t, p)} ::
      Settled(t) && (p.executed <==> t == Completed) ==>
        var r := MarkSettled(s.row.value, t, p);
        r.Ok? ==> Lawful(s, r.value) && r.value.status == t
    ensures forall lease, clock {:trigger RecoverStale(s.row.value, lease, clock)} ::
      var r := RecoverStale(s.row.value, lease, clock);
      r.Ok? && r.value.owned ==> Lawful(s, r.value.row) && r.value.row.status == Unknown
  {
    var h := s.book.history;
    if Active(s.row.value.status) || Settled(s.row.value.status) {
      StoryNeedsApproval(h);
    }
  }

  // ----- One action -----

  lemma CommitInv(s: Slice, row: Row)
    requires Inv(s) && Lawful(s, row)
    ensures Inv(Commit(s, row)) && Progress(s, Commit(s, row))
  {
    CommitKeeps(s, row);
    var t := Commit(s, row);
    forall p | p in t.procs ensures PcOk(t, t.procs[p].pc) {
      assert PcOk(s, s.procs[p].pc);
    }
  }

  lemma GotoInv(s: Slice, p: nat, pc: Pc, since: int)
    requires Inv(s) && PcOk(s, pc)
    ensures Inv(s.(procs := s.procs[p := Proc(pc, since)]))
  {
    var t := s.(procs := s.procs[p := Proc(pc, since)]);
    forall q | q in t.procs ensures PcOk(t, t.procs[q].pc) {
      if q != p { assert PcOk(s, s.procs[q].pc); }
    }
  }

  lemma EndInv(s: Slice, p: nat)
    requires Inv(s)
    ensures Inv(End(s, p))
  {
    var t := End(s, p);
    forall q | q in t.procs ensures PcOk(t, t.procs[q].pc) {
      assert PcOk(s, s.procs[q].pc);
    }
  }

  lemma RecordInv(s: Slice, e: Event)
    requires Inv(s)
    requires e == ExecutionCompleted ==> HasStatus(s, Completed)
    requires e == ExecutionFailed ==> HasStatus(s, Failed)
    ensures Inv(Record(s, e))
  {
    var t := Record(s, e);
    forall q | q in t.procs ensures PcOk(t, t.procs[q].pc) {
      assert PcOk(s, s.procs[q].pc);
    }
  }

  /** Changes of the clock, the cluster and the bookkeeping. */
  lemma ClusterInv(s: Slice, t: Slice)
    requires Inv(s)
    requires t == s.(now := t.now, job := t.job, flights := t.flights, book := t.book)
    requires t.book.history == s.book.history && (Touched(t) ==> Claimed(s))
    ensures Inv(t)
  {
    forall q | q in t.procs ensures PcOk(t, t.procs[q].pc) {
      assert PcOk(s, s.procs[q].pc);
    }
  }

  lemma CommitGotoInv(s: Slice, p: nat, row: Row, pc: Pc)
    requires Inv(s) && Lawful(s, row) && p in s.procs && PcOk(Commit(s, row), pc)
    ensures Inv(Goto(Commit(s, row), p, pc)) && Progress(s, Goto(Commit(s, row), p, pc))
  {
    CommitInv(s, row);
    GotoInv(Commit(s, row), p, pc, s.procs[p].since);
  }

  lemma BeginKeeps(s: Slice, p: nat, task: Task, clock: int)
    requires Inv(s) && p in s.procs
    ensures Inv(BeginStep(s, p, task, clock)) && Progress(s, BeginStep(s, p, task, clock))
  {
    EndInv(s, p);
    match task {
      case DoCreate(trace, action) =>
        if s.row.None? && action == TRAINING_ACTION {
          var row := NewRow(trace, action, clock);
          CommitGotoInv(s, p, row, LogLast(ApprovalRequested));
        }
      case DoDecide(approved, who, comment) =>
        if s.row.Some? && Decide(s.row.value, approved, Verdict(clock, who, comment)).Ok? {
          MutatorsLawful(s);
          var row := Decide(s.row.value, approved, Verdict(clock, who, comment)).value;
          CommitGotoInv(s, p, row, LogLast(ApprovalDecided(approved)));
        }
      case DoExecute(caller) =>
        if caller == RetryCall ==> Claimed(s) { GotoInv(s, p, TakeClaim(caller), s.procs[p].since); }
      case DoReconcile =>
        if Claimed(s) { GotoInv(s, p, RecLogStart(s.row.value.status), s.now); }
    }
  }

  lemma ClaimKeeps(s: Slice, p: nat, caller: Caller, clock: int)
    requires Inv(s) && p in s.procs
    ensures Inv(ClaimStep(s, p, caller, clock)) && Progress(s, ClaimStep(s, p, caller, clock))
  {
    EndInv(s, p);
    if s.row.Some? {
      MutatorsLawful(s);
      var r := TryClaim(s.row.value, caller, clock);
      if r.Ok? && r.value.owned {
        CommitInv(s, r.value.row);
        GotoInv(Commit(s, r.value.row), p,
                if caller == ServiceCall then SendApply(ServiceCall) else LogClaim(caller), s.now);
      }
    }
  }

  lemma MarkStepKeeps(s: Slice, p: nat, caller: Caller, reply: Reply)
    requires Inv(s) && p in s.procs
    ensures Inv(MarkStep(s, p, caller, reply)) && Progress(s, MarkStep(s, p, caller, reply))
  {
    EndInv(s, p);
    if s.row.Some? {
      MutatorsLawful(s);
      var r := Mark(s.row.value, ReplyStatus(caller, reply), ReplyPayload(caller, reply));
      if r.Ok? {
        CommitInv(s, r.value);
        EndInv(Commit(s, r.value), p);
        if caller == ExecuteHandler { CommitGotoInv(s, p, r.value, LogLast(ReplyEvent(reply))); }
      }
    }
  }

  lemma RetrySettleKeeps(s: Slice, p: nat, report: Report)
    requires Inv(s) && p in s.procs
    ensures Inv(RetrySettleStep(s, p, report)) && Progress(s, RetrySettleStep(s, p, report))
  {
    EndInv(s, p);
    if s.row.Some? {
      MutatorsLawful(s);
      match report {
        case Saw(state) =>
          var r := MarkSettled(s.row.value, ReadBackStatus(state), ReadBackPayload(state));
          if r.Ok? {
            CommitGotoInv(s, p, r.value, LogLast(ReconciliationCompleted(r.value.status)));
          }
        case _ =>
          var r := MarkUnknown(s.row.value,
                               Payload(false, true, if report.ReadRaised? then Fault else Inconclusive));
          if r.Ok? {
            CommitInv(s, r.value);
            EndInv(Commit(s, r.value), p);
          }
      }
    }
  }

  lemma RecSettleKeeps(s: Slice, p: nat, seen: Status, report: Report, o: Oracle)
    requires Inv(s) && p in s.procs && Claimed(s)
    ensures Inv(RecSettleStep(s, p, seen, report, o)) && Progress(s, RecSettleStep(s, p, seen, report, o))
  {
    EndInv(s, p);
    GotoInv(s, p, RecLogEnd(s.row.value), s.procs[p].since);
    MutatorsLawful(s);
    if report.Saw? && report.state != JobRunning {
      var r := MarkSettled(s.row.value, ReadBackStatus(report.state), ReadBackPayload(report.state));
      if r.Ok? { CommitGotoInv(s, p, r.value, RecLogEnd(r.value)); }
    } else if report == SaysAbsent && seen == Executing {
      var r := RecoverStale(s.row.value, o.lease, o.clock);
      if r.Ok? && r.value.owned { CommitGotoInv(s, p, r.value.row, RecLogStale(r.value.row)); }
    }
  }

  lemma SendKeeps(s: Slice, p: nat, caller: Caller, fate: ApplyFate)
    requires Inv(s) && p in s.procs && Claimed(s)
    ensures Inv(SendStep(s, p, caller, fate)) && Progress(s, SendStep(s, p, caller, fate))
  {
    var t := SendStep(s, p, caller, fate);
    ClusterInv(s, t.(procs := s.procs));
    GotoInv(t.(procs := s.procs), p, t.procs[p].pc, s.procs[p].since);
  }

  lemma RecordGotoInv(s: Slice, p: nat, e: Event, pc: Pc)
    requires Inv(s) && p in s.procs && PcOk(s, pc) && e != ExecutionCompleted && e != ExecutionFailed
    ensures Inv(Goto(Record(s, e), p, pc)) && Progress(s, Goto(Record(s, e), p, pc))
  {
    RecordInv(s, e);
    GotoInv(Record(s, e), p, pc, s.procs[p].since);
  }

  lemma RecordEndInv(s: Slice, p: nat, e: Event)
    requires Inv(s) && p in s.procs
    requires e == ExecutionCompleted ==> HasStatus(s, Completed)
    requires e == ExecutionFailed ==> HasStatus(s, Failed)
    ensures Inv(End(Record(s, e), p)) && Progress(s, End(Record(s, e), p))
  {
    RecordInv(s, e);
    EndInv(Record(s, e), p);
  }

  /** The remaining steps append an event or move on. */
  lemma QuietKeeps(s: Slice, p: nat, o: Oracle)
    requires Inv(s) && p in s.procs && PcOk(s, s.procs[p].pc)
    requires var pc := s.procs[p].pc;
      pc.LogClaim? || pc.LogRetry? || pc.LogRetryRunning? || pc.LogLast?
      || pc.RecLogStart? || pc.RecLogStale? || pc.RecLogEnd?
    ensures Inv(Advance(s, p, o)) && Progress(s, Advance(s, p, o))
  {
    match s.procs[p].pc {
      case LogClaim(caller) =>
        if caller == RetryCall { RecordGotoInv(s, p, ReconciliationStarted(Executing), RetryLook); }
        else { RecordGotoInv(s, p, ExecutionStarted, SendApply(caller)); }
      case LogRetry => RecordGotoInv(s, p, ExecutionRetry, SendApply(RetryCall));
      case LogRetryRunning => RecordEndInv(s, p, ReconciliationCompleted(Executing));
      case LogLast(e) => RecordEndInv(s, p, e);
      case RecLogStart(seen) => RecordGotoInv(s, p, ReconciliationStarted(seen), RecLook(seen));
      case RecLogStale(row) => RecordGotoInv(s, p, ExecutionUnknown, RecLogEnd(row));
      case RecLogEnd(row) => RecordEndInv(s, p, ReconciliationCompleted(row.status));
    }
  }

  lemma AwaitKeeps(s: Slice, p: nat, o: Oracle)
    requires Inv(s) && p in s.procs && PcOk(s, s.procs[p].pc) && s.procs[p].pc.AwaitApply?
    ensures Inv(Advance(s, p, o)) && Progress(s, Advance(s, p, o))
  {
    GotoInv(s, p, Advance(s, p, o).procs[p].pc, s.procs[p].since);
  }

  lemma LookKeeps(s: Slice, p: nat, o: Oracle)
    requires Inv(s) && p in s.procs && PcOk(s, s.procs[p].pc)
    requires s.procs[p].pc.RetryLook? || s.procs[p].pc.RecLook?
    ensures Inv(Advance(s, p, o)) && Progress(s, Advance(s, p, o))
  {
    var t := Advance(s, p, o);
    EndInv(s, p);
    if p in t.procs { GotoInv(s, p, t.procs[p].pc, s.procs[p].since); }
  }

  lemma AdvanceKeeps(s: Slice, p: nat, o: Oracle)
    requires Inv(s) && p in s.procs
    ensures Inv(Advance(s, p, o)) && Progress(s, Advance(s, p, o))
  {
    assert PcOk(s, s.procs[p].pc);
    match s.procs[p].pc {
      case Begin(task) => BeginKeeps(s, p, task, o.clock);
      case TakeClaim(caller) => ClaimKeeps(s, p, caller, o.clock);
      case SendApply(caller) => SendKeeps(s, p, caller, o.apply);
      case MarkReply(caller, reply) => MarkStepKeeps(s, p, caller, reply);
      case RetrySettle(report) => RetrySettleKeeps(s, p, report);
      case RecSettle(seen, report, honest) =>
        var noted := NoteCovered(s, s.procs[p].since, honest);
        ClusterInv(s, noted);
        RecSettleKeeps(noted, p, seen, report, o);
      case RetryLook => LookKeeps(s, p, o);
      case AwaitApply(_, _) => AwaitKeeps(s, p, o);
      case RecLook(_) => LookKeeps(s, p, o);
      case _ => QuietKeeps(s, p, o);
    }
  }

  lemma NextKeeps(s: Slice, a: Action)
    requires Inv(s)
    ensures Inv(Next(s, a)) && Progress(s, Next(s, a))
  {
    match a {
      case Move(p, o) => if p in s.procs { AdvanceKeeps(s, p, o); }
      case Spawn(p, task) => GotoInv(s, p, Begin(task), s.now);
      case Crash(p) => EndInv(s, p);
      case Tick(_) => ClusterInv(s, Next(s, a));
      case Land(r) => if r in s.flights { ClusterInv(s, LandRequest(s, r)); }
      case _ => ClusterInv(s, Next(s, a));
    }
  }
}
