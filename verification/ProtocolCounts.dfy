/** How often things happen to one approval: apply calls, claims and their audit events, over runs
in which any process may crash before the event that it owes. */
module ProtocolCounts {
  import opened Wrappers
  import opened ApprovalRows
  import opened ApprovalProtocol
  import opened ProtocolSafety
  import opened RunTheorems

  /** What a process still owes the audit log, or the cluster, for a claim it made. */
  datatype Duty = OwesStarted | OwesRetry | OwesCall | OwesServiceCall | OwesUnknown | OwesNothing

  function DutyOf(pc: Pc): Duty {
    match pc
    case LogClaim(caller) => if caller == RetryCall then OwesRetry else OwesStarted
    case RetryLook => OwesRetry
    case LogRetry => OwesRetry
    case SendApply(caller) => if caller == ServiceCall then OwesServiceCall else OwesCall
    case LogLast(e) => if e == ExecutionUnknown then OwesUnknown else OwesNothing
    case RecLogStale(_) => OwesUnknown
    case _ => OwesNothing
  }

  function Owing(procs: map<nat, Proc>, d: Duty): set<nat> {
    set p | p in procs && DutyOf(procs[p].pc) == d
  }

  function Number(procs: map<nat, Proc>, d: Duty): nat {
    |Owing(procs, d)|
  }

  /** 1 if process `p` is there and owes `d`. */
  function Mine(procs: map<nat, Proc>, p: nat, d: Duty): nat {
    if p in procs && DutyOf(procs[p].pc) == d then 1 else 0
  }

  lemma NumberMoves(procs: map<nat, Proc>, after: map<nat, Proc>, p: nat, d: Duty)
    requires after - {p} == procs - {p}
    ensures Number(after, d) - Mine(after, p, d) == Number(procs, d) - Mine(procs, p, d)
  {
    NumberWithout(procs, p, d);
    NumberWithout(after, p, d);
  }

  lemma NumberWithout(procs: map<nat, Proc>, p: nat, d: Duty)
    ensures Number(procs, d) == Number(procs - {p}, d) + Mine(procs, p, d)
  {
    var less := procs - {p};
    forall q ensures q in Owing(less, d) <==> q in Owing(procs, d) && q != p {
      assert q in less <==> q in procs && q != p;
    }
    assert Owing(less, d) == Owing(procs, d) - {p};
  }

  function Events(s: Slice, e: Event): nat {
    multiset(s.log)[e]
  }

  function Entries(s: Slice, status: Status): nat {
    multiset(s.book.history)[status]
  }

  /** What is done plus what is owed is covered by what has been claimed, duty by duty. */
  predicate Fair(s: Slice, d: Duty) {
    match d
    case OwesCall =>
      s.book.calls + Number(s.procs, OwesCall) <= Events(s, ExecutionStarted) + Events(s, ExecutionRetry)
    case OwesStarted =>
      Events(s, ExecutionStarted) + s.book.serviceCalls
      + Number(s.procs, OwesStarted) + Number(s.procs, OwesServiceCall)
      <= One(Executing in s.book.history)
    case OwesRetry =>
      Events(s, ExecutionStarted) + Events(s, ExecutionRetry) + s.book.serviceCalls
      + Number(s.procs, OwesStarted) + Number(s.procs, OwesRetry) + Number(s.procs, OwesServiceCall)
      <= Entries(s, Executing)
    case OwesUnknown =>
      Events(s, ExecutionUnknown) + Number(s.procs, OwesUnknown) <= Entries(s, Unknown)
    case _ => true
  }

  /** Every event and every call has a claim behind it. */
  predicate Balanced(s: Slice) {
    forall d: Duty :: Fair(s, d)
  }

  // ----- The outline of a step -----

  /** All that the counts see of a step of process `p`: the duty it is left with (`OwesNothing` once
      it has ended), the event it appends, the status it commits and whether it calls apply. */
  datatype Outline = Outline(duty: Duty, event: Option<Event>, status: Option<Status>,
                             calls: bool, serviceCalls: bool)

  function Listed<T>(x: Option<T>): seq<T> {
    if x.Some? then [x.value] else []
  }

  function One(b: bool): nat {
    if b then 1 else 0
  }

  predicate Follows(s: Slice, t: Slice, p: nat, o: Outline)
    requires p in s.procs
  {
    && t.procs - {p} == s.procs - {p}
    && (if p in t.procs then DutyOf(t.procs[p].pc) == o.duty else o.duty == OwesNothing)
    && t.log == s.log + Listed(o.event)
    && t.book.history == s.book.history + Listed(o.status)
    && t.book.calls == s.book.calls + One(o.calls)
    && t.book.serviceCalls == s.book.serviceCalls + One(o.serviceCalls)
  }

  /** The step pays for the duty it takes on: `started` says whether the row had been claimed. */
  predicate Pays(before: Duty, o: Outline, started: bool) {
    && (o.calls ==> before == OwesCall && o.duty == OwesNothing)
    && (o.serviceCalls ==> before == OwesServiceCall && o.duty == OwesNothing)
    && match o.duty
       case OwesStarted => o.event.None? && o.status == Some(Executing) && !started
       case OwesServiceCall => o.event.None? && o.status == Some(Executing) && !started
       case OwesRetry => o.event != Some(ExecutionStarted) && o.event != Some(ExecutionRetry)
                         && o.event != Some(ExecutionUnknown)
                         && (before == OwesRetry || o.status == Some(Executing))
       case OwesCall => || (before == OwesStarted && o.event == Some(ExecutionStarted))
                        || (before == OwesRetry && o.event == Some(ExecutionRetry))
       case OwesUnknown => o.event.None? && o.status == Some(Unknown)
       case OwesNothing => && o.event != Some(ExecutionStarted) && o.event != Some(ExecutionRetry)
                           && (o.event == Some(ExecutionUnknown) ==> before == OwesUnknown)
  }

  lemma CountGrows<T>(l: seq<T>, x: Option<T>, y: T)
    ensures multiset(l + Listed(x))[y] == multiset(l)[y] + One(x == Some(y))
    ensures y in l + Listed(x) <==> y in l || x == Some(y)
  {
  }

  /** What `Pays` means for one duty, in numbers. */
  predicate PaysFor(before: Duty, o: Outline, started: bool, d: Duty) {
    match d
    case OwesCall =>
      One(o.calls) + One(o.duty == OwesCall)
      <= One(before == OwesCall) + One(o.event == Some(ExecutionStarted)) + One(o.event == Some(ExecutionRetry))
    case OwesStarted =>
      One(o.event == Some(ExecutionStarted)) + One(o.serviceCalls)
      + One(o.duty == OwesStarted) + One(o.duty == OwesServiceCall)
      <= One(before == OwesStarted) + One(before == OwesServiceCall) + One(o.status == Some(Executing) && !started)
    case OwesRetry =>
      One(o.event == Some(ExecutionStarted)) + One(o.event == Some(ExecutionRetry)) + One(o.serviceCalls)
      + One(o.duty == OwesStarted) + One(o.duty == OwesRetry) + One(o.duty == OwesServiceCall)
      <= One(before == OwesStarted) + One(before == OwesRetry) + One(before == OwesServiceCall)
         + One(o.status == Some(Executing))
    case OwesUnknown =>
      One(o.event == Some(ExecutionUnknown)) + One(o.duty == OwesUnknown)
      <= One(before == OwesUnknown) + One(o.status == Some(Unknown))
    case _ => true
  }

  lemma PaysEach(before: Duty, o: Outline, started: bool, d: Duty)
    requires Pays(before, o, started)
    ensures PaysFor(before, o, started, d)
  {
  }

  lemma NumberFollows(s: Slice, t: Slice, p: nat, o: Outline, d: Duty)
    requires p in s.procs && Follows(s, t, p, o) && d != OwesNothing
    ensures Number(t.procs, d) == Number(s.procs, d) + One(o.duty == d) - One(DutyOf(s.procs[p].pc) == d)
  {
    NumberMoves(s.procs, t.procs, p, d);
  }

  lemma OutlineFair(s: Slice, t: Slice, p: nat, o: Outline, d: Duty)
    requires Fair(s, d) && p in s.procs && Follows(s, t, p, o)
    requires PaysFor(DutyOf(s.procs[p].pc), o, Executing in s.book.history, d)
    ensures Fair(t, d)
  {
    match d {
      case OwesCall =>
        NumberFollows(s, t, p, o, OwesCall);
        CountGrows(s.log, o.event, ExecutionStarted);
        CountGrows(s.log, o.event, ExecutionRetry);
      case OwesStarted =>
        NumberFollows(s, t, p, o, OwesStarted);
        NumberFollows(s, t, p, o, OwesServiceCall);
        CountGrows(s.log, o.event, ExecutionStarted);
        CountGrows(s.book.history, o.status, Executing);
      case OwesRetry =>
        NumberFollows(s, t, p, o, OwesStarted);
        NumberFollows(s, t, p, o, OwesRetry);
        NumberFollows(s, t, p, o, OwesServiceCall);
        CountGrows(s.log, o.event, ExecutionStarted);
        CountGrows(s.log, o.event, ExecutionRetry);
        CountGrows(s.book.history, o.status, Executing);
      case OwesUnknown =>
        NumberFollows(s, t, p, o, OwesUnknown);
        CountGrows(s.log, o.event, ExecutionUnknown);
        CountGrows(s.book.history, o.status, Unknown);
      case _ =>
    }
  }

  lemma OutlinePays(s: Slice, t: Slice, p: nat, o: Outline)
    requires Balanced(s) && p in s.procs && Follows(s, t, p, o)
    requires Pays(DutyOf(s.procs[p].pc), o, Executing in s.book.history)
    ensures Balanced(t)
  {
    forall d: Duty ensures Fair(t, d) {
      assert Fair(s, d);
      PaysEach(DutyOf(s.procs[p].pc), o, Executing in s.book.history, d);
      OutlineFair(s, t, p, o, d);
    }
  }

  function Moved(s: Slice, row: Row): Option<Status> {
    if s.row.None? || s.row.value.status != row.status then Some(row.status) else None
  }

  lemma CommitBalanced(s: Slice, p: nat, row: Row, pc: Pc, since: int)
    requires Balanced(s) && p in s.procs
    requires Pays(DutyOf(s.procs[p].pc), Outline(DutyOf(pc), None, Moved(s, row), false, false),
                  Executing in s.book.history)
    ensures Balanced(Commit(s, row).(procs := s.procs[p := Proc(pc, since)]))
  {
    OutlinePays(s, Commit(s, row).(procs := s.procs[p := Proc(pc, since)]), p,
                Outline(DutyOf(pc), None, Moved(s, row), false, false));
  }

  lemma CommitEndBalanced(s: Slice, p: nat, row: Row)
    requires Balanced(s) && p in s.procs
    requires Pays(DutyOf(s.procs[p].pc), Outline(OwesNothing, None, Moved(s, row), false, false),
                  Executing in s.book.history)
    ensures Balanced(End(Commit(s, row), p))
  {
    OutlinePays(s, End(Commit(s, row), p), p, Outline(OwesNothing, None, Moved(s, row), false, false));
  }

  lemma RecordBalanced(s: Slice, p: nat, e: Event, pc: Pc)
    requires Balanced(s) && p in s.procs
    requires Pays(DutyOf(s.procs[p].pc), Outline(DutyOf(pc), Some(e), None, false, false), Executing in s.book.history)
    ensures Balanced(Goto(Record(s, e), p, pc))
  {
    OutlinePays(s, Goto(Record(s, e), p, pc), p, Outline(DutyOf(pc), Some(e), None, false, false));
  }

  lemma RecordEndBalanced(s: Slice, p: nat, e: Event)
    requires Balanced(s) && p in s.procs
    requires Pays(DutyOf(s.procs[p].pc), Outline(OwesNothing, Some(e), None, false, false), Executing in s.book.history)
    ensures Balanced(End(Record(s, e), p))
  {
    OutlinePays(s, End(Record(s, e), p), p, Outline(OwesNothing, Some(e), None, false, false));
  }

  lemma GotoBalanced(s: Slice, p: nat, pc: Pc, since: int)
    requires Balanced(s) && p in s.procs
    requires Pays(DutyOf(s.procs[p].pc), Outline(DutyOf(pc), None, None, false, false), Executing in s.book.history)
    ensures Balanced(s.(procs := s.procs[p := Proc(pc, since)]))
  {
    var t := s.(procs := s.procs[p := Proc(pc, since)]);
    assert t.log == s.log + [];
    OutlinePays(s, t, p, Outline(DutyOf(pc), None, None, false, false));
  }

  /** A process that ends, returning, raising or crashing, or that has just begun, owes nothing. */
  lemma IdleBalanced(s: Slice, p: nat, t: Slice)
    requires Balanced(s) && t == s.(procs := t.procs) && t.procs - {p} == s.procs - {p}
    requires p in t.procs ==> DutyOf(t.procs[p].pc) == OwesNothing
    ensures Balanced(t)
  {
    NumberMoves(s.procs, t.procs, p, OwesStarted);
    NumberMoves(s.procs, t.procs, p, OwesRetry);
    NumberMoves(s.procs, t.procs, p, OwesCall);
    NumberMoves(s.procs, t.procs, p, OwesUnknown);
    NumberMoves(s.procs, t.procs, p, OwesServiceCall);
    forall d: Duty ensures Fair(t, d) {
      assert Fair(s, d);
    }
  }

  lemma EndBalanced(s: Slice, p: nat)
    requires Balanced(s)
    ensures Balanced(End(s, p))
  {
    IdleBalanced(s, p, End(s, p));
  }

  lemma SpawnBalanced(s: Slice, p: nat, task: Task)
    requires Balanced(s) && p !in s.procs
    ensures Balanced(GotoSince(s, p, Begin(task)))
  {
    IdleBalanced(s, p, GotoSince(s, p, Begin(task)));
  }

  // ----- One step -----

  lemma WriteBalanced(s: Slice, p: nat, task: Task, clock: int)
    requires Balanced(s) && p in s.procs && s.procs[p].pc == Begin(task) && (task.DoCreate? || task.DoDecide?)
    ensures Balanced(BeginStep(s, p, task, clock))
  {
    EndBalanced(s, p);
    var since := s.procs[p].since;
    if task.DoCreate? {
      if s.row.None? {
        CommitBalanced(s, p, NewRow(task.trace, task.action, clock), LogLast(ApprovalRequested), since);
      }
    } else if s.row.Some? {
      var r := Decide(s.row.value, task.approved, Verdict(clock, task.who, task.comment));
      if r.Ok? { CommitBalanced(s, p, r.value, LogLast(ApprovalDecided(task.approved)), since); }
    }
  }

  lemma BeginBalanced(s: Slice, p: nat, task: Task, clock: int)
    requires Balanced(s) && p in s.procs && s.procs[p].pc == Begin(task)
    ensures Balanced(BeginStep(s, p, task, clock))
  {
    if task.DoCreate? || task.DoDecide? {
      WriteBalanced(s, p, task, clock);
    } else {
      EndBalanced(s, p);
      var t := BeginStep(s, p, task, clock);
      if p in t.procs { GotoBalanced(s, p, t.procs[p].pc, t.procs[p].since); }
    }
  }

  /** A claim turns APPROVED, or for a retry UNKNOWN, into EXECUTING. */
  lemma ClaimOutcome(row: Row, caller: Caller, clock: int)
    requires TryClaim(row, caller, clock).Ok? && TryClaim(row, caller, clock).value.owned
    ensures TryClaim(row, caller, clock).value.row.status == Executing
    ensures row.status == if caller == RetryCall then Unknown else Approved
  {
  }

  lemma ClaimWon(s: Slice, p: nat, caller: Caller, row: Row)
    requires RowInv(s) && Balanced(s) && p in s.procs && s.procs[p].pc == TakeClaim(caller)
    requires row.status == Executing && HasStatus(s, if caller == RetryCall then Unknown else Approved)
    ensures Balanced(GotoSince(Commit(s, row), p,
                               if caller == ServiceCall then SendApply(ServiceCall) else LogClaim(caller)))
  {
    assert caller != RetryCall ==> Executing !in s.book.history;
    CommitBalanced(s, p, row, if caller == ServiceCall then SendApply(ServiceCall) else LogClaim(caller), s.now);
  }

  lemma ClaimBalanced(s: Slice, p: nat, caller: Caller, clock: int)
    requires RowInv(s) && Balanced(s) && p in s.procs && s.procs[p].pc == TakeClaim(caller)
    ensures Balanced(ClaimStep(s, p, caller, clock))
  {
    var r := if s.row.Some? then TryClaim(s.row.value, caller, clock) else Err(NotFound);
    if r.Ok? && r.value.owned {
      ClaimOutcome(s.row.value, caller, clock);
      ClaimWon(s, p, caller, r.value.row);
    } else {
      EndBalanced(s, p);
    }
  }

  lemma MarkBalanced(s: Slice, p: nat, caller: Caller, reply: Reply)
    requires Balanced(s) && p in s.procs && s.procs[p].pc == MarkReply(caller, reply)
    ensures Balanced(MarkStep(s, p, caller, reply))
  {
    EndBalanced(s, p);
    if s.row.Some? {
      var r := Mark(s.row.value, ReplyStatus(caller, reply), ReplyPayload(caller, reply));
      if r.Ok? && caller == ExecuteHandler {
        CommitBalanced(s, p, r.value, LogLast(ReplyEvent(reply)), s.procs[p].since);
      } else if r.Ok? {
        CommitEndBalanced(s, p, r.value);
      }
    }
  }

  lemma RetrySettleBalanced(s: Slice, p: nat, report: Report)
    requires Balanced(s) && p in s.procs && s.procs[p].pc == RetrySettle(report)
    ensures Balanced(RetrySettleStep(s, p, report))
  {
    EndBalanced(s, p);
    if s.row.Some? {
      if report.Saw? {
        var r := MarkSettled(s.row.value, ReadBackStatus(report.state), ReadBackPayload(report.state));
        if r.Ok? { CommitBalanced(s, p, r.value, LogLast(ReconciliationCompleted(r.value.status)), s.procs[p].since); }
      } else {
        var r := MarkUnknown(s.row.value,
                             Payload(false, true, if report.ReadRaised? then Fault else Inconclusive));
        if r.Ok? { CommitEndBalanced(s, p, r.value); }
      }
    }
  }

  /** A reconcile writes a settled or an UNKNOWN status, and owes an event for the latter. */
  lemma RecWriteBalanced(s: Slice, p: nat, row: Row, pc: Pc)
    requires Balanced(s) && p in s.procs && s.procs[p].pc.RecSettle?
    requires (Settled(row.status) && pc.RecLogEnd?)
             || (row.status == Unknown && HasStatus(s, Executing) && pc.RecLogStale?)
    ensures Balanced(Goto(Commit(s, row), p, pc))
  {
    CommitBalanced(s, p, row, pc, s.procs[p].since);
  }

  lemma RecSettleBalanced(s: Slice, p: nat, seen: Status, report: Report, o: Oracle)
    requires Balanced(s) && p in s.procs && s.procs[p].pc.RecSettle?
    ensures Balanced(RecSettleStep(s, p, seen, report, o))
  {
    var t := RecSettleStep(s, p, seen, report, o);
    if p !in t.procs {
      EndBalanced(s, p);
    } else if report.Saw? && report.state != JobRunning {
      RecWriteBalanced(s, p, t.row.value, t.procs[p].pc);
    } else if t.procs[p].pc.RecLogStale? {
      RecWriteBalanced(s, p, t.row.value, t.procs[p].pc);
    } else {
      GotoBalanced(s, p, t.procs[p].pc, s.procs[p].since);
    }
  }

  lemma SendBalanced(s: Slice, p: nat, caller: Caller, fate: ApplyFate)
    requires Balanced(s) && p in s.procs && s.procs[p].pc == SendApply(caller)
    ensures Balanced(SendStep(s, p, caller, fate))
  {
    var t := SendStep(s, p, caller, fate);
    var o := Outline(OwesNothing, None, None, caller != ServiceCall, caller == ServiceCall);
    assert t.log == s.log + [] && t.book.history == s.book.history + [];
    assert Follows(s, t, p, o);
    OutlinePays(s, t, p, o);
  }

  /** The steps that append an event. */
  lemma RecordStepBalanced(s: Slice, p: nat, o: Oracle)
    requires Balanced(s) && p in s.procs && PcOk(s, s.procs[p].pc)
    requires var pc := s.procs[p].pc;
      pc.LogClaim? || pc.LogRetry? || pc.LogRetryRunning? || pc.LogLast?
      || pc.RecLogStart? || pc.RecLogStale? || pc.RecLogEnd?
    ensures Balanced(Advance(s, p, o))
  {
    match s.procs[p].pc {
      case LogClaim(caller) =>
        if caller == RetryCall { RecordBalanced(s, p, ReconciliationStarted(Executing), RetryLook); }
        else { RecordBalanced(s, p, ExecutionStarted, SendApply(caller)); }
      case LogRetry => RecordBalanced(s, p, ExecutionRetry, SendApply(RetryCall));
      case LogRetryRunning => RecordEndBalanced(s, p, ReconciliationCompleted(Executing));
      case LogLast(e) => RecordEndBalanced(s, p, e);
      case RecLogStart(seen) => RecordBalanced(s, p, ReconciliationStarted(seen), RecLook(seen));
      case RecLogStale(row) => RecordBalanced(s, p, ExecutionUnknown, RecLogEnd(row));
      case RecLogEnd(row) => RecordEndBalanced(s, p, ReconciliationCompleted(row.status));
    }
  }

  /** The steps that only read, or wait for `kubectl`. */
  lemma LookBalanced(s: Slice, p: nat, o: Oracle)
    requires Balanced(s) && p in s.procs
    requires var pc := s.procs[p].pc; pc.RetryLook? || pc.AwaitApply? || pc.RecLook?
    ensures Balanced(Advance(s, p, o))
  {
    var since := s.procs[p].since;
    match s.procs[p].pc {
      case RetryLook => GotoBalanced(s, p, AfterRetryLook(ReadJob(s.job, o.read)), since);
      case AwaitApply(caller, request) =>
        var t := AwaitStep(s, p, caller, request, o.apply);
        if t != s { GotoBalanced(s, p, t.procs[p].pc, since); }
      case RecLook(seen) =>
        EndBalanced(s, p);
        var report := ReadJob(s.job, o.read);
        GotoBalanced(s, p, RecSettle(seen, report, report == Truth(s.job)), since);
    }
  }

  /** Nothing that the counts see has changed. */
  lemma BooksBalanced(s: Slice, t: Slice)
    requires Balanced(s) && t.procs == s.procs && t.log == s.log
    requires t.book.history == s.book.history && t.book.calls == s.book.calls
    requires t.book.serviceCalls == s.book.serviceCalls
    ensures Balanced(t)
  {
    forall d: Duty ensures Fair(t, d) {
      assert Fair(s, d);
    }
  }

  lemma AdvanceBalanced(s: Slice, p: nat, o: Oracle)
    requires Inv(s) && Balanced(s) && p in s.procs
    ensures Balanced(Advance(s, p, o))
  {
    assert PcOk(s, s.procs[p].pc);
    match s.procs[p].pc {
      case Begin(task) => BeginBalanced(s, p, task, o.clock);
      case TakeClaim(caller) => ClaimBalanced(s, p, caller, o.clock);
      case SendApply(caller) => SendBalanced(s, p, caller, o.apply);
      case MarkReply(caller, reply) => MarkBalanced(s, p, caller, reply);
      case RetrySettle(report) => RetrySettleBalanced(s, p, report);
      case RecSettle(seen, report, honest) =>
        var noted := NoteCovered(s, s.procs[p].since, honest);
        BooksBalanced(s, noted);
        RecSettleBalanced(noted, p, seen, report, o);
      case RetryLook => LookBalanced(s, p, o);
      case AwaitApply(_, _) => LookBalanced(s, p, o);
      case RecLook(_) => LookBalanced(s, p, o);
      case _ => RecordStepBalanced(s, p, o);
    }
  }

  lemma NextBalanced(s: Slice, a: Action)
    requires Inv(s) && Balanced(s)
    ensures Balanced(Next(s, a))
  {
    match a {
      case Move(p, o) => if p in s.procs { AdvanceBalanced(s, p, o); }
      case Spawn(p, task) => if p !in s.procs { SpawnBalanced(s, p, task); }
      case Crash(p) => EndBalanced(s, p);
      case _ => BooksBalanced(s, Next(s, a));
    }
  }

  // ----- Whole runs -----

  predicate Chained(h: seq<Status>) {
    && (h != [] ==> h[0] == Pending)
    && forall i :: 0 < i < |h| ==> Edge(h[i - 1], h[i])
  }

  lemma StoryChained(h: seq<Status>)
    requires Story(h)
    ensures Chained(h)
  {
    var open := if h == [] || Ongoing(h) then h else h[..|h| - 1];
    assert forall i :: 0 < i < |open| ==> Edge(open[i - 1], open[i]);
  }

  /** EXECUTING and UNKNOWN alternate, EXECUTING first: `e` and `u` count them up to status `last`. */
  predicate Alternates(last: Status, e: nat, u: nat) {
    match last
    case Executing => e == u + 1
    case Completed => u <= e <= u + 1
    case Failed => u <= e <= u + 1
    case _ => e == u
  }

  lemma AlternatesOn(last: Status, next: Status, e: nat, u: nat)
    requires Alternates(last, e, u) && Edge(last, next)
    ensures Alternates(next, e + One(next == Executing), u + One(next == Unknown))
  {
  }

  lemma {:induction false} StoryCounts(h: seq<Status>)
    requires Chained(h) && h != []
    ensures Alternates(Last(h), multiset(h)[Executing], multiset(h)[Unknown])
  {
    var n := |h| - 1;
    var before := h[..n];
    assert h == before + Listed(Some(h[n]));
    CountGrows(before, Some(h[n]), Executing);
    CountGrows(before, Some(h[n]), Unknown);
    if n > 0 {
      StoryCounts(before);
      AlternatesOn(Last(before), h[n], multiset(before)[Executing], multiset(before)[Unknown]);
    }
  }

  lemma {:induction false} RunBalanced(now: int, actions: seq<Action>)
    ensures Balanced(Run(Start(now), actions))
  {
    if actions != [] {
      var n := |actions| - 1;
      RunBalanced(now, actions[..n]);
      ReachableInv(now, actions[..n]);
      NextBalanced(Run(Start(now), actions[..n]), actions[n]);
    }
  }

  /** The counting sandwich, for every run with crashes at any point. On the API path every apply call
      has an EXECUTION_STARTED or EXECUTION_RETRY event before it and every such event an entry into
      EXECUTING; the calls of `ApprovalService.execute`, which logs nothing, count as entries too. */
  lemma CountingSandwich(now: int, actions: seq<Action>)
    ensures var s := Run(Start(now), actions);
      && s.book.calls <= Events(s, ExecutionStarted) + Events(s, ExecutionRetry)
      && Events(s, ExecutionStarted) + Events(s, ExecutionRetry) + s.book.serviceCalls <= Entries(s, Executing)
      && Entries(s, Executing) <= 1 + Entries(s, Unknown)
      && Events(s, ExecutionStarted) + s.book.serviceCalls <= 1
      && Events(s, ExecutionUnknown) <= Entries(s, Unknown)
  {
    RunBalanced(now, actions);
    ReachesRun(now, actions, Run(Start(now), actions));
    RowRefinesStory(now, actions, Run(Start(now), actions));
    var s := Run(Start(now), actions);
    assert Fair(s, OwesCall) && Fair(s, OwesStarted) && Fair(s, OwesRetry) && Fair(s, OwesUnknown);
    StoryChained(s.book.history);
    if s.book.history != [] { StoryCounts(s.book.history); }
  }
}
