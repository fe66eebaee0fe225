/** At most one Job per approval, although finished Jobs are deleted after their TTL. */
module OneJob {
  import opened Wrappers
  import opened ApprovalRows
  import opened ApprovalProtocol
  import opened ProtocolSafety
  import opened RunTheorems
  import opened TimedRuns

  /** When the Job finished, if it has. */
  function Ended(job: JobSlot): Option<int> {
    match job
    case Never => None
    case Live(_, _, finishedAt) => finishedAt
    case Gone(endedAt) => Some(endedAt)
  }

  /** Nobody claims the row later than `gap` after its Job finished. */
  predicate ClaimOk(cfg: TtlTiming, s: Slice, claimedAt: int) {
    && claimedAt <= s.now
    && (Ended(s.job).Some? ==> claimedAt <= Ended(s.job).value + cfg.gap)
  }

  predicate JobOk(s: Slice) {
    && s.book.created <= 1
    && (s.job.Never? <==> s.book.created == 0)
    && (Ended(s.job).Some? ==> Ended(s.job).value <= s.now)
    && (s.job.Live? && s.job.finishedAt.Some? ==> s.job.completed || s.job.failedPods > 0)
    && (s.job.Gone? ==> s.job.endedAt + TTL <= s.now)
    && (Touched(s) ==> Claimed(s))
  }

  /** While the row waits, no full truthful reconcile has begun after the Job finished. */
  predicate CoverOk(s: Slice) {
    && s.book.covered <= s.now
    && (Waiting(s) && Ended(s.job).Some? ==> s.book.covered <= Ended(s.job).value)
  }

  /** A reconcile that began after the Job finished and read truthfully knows that it finished, unless
      the row no longer waits. */
  predicate ProcOk(cfg: TtlTiming, s: Slice, proc: Proc) {
    && proc.since <= s.now
    && (IsOwner(proc.pc) ==> ClaimOk(cfg, s, proc.since))
    && (proc.pc.RecSettle? && proc.pc.honest && Ended(s.job).Some? && Ended(s.job).value < proc.since ==>
          proc.pc.report in {Saw(JobCompleted), Saw(JobFailed)} || !Waiting(s))
  }

  predicate FlightOk(cfg: TtlTiming, s: Slice, f: Flight) {
    f.issuedAt <= f.claimedAt + cfg.send && ClaimOk(cfg, s, f.claimedAt)
  }

  ghost predicate JobInv(cfg: TtlTiming, s: Slice) {
    && JobOk(s)
    && CoverOk(s)
    && (forall p :: p in s.procs ==> ProcOk(cfg, s, s.procs[p]))
    && (forall r :: r in s.flights ==> FlightOk(cfg, s, s.flights[r]))
  }

  /** The cluster and the requests stay as they are, and a row that does not wait never waits again. */
  predicate Indoors(s: Slice, t: Slice) {
    && t.now == s.now && t.job == s.job && t.book.created == s.book.created
    && (Waiting(t) ==> Waiting(s) || !Touched(s))
    && (Touched(t) ==> Claimed(t))
  }

  lemma IndoorsKeeps(cfg: TtlTiming, s: Slice, t: Slice, p: nat)
    requires JobInv(cfg, s) && Inv(s) && Indoors(s, t) && CoverOk(t) && t.flights == s.flights
    requires forall q :: q in t.procs && q != p ==> q in s.procs && t.procs[q] == s.procs[q]
    requires p in t.procs ==> ProcOk(cfg, t, t.procs[p])
    ensures JobInv(cfg, t)
  {
    forall q | q in t.procs ensures ProcOk(cfg, t, t.procs[q]) {
      if q != p { assert ProcOk(cfg, s, s.procs[q]); }
    }
    forall r | r in t.flights ensures FlightOk(cfg, t, t.flights[r]) {
      assert FlightOk(cfg, s, s.flights[r]);
    }
  }

  /** The watch bounds how long a row waits after its Job finished. */
  lemma WaitIsShort(cfg: TtlTiming, s: Slice)
    requires JobInv(cfg, s) && WatchedState(cfg, s)
    ensures Waiting(s) ==> ClaimOk(cfg, s, s.now)
  {
  }

  lemma ClaimKeepsJob(cfg: TtlTiming, s: Slice, p: nat, caller: Caller, clock: int)
    requires JobInv(cfg, s) && Inv(s) && WatchedState(cfg, s) && p in s.procs
    ensures JobInv(cfg, ClaimStep(s, p, caller, clock))
  {
    WaitIsShort(cfg, s);
    ClaimKeeps(s, p, caller, clock);
    IndoorsKeeps(cfg, s, ClaimStep(s, p, caller, clock), p);
  }

  lemma BeginFrame(s: Slice, p: nat, task: Task, clock: int)
    requires p in s.procs
    ensures var t := BeginStep(s, p, task, clock);
      && t == s.(row := t.row, procs := t.procs, book := s.book.(history := t.book.history))
      && (Waiting(t) ==> Waiting(s))
      && (forall q :: q in t.procs && q != p ==> q in s.procs && t.procs[q] == s.procs[q])
      && (p in t.procs ==> !IsOwner(t.procs[p].pc) && !t.procs[p].pc.RecSettle?
                           && (t.procs[p].since == s.procs[p].since || t.procs[p].since == s.now))
  {
  }

  lemma BeginKeepsJob(cfg: TtlTiming, s: Slice, p: nat, task: Task, clock: int)
    requires JobInv(cfg, s) && Inv(s) && p in s.procs && s.procs[p].pc == Begin(task)
    ensures JobInv(cfg, BeginStep(s, p, task, clock))
  {
    BeginKeeps(s, p, task, clock);
    BeginFrame(s, p, task, clock);
    assert ProcOk(cfg, s, s.procs[p]);
    IndoorsKeeps(cfg, s, BeginStep(s, p, task, clock), p);
  }

  /** What a mark changes: the row, its history and the marking process. */
  predicate MarkFrame(s: Slice, t: Slice, p: nat) {
    && t == s.(row := t.row, procs := t.procs, book := s.book.(history := t.book.history))
    && (Waiting(t) ==> Waiting(s))
    && (forall q :: q in t.procs && q != p ==> q in s.procs && t.procs[q] == s.procs[q])
    && (p in t.procs ==> p in s.procs && t.procs[p].pc.LogLast? && t.procs[p].since == s.procs[p].since)
  }

  lemma MarkStepFrame(s: Slice, p: nat, caller: Caller, reply: Reply)
    requires p in s.procs
    ensures MarkFrame(s, MarkStep(s, p, caller, reply), p)
  {
  }

  lemma RetrySettleFrame(s: Slice, p: nat, report: Report)
    requires p in s.procs
    ensures MarkFrame(s, RetrySettleStep(s, p, report), p)
  {
  }

  lemma OwnerMarkFrame(s: Slice, p: nat, o: Oracle)
    requires p in s.procs && (s.procs[p].pc.MarkReply? || s.procs[p].pc.RetrySettle?)
    ensures MarkFrame(s, Advance(s, p, o), p)
  {
    match s.procs[p].pc {
      case MarkReply(caller, reply) => MarkStepFrame(s, p, caller, reply);
      case RetrySettle(report) => RetrySettleFrame(s, p, report);
    }
  }

  lemma OwnerMarkKeepsJob(cfg: TtlTiming, s: Slice, p: nat, o: Oracle)
    requires JobInv(cfg, s) && Inv(s) && p in s.procs && (s.procs[p].pc.MarkReply? || s.procs[p].pc.RetrySettle?)
    ensures JobInv(cfg, Advance(s, p, o))
  {
    AdvanceKeeps(s, p, o);
    OwnerMarkFrame(s, p, o);
    assert ProcOk(cfg, s, s.procs[p]);
    IndoorsKeeps(cfg, s, Advance(s, p, o), p);
  }

  /** What the mark of a reconcile leaves alone, and what it achieves. */
  lemma RecSettleFrame(s: Slice, p: nat, seen: Status, report: Report, o: Oracle)
    requires p in s.procs && Claimed(s)
    ensures var t := RecSettleStep(s, p, seen, report, o);
      && t == s.(row := t.row, procs := t.procs, book := s.book.(history := t.book.history))
      && (Waiting(t) ==> Waiting(s) && report !in {Saw(JobCompleted), Saw(JobFailed)})
      && (forall q :: q in t.procs && q != p ==> q in s.procs && t.procs[q] == s.procs[q])
      && (p in t.procs ==> t.procs[p].since == s.procs[p].since
                           && (t.procs[p].pc.RecLogEnd? || t.procs[p].pc.RecLogStale?))
  {
  }

  lemma RecSettleKeepsJob(cfg: TtlTiming, s: Slice, p: nat, o: Oracle)
    requires JobInv(cfg, s) && Inv(s) && p in s.procs && s.procs[p].pc.RecSettle?
    ensures JobInv(cfg, Advance(s, p, o))
  {
    assert ProcOk(cfg, s, s.procs[p]) && PcOk(s, s.procs[p].pc);
    var pc := s.procs[p].pc;
    var noted := NoteCovered(s, s.procs[p].since, pc.honest);
    ClusterInv(s, noted);
    RecSettleKeeps(noted, p, pc.seen, pc.report, o);
    RecSettleFrame(noted, p, pc.seen, pc.report, o);
    IndoorsKeeps(cfg, s, Advance(s, p, o), p);
  }

  lemma QuietFrame(s: Slice, p: nat, o: Oracle)
    requires p in s.procs
    requires var pc := s.procs[p].pc;
      || pc.LogClaim? || pc.RetryLook? || pc.LogRetry? || pc.LogRetryRunning? || pc.AwaitApply?
      || pc.LogLast? || pc.RecLogStart? || pc.RecLogStale? || pc.RecLogEnd?
    ensures var t := Advance(s, p, o);
      && t == s.(procs := t.procs, log := t.log)
      && (t.procs == s.procs - {p}
          || (p in t.procs && t.procs == s.procs[p := t.procs[p]]
              && t.procs[p].since == s.procs[p].since && !t.procs[p].pc.RecSettle?
              && (IsOwner(t.procs[p].pc) ==> IsOwner(s.procs[p].pc))))
  {
  }

  lemma QuietKeepsJob(cfg: TtlTiming, s: Slice, p: nat, o: Oracle)
    requires JobInv(cfg, s) && Inv(s) && p in s.procs
    requires var pc := s.procs[p].pc;
      || pc.LogClaim? || pc.RetryLook? || pc.LogRetry? || pc.LogRetryRunning? || pc.AwaitApply?
      || pc.LogLast? || pc.RecLogStart? || pc.RecLogStale? || pc.RecLogEnd?
    ensures JobInv(cfg, Advance(s, p, o))
  {
    assert ProcOk(cfg, s, s.procs[p]);
    QuietFrame(s, p, o);
    IndoorsKeeps(cfg, s, Advance(s, p, o), p);
  }

  /** A truthful read of a finished Job that is gone comes too late for any row to wait on it. */
  lemma LookKeepsJob(cfg: TtlTiming, s: Slice, p: nat, o: Oracle)
    requires cfg.gap + cfg.send + cfg.delay < TTL
    requires JobInv(cfg, s) && Inv(s) && WatchedState(cfg, s) && p in s.procs && s.procs[p].pc.RecLook?
    ensures JobInv(cfg, Advance(s, p, o))
  {
    WaitIsShort(cfg, s);
    assert ProcOk(cfg, s, s.procs[p]) && PcOk(s, s.procs[p].pc);
    IndoorsKeeps(cfg, s, Advance(s, p, o), p);
  }

  lemma SendKeepsJob(cfg: TtlTiming, s: Slice, p: nat, caller: Caller, fate: ApplyFate)
    requires JobInv(cfg, s) && Inv(s) && p in s.procs && s.procs[p].pc == SendApply(caller)
    requires s.now <= s.procs[p].since + cfg.send
    ensures JobInv(cfg, SendStep(s, p, caller, fate))
  {
    var t := SendStep(s, p, caller, fate);
    assert ProcOk(cfg, s, s.procs[p]) && PcOk(s, s.procs[p].pc);
    forall q | q in t.procs ensures ProcOk(cfg, t, t.procs[q]) {
      if q != p { assert ProcOk(cfg, s, s.procs[q]); }
    }
    forall r | r in t.flights ensures FlightOk(cfg, t, t.flights[r]) {
      if r in s.flights { assert FlightOk(cfg, s, s.flights[r]); }
    }
  }

  /** A request lands while its Job, if there has been one, is still there. */
  lemma LandKeepsJob(cfg: TtlTiming, s: Slice, r: nat)
    requires cfg.gap + cfg.send + cfg.delay < TTL
    requires JobInv(cfg, s) && Inv(s) && r in s.flights && s.now <= s.flights[r].issuedAt + cfg.delay
    ensures JobInv(cfg, LandRequest(s, r))
  {
    var t := LandRequest(s, r);
    assert FlightOk(cfg, s, s.flights[r]);
    assert !s.job.Gone?;
    forall q | q in t.procs ensures ProcOk(cfg, t, t.procs[q]) {
      assert ProcOk(cfg, s, s.procs[q]);
    }
    forall k | k in t.flights ensures FlightOk(cfg, t, t.flights[k]) {
      assert FlightOk(cfg, s, s.flights[k]);
    }
  }

  /** The clock, the Job's pods and its deletion. */
  lemma WorldKeepsJob(cfg: TtlTiming, s: Slice, a: Action)
    requires JobInv(cfg, s) && Inv(s) && (a.Tick? || a.PodFails? || a.JobEnds? || a.TtlDelete?)
    ensures JobInv(cfg, Next(s, a))
  {
    var t := Next(s, a);
    forall q | q in t.procs ensures ProcOk(cfg, t, t.procs[q]) {
      assert ProcOk(cfg, s, s.procs[q]);
    }
    forall k | k in t.flights ensures FlightOk(cfg, t, t.flights[k]) {
      assert FlightOk(cfg, s, s.flights[k]);
    }
  }

  lemma WriterKeepsJob(cfg: TtlTiming, s: Slice, p: nat, o: Oracle)
    requires cfg.gap + cfg.send + cfg.delay < TTL
    requires JobInv(cfg, s) && Inv(s) && WatchedState(cfg, s) && p in s.procs
    requires var pc := s.procs[p].pc; pc.Begin? || pc.TakeClaim? || pc.MarkReply? || pc.RetrySettle? || pc.RecSettle?
    ensures JobInv(cfg, Advance(s, p, o))
  {
    match s.procs[p].pc {
      case Begin(task) => BeginKeepsJob(cfg, s, p, task, o.clock);
      case TakeClaim(caller) => ClaimKeepsJob(cfg, s, p, caller, o.clock);
      case MarkReply(_, _) => OwnerMarkKeepsJob(cfg, s, p, o);
      case RetrySettle(_) => OwnerMarkKeepsJob(cfg, s, p, o);
      case RecSettle(_, _, _) => RecSettleKeepsJob(cfg, s, p, o);
    }
  }

  lemma MoveKeepsJob(cfg: TtlTiming, s: Slice, p: nat, o: Oracle)
    requires cfg.gap + cfg.send + cfg.delay < TTL && p in s.procs
    requires JobInv(cfg, s) && Inv(s) && WatchedState(cfg, s) && PromptAction(cfg, s, Move(p, o))
    ensures JobInv(cfg, Advance(s, p, o))
  {
    var pc := s.procs[p].pc;
    if pc.Begin? || pc.TakeClaim? || pc.MarkReply? || pc.RetrySettle? || pc.RecSettle? {
      WriterKeepsJob(cfg, s, p, o);
    } else if pc.RecLook? {
      LookKeepsJob(cfg, s, p, o);
    } else if pc.SendApply? {
      SendKeepsJob(cfg, s, p, pc.caller, o.apply);
    } else {
      QuietKeepsJob(cfg, s, p, o);
    }
  }

  lemma NextKeepsJob(cfg: TtlTiming, s: Slice, a: Action)
    requires cfg.gap + cfg.send + cfg.delay < TTL
    requires JobInv(cfg, s) && Inv(s) && WatchedState(cfg, s) && PromptAction(cfg, s, a)
    ensures JobInv(cfg, Next(s, a))
  {
    match a {
      case Move(p, o) => if p in s.procs { MoveKeepsJob(cfg, s, p, o); }
      case Spawn(p, _) => IndoorsKeeps(cfg, s, Next(s, a), p);
      case Crash(p) => IndoorsKeeps(cfg, s, Next(s, a), p);
      case Land(r) => if r in s.flights { LandKeepsJob(cfg, s, r); }
      case _ => WorldKeepsJob(cfg, s, a);
    }
  }

  lemma {:induction false} RunKeepsJob(cfg: TtlTiming, now: int, actions: seq<Action>)
    requires cfg.gap + cfg.send + cfg.delay < TTL && Obeys(TtlRule(cfg), now, actions)
    ensures JobInv(cfg, Run(Start(now), actions))
  {
    if actions != [] {
      var n := |actions| - 1;
      RunKeepsJob(cfg, now, actions[..n]);
      ReachableInv(now, actions[..n]);
      NextKeepsJob(cfg, Run(Start(now), actions[..n]), actions[n]);
    }
  }

  // ----- The bound is exact -----

  const EXECUTED: seq<Status> := [Pending, Approved, Executing]

  function UnknownRow(): Row {
    ClaimedRow(0).(status := Unknown, result := Some(Payload(false, true, Fault)))
  }

  function Told(read: ReadFate, apply: ApplyFate): Oracle {
    Oracle(0, 1, read, apply)
  }

  /** Time 0: an execute handler claims the row and its request creates the Job. */
  function JobCreated(): Slice {
    Slice(0, Some(ClaimedRow(0)), Live(0, false, None), map[],
          map[0 := Proc(AwaitApply(ExecuteHandler, 0), 0)], [ExecutionStarted],
          Book(EXECUTED, 1, 0, 1, 1, 0))
  }

  lemma ToJobCreated(cfg: TtlTiming) returns (actions: seq<Action>)
    ensures Leads(TtlRule(cfg), actions, JobCreated())
  {
    var rule, o := TtlRule(cfg), Told(ReadHonestly, ApplySent);
    actions := FirstClaim(rule, o);
    var s3 := Early(0, Some(ClaimedRow(0)), map[0 := Proc(LogClaim(ExecuteHandler), 0)], [], EXECUTED);
    var s4 := s3.(procs := map[0 := Proc(SendApply(ExecuteHandler), 0)], log := [ExecutionStarted]);
    var s5 := s4.(procs := map[0 := Proc(AwaitApply(ExecuteHandler, 0), 0)], flights := map[0 := Flight(0, 0)],
                  book := Book(EXECUTED, 1, 0, 1, 0, 0));
    actions := ThenThree(rule, actions, s3, Move(0, o), s4, Move(0, o), s5, Land(0), JobCreated());
  }

  /** The Job completes at time 0 although its `kubectl apply` times out; time passes up to `gap`. */
  function JobForgotten(gap: int): Slice {
    Slice(gap, Some(UnknownRow()), Live(0, true, Some(0)), map[], map[], [ExecutionStarted],
          Book(EXECUTED + [Unknown], 1, 0, 1, 1, 0))
  }

  lemma ForgottenForAGap(cfg: TtlTiming, before: seq<Action>, s: Slice) returns (actions: seq<Action>)
    requires Leads(TtlRule(cfg), before, s)
    requires s == JobForgotten(0).(procs := map[0 := Proc(LogLast(ExecutionUnknown), 0)])
    ensures Leads(TtlRule(cfg), actions, JobForgotten(cfg.gap))
  {
    var rule := TtlRule(cfg);
    Then(rule, before, s, Crash(0), JobForgotten(0));
    Then(rule, before + [Crash(0)], JobForgotten(0), Tick(cfg.gap), JobForgotten(cfg.gap));
    actions := before + [Crash(0)] + [Tick(cfg.gap)];
  }

  lemma ToJobForgotten(cfg: TtlTiming) returns (actions: seq<Action>)
    ensures Leads(TtlRule(cfg), actions, JobForgotten(cfg.gap))
  {
    var rule, o := TtlRule(cfg), Told(ReadHonestly, ApplyTimeout);
    actions := ToJobCreated(cfg);
    var s0 := JobCreated();
    var s1 := s0.(job := Live(0, true, Some(0)));
    var s2 := s1.(procs := map[0 := Proc(MarkReply(ExecuteHandler, ApplyTimedOut), 0)]);
    var s3 := JobForgotten(0).(procs := map[0 := Proc(LogLast(ExecutionUnknown), 0)]);
    actions := ThenThree(rule, actions, s0, JobEnds(true), s1, Move(0, o), s2, Move(0, o), s3);
    actions := ForgottenForAGap(cfg, actions, s3);
  }

  /** A retry claims the row at time `gap`, and its status read is told that there is no Job. */
  function Misled(gap: int): Slice {
    Slice(gap, Some(UnknownRow().(status := Executing, startedAt := Some(0))), Live(0, true, Some(0)), map[],
          map[0 := Proc(SendApply(RetryCall), gap)],
          [ExecutionStarted, ReconciliationStarted(Executing), ExecutionRetry],
          Book(EXECUTED + [Unknown, Executing], 1, 0, 1, 1, 0))
  }

  /** The retry has just claimed the row. */
  function Reclaimed(gap: int): Slice {
    Misled(gap).(procs := map[0 := Proc(LogClaim(RetryCall), gap)], log := [ExecutionStarted])
  }

  lemma ToReclaimed(cfg: TtlTiming, o: Oracle) returns (actions: seq<Action>)
    requires o.clock == 0
    ensures Leads(TtlRule(cfg), actions, Reclaimed(cfg.gap))
  {
    var retry := DoExecute(RetryCall);
    actions := ToJobForgotten(cfg);
    var s0 := JobForgotten(cfg.gap);
    var s1 := s0.(procs := map[0 := Proc(Begin(retry), cfg.gap)]);
    var s2 := s0.(procs := map[0 := Proc(TakeClaim(RetryCall), cfg.gap)]);
    actions := ThenThree(TtlRule(cfg), actions, s0, Spawn(0, retry), s1, Move(0, o), s2, Move(0, o),
                         Reclaimed(cfg.gap));
  }

  lemma ToMisled(cfg: TtlTiming) returns (actions: seq<Action>)
    ensures Leads(TtlRule(cfg), actions, Misled(cfg.gap))
  {
    var o := Told(ReadNonzeroExit, ApplySent);
    actions := ToReclaimed(cfg, o);
    var s3 := Reclaimed(cfg.gap);
    var s4 := s3.(procs := map[0 := Proc(RetryLook, cfg.gap)],
                  log := [ExecutionStarted, ReconciliationStarted(Executing)]);
    var s5 := s4.(procs := map[0 := Proc(LogRetry, cfg.gap)]);
    actions := ThenThree(TtlRule(cfg), actions, s3, Move(0, o), s4, Move(0, o), s5, Move(0, o), Misled(cfg.gap));
  }

  /** A reconcile settles the row in time; the retry has still to send its request. */
  function SettledMeanwhile(gap: int, now: int): Slice {
    var s := Misled(gap);
    s.(now := now,
       row := Some(s.row.value.(status := Completed, result := Some(ReadBackPayload(JobCompleted)))),
       log := s.log + [ReconciliationStarted(Executing)],
       book := s.book.(history := EXECUTED + [Unknown, Executing, Completed], covered := gap))
  }

  /** The reconcile under way, at program counter `pc`. */
  function Watched(gap: int, pc: Pc, log: seq<Event>): Slice {
    var s := Misled(gap);
    s.(procs := map[0 := Proc(SendApply(RetryCall), gap), 1 := Proc(pc, gap)], log := s.log + log)
  }

  lemma ToWatched(cfg: TtlTiming, o: Oracle) returns (actions: seq<Action>)
    ensures Leads(TtlRule(cfg), actions, Watched(cfg.gap, RecLook(Executing), [ReconciliationStarted(Executing)]))
  {
    actions := ToMisled(cfg);
    var s1 := Watched(cfg.gap, Begin(DoReconcile), []);
    var s2 := Watched(cfg.gap, RecLogStart(Executing), []);
    var s3 := Watched(cfg.gap, RecLook(Executing), [ReconciliationStarted(Executing)]);
    actions := ThenThree(TtlRule(cfg), actions, Misled(cfg.gap), Spawn(1, DoReconcile), s1, Move(1, o), s2, Move(1, o),
                         s3);
  }

  lemma ToSettledMeanwhile(cfg: TtlTiming) returns (actions: seq<Action>)
    ensures Leads(TtlRule(cfg), actions, SettledMeanwhile(cfg.gap, cfg.gap))
  {
    var rule, o, gap := TtlRule(cfg), Told(ReadHonestly, ApplySent), cfg.gap;
    actions := ToWatched(cfg, o);
    var s3 := Watched(gap, RecLook(Executing), [ReconciliationStarted(Executing)]);
    var s4 := Watched(gap, RecSettle(Executing, Saw(JobCompleted), true), [ReconciliationStarted(Executing)]);
    Then(rule, actions, s3, Move(1, o), s4);
    actions := actions + [Move(1, o)];
    var end := SettledMeanwhile(gap, gap);
    var s5 := end.(procs := end.procs[1 := Proc(RecLogEnd(end.row.value), gap)]);
    SettleStep(cfg, s4, o, s5);
    Then(rule, actions, s4, Move(1, o), s5);
    Then(rule, actions + [Move(1, o)], s5, Crash(1), end);
    actions := actions + [Move(1, o)] + [Crash(1)];
  }

  lemma SettleStep(cfg: TtlTiming, s: Slice, o: Oracle, t: Slice)
    requires s == Watched(cfg.gap, RecSettle(Executing, Saw(JobCompleted), true), [ReconciliationStarted(Executing)])
    requires var end := SettledMeanwhile(cfg.gap, cfg.gap);
      t == end.(procs := end.procs[1 := Proc(RecLogEnd(end.row.value), cfg.gap)])
    ensures Link(TtlRule(cfg), s, Move(1, o), t)
  {
  }

  /** The request leaves at the last moment and lands after the first Job has been deleted. */
  lemma SecondJob(cfg: TtlTiming) returns (actions: seq<Action>)
    requires cfg.gap + cfg.send + cfg.delay >= TTL
    ensures Obeys(TtlRule(cfg), 0, actions) && Run(Start(0), actions).book.created == 2
  {
    var rule, o := TtlRule(cfg), Told(ReadHonestly, ApplySent);
    actions := ToSettledMeanwhile(cfg);
    var sent := cfg.gap + cfg.send;
    var s0 := SettledMeanwhile(cfg.gap, sent);
    Then(rule, actions, SettledMeanwhile(cfg.gap, cfg.gap), Tick(cfg.send), s0);
    actions := actions + [Tick(cfg.send)];
    var s1 := s0.(procs := map[0 := Proc(AwaitApply(RetryCall, 1), cfg.gap)],
                  flights := map[1 := Flight(cfg.gap, sent)],
                  book := s0.book.(calls := 2, sent := 2));
    var s2 := s1.(now := sent + cfg.delay);
    var s3 := s2.(job := Gone(0));
    var s4 := s3.(job := Live(0, false, None), flights := map[], book := s3.book.(created := 2));
    actions := ThenThree(rule, actions, s0, Move(0, o), s1, Tick(cfg.delay), s2, TtlDelete, s3);
    Then(rule, actions, s3, Land(1), s4);
    actions := actions + [Land(1)];
  }

  /** Every run under this timing creates at most one Job for the approval. */
  ghost predicate AlwaysOneJob(cfg: TtlTiming) {
    forall now, actions :: Obeys(TtlRule(cfg), now, actions) ==> Run(Start(now), actions).book.created <= 1
  }

  /** At most one Job is ever created for an approval, in every run with any mix of executions,
      retries, reconciles and crashes, exactly when the watch gap, the time to send and the request
      delay together stay below the Job's TTL. Status reads other than the watch's may lie. */
  lemma OneJobIffWatchedInTime(cfg: TtlTiming)
    ensures AlwaysOneJob(cfg) <==> cfg.gap + cfg.send + cfg.delay < TTL
  {
    if cfg.gap + cfg.send + cfg.delay < TTL {
      forall now, actions | Obeys(TtlRule(cfg), now, actions) ensures Run(Start(now), actions).book.created <= 1 {
        RunKeepsJob(cfg, now, actions);
      }
    } else {
      var actions := SecondJob(cfg);
    }
  }
}
