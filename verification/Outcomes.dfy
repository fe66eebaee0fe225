/** What COMPLETED and FAILED say about Jobs.

COMPLETED means that a Job was created. FAILED says little by itself: a request may still be under way,
and a Job may still complete, or be created and complete, behind the row's back. */
module Outcomes {
  import opened Wrappers
  import opened ApprovalRows
  import opened ApprovalProtocol
  import opened ProtocolSafety
  import opened RunTheorems
  import opened TimedRuns
  import OneJob

  // ----- COMPLETED -----

  /** What a process knows about the Job at its program counter. */
  predicate ProcKnows(s: Slice, pc: Pc) {
    match pc
    case AwaitApply(_, request) => request < s.book.sent && (request in s.flights || s.book.created >= 1)
    case MarkReply(_, reply) => reply == ApplyExecuted ==> s.book.created >= 1
    case RetrySettle(report) => report.Saw? ==> s.book.created >= 1
    case RecSettle(_, report, _) => report.Saw? ==> s.book.created >= 1
    case _ => true
  }

  /** A Job that is or was there has been created, and so has the Job of a COMPLETED row. */
  predicate JobsCount(s: Slice) {
    && (!s.job.Never? ==> s.book.created >= 1)
    && (HasStatus(s, Completed) ==> s.book.created >= 1)
    && (forall r :: r in s.flights ==> r < s.book.sent)
    && (forall p :: p in s.procs ==> ProcKnows(s, s.procs[p].pc))
  }

  /** A step that leaves the cluster alone. */
  lemma ProcessStepCounts(s: Slice, t: Slice, p: nat)
    requires JobsCount(s) && t.job == s.job && t.flights == s.flights
    requires t.book.created == s.book.created && t.book.sent == s.book.sent
    requires HasStatus(t, Completed) ==> HasStatus(s, Completed) || s.book.created >= 1
    requires forall q :: q in t.procs && q != p ==> q in s.procs && t.procs[q] == s.procs[q]
    requires p in t.procs ==> ProcKnows(t, t.procs[p].pc)
    ensures JobsCount(t)
  {
    forall q | q in t.procs ensures ProcKnows(t, t.procs[q].pc) {
      if q != p { assert ProcKnows(s, s.procs[q].pc); }
    }
  }

  lemma BeginCounts(s: Slice, p: nat, task: Task, clock: int)
    requires JobsCount(s) && p in s.procs
    ensures JobsCount(BeginStep(s, p, task, clock))
  {
    ProcessStepCounts(s, BeginStep(s, p, task, clock), p);
  }

  lemma ClaimCounts(s: Slice, p: nat, caller: Caller, clock: int)
    requires JobsCount(s) && p in s.procs
    ensures JobsCount(ClaimStep(s, p, caller, clock))
  {
    ProcessStepCounts(s, ClaimStep(s, p, caller, clock), p);
  }

  lemma MarkCounts(s: Slice, p: nat, caller: Caller, reply: Reply)
    requires JobsCount(s) && p in s.procs && s.procs[p].pc == MarkReply(caller, reply)
    ensures JobsCount(MarkStep(s, p, caller, reply))
  {
    assert ProcKnows(s, s.procs[p].pc);
    ProcessStepCounts(s, MarkStep(s, p, caller, reply), p);
  }

  lemma RetrySettleCounts(s: Slice, p: nat, report: Report)
    requires JobsCount(s) && p in s.procs && s.procs[p].pc == RetrySettle(report)
    ensures JobsCount(RetrySettleStep(s, p, report))
  {
    assert ProcKnows(s, s.procs[p].pc);
    ProcessStepCounts(s, RetrySettleStep(s, p, report), p);
  }

  lemma RecSettleCounts(s: Slice, p: nat, o: Oracle)
    requires JobsCount(s) && p in s.procs && s.procs[p].pc.RecSettle?
    ensures JobsCount(Advance(s, p, o))
  {
    var pc := s.procs[p].pc;
    assert ProcKnows(s, pc);
    var noted := NoteCovered(s, s.procs[p].since, pc.honest);
    assert Advance(s, p, o) == RecSettleStep(noted, p, pc.seen, pc.report, o);
    ProcessStepCounts(s, Advance(s, p, o), p);
  }

  lemma SendCounts(s: Slice, p: nat, caller: Caller, fate: ApplyFate)
    requires JobsCount(s) && p in s.procs
    ensures JobsCount(SendStep(s, p, caller, fate))
  {
    var t := SendStep(s, p, caller, fate);
    forall q | q in t.procs ensures ProcKnows(t, t.procs[q].pc) {
      assert ProcKnows(s, s.procs[q].pc);
    }
  }

  lemma AwaitCounts(s: Slice, p: nat, caller: Caller, request: nat, fate: ApplyFate)
    requires JobsCount(s) && p in s.procs && s.procs[p].pc == AwaitApply(caller, request)
    ensures JobsCount(AwaitStep(s, p, caller, request, fate))
  {
    assert ProcKnows(s, s.procs[p].pc);
    ProcessStepCounts(s, AwaitStep(s, p, caller, request, fate), p);
  }

  lemma LookCounts(s: Slice, p: nat, o: Oracle)
    requires JobsCount(s) && p in s.procs && (s.procs[p].pc.RetryLook? || s.procs[p].pc.RecLook?)
    ensures JobsCount(Advance(s, p, o))
  {
    ProcessStepCounts(s, Advance(s, p, o), p);
  }

  lemma RecordCounts(s: Slice, p: nat, o: Oracle)
    requires JobsCount(s) && p in s.procs
    requires var pc := s.procs[p].pc;
      pc.LogClaim? || pc.LogRetry? || pc.LogRetryRunning? || pc.LogLast?
      || pc.RecLogStart? || pc.RecLogStale? || pc.RecLogEnd?
    ensures JobsCount(Advance(s, p, o))
  {
    ProcessStepCounts(s, Advance(s, p, o), p);
  }

  lemma MoveCounts(s: Slice, p: nat, o: Oracle)
    requires JobsCount(s) && p in s.procs
    ensures JobsCount(Advance(s, p, o))
  {
    match s.procs[p].pc {
      case Begin(task) => BeginCounts(s, p, task, o.clock);
      case TakeClaim(caller) => ClaimCounts(s, p, caller, o.clock);
      case MarkReply(caller, reply) => MarkCounts(s, p, caller, reply);
      case RetrySettle(report) => RetrySettleCounts(s, p, report);
      case RecSettle(_, _, _) => RecSettleCounts(s, p, o);
      case SendApply(caller) => SendCounts(s, p, caller, o.apply);
      case AwaitApply(caller, request) => AwaitCounts(s, p, caller, request, o.apply);
      case RetryLook => LookCounts(s, p, o);
      case RecLook(_) => LookCounts(s, p, o);
      case _ => RecordCounts(s, p, o);
    }
  }

  lemma WorldCounts(s: Slice, a: Action)
    requires JobsCount(s) && !a.Move?
    ensures JobsCount(Next(s, a))
  {
    var t := Next(s, a);
    forall q | q in t.procs ensures ProcKnows(t, t.procs[q].pc) {
      if q in s.procs { assert ProcKnows(s, s.procs[q].pc); }
    }
  }

  lemma {:induction false} RunCounts(now: int, actions: seq<Action>)
    ensures JobsCount(Run(Start(now), actions))
  {
    if actions != [] {
      var n := |actions| - 1;
      RunCounts(now, actions[..n]);
      var s := Run(Start(now), actions[..n]);
      if actions[n].Move? && actions[n].p in s.procs {
        MoveCounts(s, actions[n].p, actions[n].oracle);
      } else if !actions[n].Move? {
        WorldCounts(s, actions[n]);
      }
    }
  }

  /** In every run a COMPLETED row has had a Job, whatever wrote the status. */
  lemma CompletedHadAJob(now: int, actions: seq<Action>, s: Slice)
    requires Reaches(now, actions, s) && HasStatus(s, Completed)
    ensures s.book.created >= 1
  {
    ReachesRun(now, actions, s);
    RunCounts(now, actions);
  }

  /** And, if the row was watched in time, exactly one. */
  lemma CompletedHadExactlyOneJob(cfg: TtlTiming, now: int, actions: seq<Action>, s: Slice)
    requires Reaches(now, actions, s) && HasStatus(s, Completed)
    requires cfg.gap + cfg.send + cfg.delay < TTL && Obeys(TtlRule(cfg), now, actions)
    ensures s.book.created == 1
  {
    CompletedHadAJob(now, actions, s);
    ReachesRun(now, actions, s);
    OneJob.RunKeepsJob(cfg, now, actions);
  }

  // ----- FAILED -----

  predicate JobDone(s: Slice) {
    s.job.Live? && s.job.completed
  }

  /** Some continuation of the run has a completed Job. */
  ghost predicate MayComplete(s: Slice) {
    exists more :: JobDone(Run(s, more))
  }

  /** The process still has its apply before it, if the reads go that way. */
  predicate BeforeSend(pc: Pc) {
    pc.LogClaim? || pc.RetryLook? || pc.LogRetry? || pc.SendApply?
  }

  /** Nothing is left that could make a Job complete: no Job that has not finished as failed, no request
      on its way, no owner before its send. */
  predicate Conclusive(s: Slice) {
    && (s.job.Live? ==> s.job.finishedAt.Some? && !s.job.completed)
    && s.flights == map[]
    && (forall p :: p in s.procs ==> !BeforeSend(s.procs[p].pc))
  }

  lemma StepBack(s: Slice, a: Action)
    requires MayComplete(Next(s, a))
    ensures MayComplete(s)
  {
    var more :| JobDone(Run(Next(s, a), more));
    assert [a][..0] == [];
    assert Run(s, [a]) == Next(s, a);
    RunSplit(s, [a], more);
    assert JobDone(Run(s, [a] + more));
  }

  lemma DoneNow(s: Slice)
    requires JobDone(s)
    ensures MayComplete(s)
  {
    assert Run(s, []) == s;
  }

  lemma UnfinishedMayComplete(s: Slice)
    requires s.job.Live? && s.job.finishedAt.None?
    ensures MayComplete(s)
  {
    DoneNow(Next(s, JobEnds(true)));
    StepBack(s, JobEnds(true));
  }

  /** A request on its way may create a Job, once an earlier one is deleted. */
  lemma FlightMayComplete(s: Slice, r: nat)
    requires r in s.flights
    ensures MayComplete(s)
  {
    if !s.job.Live? {
      UnfinishedMayComplete(Next(s, Land(r)));
      StepBack(s, Land(r));
    } else if s.job.finishedAt.None? {
      UnfinishedMayComplete(s);
    } else {
      var wait := s.job.finishedAt.value + TTL - s.now;
      var later := Next(s, Tick(if wait > 0 then wait else 0));
      var freed := Next(later, TtlDelete);
      UnfinishedMayComplete(Next(freed, Land(r)));
      StepBack(freed, Land(r));
      StepBack(later, TtlDelete);
      StepBack(s, Tick(if wait > 0 then wait else 0));
    }
  }

  /** The environment that takes an owner to its send: the Job reads as absent, the request goes out. */
  const ONWARD := Oracle(0, 1, ReadNonzeroExit, ApplySent)

  lemma SenderMayComplete(s: Slice, p: nat)
    requires p in s.procs && BeforeSend(s.procs[p].pc)
    ensures MayComplete(s)
    decreases match s.procs[p].pc { case SendApply(_) => 0 case LogRetry => 1 case RetryLook => 2 case _ => 3 }
  {
    var t := Next(s, Move(p, ONWARD));
    if s.procs[p].pc.SendApply? {
      FlightMayComplete(t, s.book.sent);
    } else {
      SenderMayComplete(t, p);
    }
    StepBack(s, Move(p, ONWARD));
  }

  lemma InconclusiveMayComplete(s: Slice)
    requires !Conclusive(s)
    ensures MayComplete(s)
  {
    if s.job.Live? && s.job.completed {
      DoneNow(s);
    } else if s.job.Live? && s.job.finishedAt.None? {
      UnfinishedMayComplete(s);
    } else if s.flights != map[] {
      var r :| r in s.flights;
      FlightMayComplete(s, r);
    } else {
      var p :| p in s.procs && BeforeSend(s.procs[p].pc);
      SenderMayComplete(s, p);
    }
  }

  /** FAILED, sound and conclusive. */
  predicate Over(s: Slice) {
    Inv(s) && HasStatus(s, Failed) && Conclusive(s)
  }

  lemma WriterStaysConclusive(s: Slice, p: nat, o: Oracle)
    requires Over(s) && p in s.procs
    requires var pc := s.procs[p].pc; pc.Begin? || pc.TakeClaim? || pc.MarkReply? || pc.RetrySettle? || pc.RecSettle?
    ensures Conclusive(Advance(s, p, o))
  {
    assert PcOk(s, s.procs[p].pc);
  }

  lemma OtherStaysConclusive(s: Slice, p: nat, o: Oracle)
    requires Over(s) && p in s.procs
    requires var pc := s.procs[p].pc;
      !pc.Begin? && !pc.TakeClaim? && !pc.MarkReply? && !pc.RetrySettle? && !pc.RecSettle?
    ensures Conclusive(Advance(s, p, o))
  {
    assert !BeforeSend(s.procs[p].pc);
  }

  lemma OverStays(s: Slice, a: Action)
    requires Over(s)
    ensures Over(Next(s, a))
  {
    NextKeeps(s, a);
    if a.Move? && a.p in s.procs {
      var pc := s.procs[a.p].pc;
      if pc.Begin? || pc.TakeClaim? || pc.MarkReply? || pc.RetrySettle? || pc.RecSettle? {
        WriterStaysConclusive(s, a.p, a.oracle);
      } else {
        OtherStaysConclusive(s, a.p, a.oracle);
      }
    }
  }

  lemma {:induction false} OverForEver(s: Slice, more: seq<Action>)
    requires Over(s)
    ensures Over(Run(s, more))
  {
    if more != [] {
      OverForEver(s, more[..|more| - 1]);
      OverStays(Run(s, more[..|more| - 1]), more[|more| - 1]);
    }
  }

  /** When a run has ended in FAILED, no Job of the approval completes any more if and only if there is no
      Job but one that has finished as failed, no request is on its way, and no owner is before its send. */
  lemma FailedIsFinalExactlyWhen(now: int, actions: seq<Action>, s: Slice)
    requires Reaches(now, actions, s) && HasStatus(s, Failed)
    ensures !MayComplete(s) <==> Conclusive(s)
  {
    ReachedStatesAreSound(now, actions, s);
    if Conclusive(s) {
      forall more ensures !JobDone(Run(s, more)) {
        OverForEver(s, more);
      }
    } else {
      InconclusiveMayComplete(s);
    }
  }

  /** A run that ends in FAILED with a completed Job: the request creates the Job, `kubectl` then exits with
      an error, the handler marks FAILED, and the Job completes. */
  lemma FailedThenCompleted() returns (actions: seq<Action>, s: Slice)
    ensures Reaches(0, actions, s) && HasStatus(s, Failed) && JobDone(s)
  {
    var rule := TtlRule(TtlTiming(0, 0, 0));
    var o := OneJob.Told(ReadHonestly, ApplyNonzero);
    actions := OneJob.ToJobCreated(rule.ttl);
    var s0 := OneJob.JobCreated();
    var s1 := Next(s0, Move(0, o));
    var s2 := Next(s1, Move(0, o));
    s := Next(s2, JobEnds(true));
    actions := ThenThree(rule, actions, s0, Move(0, o), s1, Move(0, o), s2, JobEnds(true), s);
    ReachesRun(0, actions, s);
  }

  /** The handler still waits for `kubectl apply`, the Job's first pod has failed, and a reconcile is at `pc`. */
  function PodFailed(pc: Pc, log: seq<Event>): Slice {
    OneJob.JobCreated().(job := Live(1, false, None), log := log,
                         procs := map[0 := Proc(AwaitApply(ExecuteHandler, 0), 0), 1 := Proc(pc, 0)])
  }

  const RECONCILING := [ExecutionStarted, ReconciliationStarted(Executing)]

  lemma ToPodFailed(rule: Rule) returns (actions: seq<Action>)
    requires rule == TtlRule(TtlTiming(0, 0, 0))
    ensures Leads(rule, actions, PodFailed(RecLogStart(Executing), [ExecutionStarted]))
  {
    var o := OneJob.Told(ReadHonestly, ApplyOk);
    actions := OneJob.ToJobCreated(rule.ttl);
    var s := OneJob.JobCreated();
    var t := s.(job := Live(1, false, None));
    var u := PodFailed(Begin(DoReconcile), [ExecutionStarted]);
    actions := ThenThree(rule, actions, s, PodFails, t, Spawn(1, DoReconcile), u,
                         Move(1, o), PodFailed(RecLogStart(Executing), [ExecutionStarted]));
  }

  lemma ToPodFailureRead(rule: Rule) returns (actions: seq<Action>)
    requires rule == TtlRule(TtlTiming(0, 0, 0))
    ensures Leads(rule, actions, PodFailed(RecSettle(Executing, Saw(JobFailed), true), RECONCILING))
  {
    var o := OneJob.Told(ReadHonestly, ApplyOk);
    actions := ToPodFailed(rule);
    var s := PodFailed(RecLogStart(Executing), [ExecutionStarted]);
    var t := PodFailed(RecLook(Executing), RECONCILING);
    var u := PodFailed(RecSettle(Executing, Saw(JobFailed), true), RECONCILING);
    Then(rule, actions, s, Move(1, o), t);
    Then(rule, actions + [Move(1, o)], t, Move(1, o), u);
    actions := actions + [Move(1, o)] + [Move(1, o)];
  }

  /** Another one: a pod fails, a reconcile reads that and marks FAILED, and the Job's second pod completes. */
  lemma FailedPodThenCompleted() returns (actions: seq<Action>, s: Slice)
    ensures Reaches(0, actions, s) && HasStatus(s, Failed) && JobDone(s)
    ensures s.row.value.result == Some(ReadBackPayload(JobFailed))
  {
    var rule, o := TtlRule(TtlTiming(0, 0, 0)), OneJob.Told(ReadHonestly, ApplyOk);
    actions := ToPodFailureRead(rule);
    var t := PodFailed(RecSettle(Executing, Saw(JobFailed), true), RECONCILING);
    var u := Next(t, Move(1, o));
    s := Next(u, JobEnds(true));
    Then(rule, actions, t, Move(1, o), u);
    Then(rule, actions + [Move(1, o)], u, JobEnds(true), s);
    actions := actions + [Move(1, o)] + [JobEnds(true)];
    ReachesRun(0, actions, s);
  }

  /** And COMPLETED with a failed Job: the handler marks what `kubectl apply` reports, and the Job fails. */
  lemma CompletedThenFailed() returns (actions: seq<Action>, s: Slice)
    ensures Reaches(0, actions, s) && HasStatus(s, Completed)
    ensures s.job.Live? && s.job.finishedAt.Some? && !s.job.completed
  {
    var rule, o := TtlRule(TtlTiming(0, 0, 0)), OneJob.Told(ReadHonestly, ApplyOk);
    actions := OneJob.ToJobCreated(rule.ttl);
    var s0 := OneJob.JobCreated();
    var s1 := Next(s0, Move(0, o));
    var s2 := Next(s1, Move(0, o));
    var s3 := Next(s2, PodFails);
    s := Next(s3, JobEnds(false));
    actions := ThenThree(rule, actions, s0, Move(0, o), s1, Move(0, o), s2, PodFails, s3);
    Then(rule, actions, s3, JobEnds(false), s);
    actions := actions + [JobEnds(false)];
    ReachesRun(0, actions, s);
  }
}
