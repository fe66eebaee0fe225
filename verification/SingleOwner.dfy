/** Mutual exclusion by leases: when at most one process is between its claim and its return. */
module SingleOwner {
  import opened Wrappers
  import opened ApprovalRows
  import opened ApprovalProtocol
  import opened ProtocolSafety
  import opened RunTheorems
  import opened TimedRuns

  /** At most one owner, and none while the row is waiting to be claimed. */
  ghost predicate OneOwner(s: Slice) {
    && (forall p, q :: Owns(s, p) && Owns(s, q) ==> p == q)
    && (forall p :: Owns(s, p) ==> HasStatus(s, Executing) || HasStatus(s, Completed) || HasStatus(s, Failed))
  }

  /** While the row is EXECUTING its start time is the owner's claim time, up to the clock skew. */
  ghost predicate Stamped(cfg: LeaseTiming, s: Slice) {
    forall p :: Owns(s, p) && HasStatus(s, Executing) ==>
      s.row.value.startedAt.Some? && s.procs[p].since - cfg.skew <= s.row.value.startedAt.value
  }

  lemma ClaimIsExclusive(cfg: LeaseTiming, s: Slice, p: nat, caller: Caller, clock: int)
    requires OneOwner(s) && Stamped(cfg, s) && p in s.procs && s.procs[p].pc.TakeClaim?
    requires Near(clock, s.now, cfg.skew)
    ensures OneOwner(ClaimStep(s, p, caller, clock)) && Stamped(cfg, ClaimStep(s, p, caller, clock))
  {
    var t := ClaimStep(s, p, caller, clock);
    forall q | Owns(t, q) && q != p ensures Owns(s, q) {}
    if s.row.Some? && TryClaim(s.row.value, caller, clock).Ok? && TryClaim(s.row.value, caller, clock).value.owned {
      assert forall q :: !Owns(s, q);
    }
  }

  /** A lease only runs out after its owner is gone. */
  lemma RecoveryFindsNoOwner(cfg: LeaseTiming, s: Slice, o: Oracle, p: nat)
    requires cfg.lease > cfg.hold + 2 * cfg.skew
    requires OneOwner(s) && Stamped(cfg, s) && TimelyState(cfg, s) && s.row.Some?
    requires Near(o.clock, s.now, cfg.skew) && cfg.lease <= o.lease
    requires LeaseOver(s.row.value, o.lease, o.clock)
    ensures !Owns(s, p)
  {
  }

  /** A step of a process that does not take the claim: nobody becomes an owner, and the row stays
      where its owner needs it. */
  ghost predicate Calm(s: Slice, t: Slice) {
    && (forall p :: Owns(t, p) ==> Owns(s, p) && t.procs[p].since == s.procs[p].since)
    && (forall p :: Owns(t, p) ==> t.row == s.row || HasStatus(t, Completed) || HasStatus(t, Failed))
  }

  lemma CalmKeeps(cfg: LeaseTiming, s: Slice, t: Slice)
    requires OneOwner(s) && Stamped(cfg, s) && Calm(s, t)
    ensures OneOwner(t) && Stamped(cfg, t)
  {
  }

  lemma RecSettleCalm(cfg: LeaseTiming, s: Slice, p: nat, seen: Status, report: Report, o: Oracle)
    requires cfg.lease > cfg.hold + 2 * cfg.skew
    requires OneOwner(s) && Stamped(cfg, s) && TimelyState(cfg, s) && s.row.Some?
    requires p in s.procs && s.procs[p].pc.RecSettle?
    requires Near(o.clock, s.now, cfg.skew) && cfg.lease <= o.lease
    ensures Calm(s, RecSettleStep(s, p, seen, report, o))
  {
    var t := RecSettleStep(s, p, seen, report, o);
    if report == SaysAbsent && LeaseOver(s.row.value, o.lease, o.clock) {
      forall q ensures !Owns(s, q) { RecoveryFindsNoOwner(cfg, s, o, q); }
      assert forall q :: Owns(t, q) ==> Owns(s, q);
    }
  }

  lemma BeginCalm(s: Slice, p: nat, task: Task, clock: int)
    requires OneOwner(s) && p in s.procs && s.procs[p].pc.Begin?
    ensures Calm(s, BeginStep(s, p, task, clock))
  {
    var t := BeginStep(s, p, task, clock);
    forall q | Owns(t, q) ensures Owns(s, q) && t.row == s.row {
      assert Owns(s, q);
    }
  }

  /** The owner's own mark ends its ownership; nobody else can be one. */
  lemma OwnerMarkCalm(s: Slice, p: nat, o: Oracle)
    requires OneOwner(s) && Owns(s, p) && (s.procs[p].pc.MarkReply? || s.procs[p].pc.RetrySettle?)
    ensures Calm(s, Advance(s, p, o))
  {
    var t := Advance(s, p, o);
    assert p in t.procs ==> !IsOwner(t.procs[p].pc);
    forall q ensures !Owns(t, q) {
      if q != p && Owns(t, q) { assert Owns(s, q); }
    }
  }

  /** Steps that leave the row alone. */
  lemma QuietCalm(s: Slice, p: nat, o: Oracle)
    requires Inv(s) && p in s.procs
    requires var pc := s.procs[p].pc;
      !pc.Begin? && !pc.TakeClaim? && !pc.MarkReply? && !pc.RetrySettle? && !pc.RecSettle?
    ensures Calm(s, Advance(s, p, o))
  {
    assert PcOk(s, s.procs[p].pc);
    var t := Advance(s, p, o);
    assert t.row == s.row;
    assert p in t.procs ==> t.procs[p].since == s.procs[p].since;
    assert Owns(t, p) ==> Owns(s, p);
  }

  /** Any step of a process but a claim or the mark of a reconcile. */
  lemma MoveCalm(s: Slice, p: nat, o: Oracle)
    requires Inv(s) && OneOwner(s) && p in s.procs && !s.procs[p].pc.TakeClaim? && !s.procs[p].pc.RecSettle?
    ensures Calm(s, Advance(s, p, o))
  {
    var pc := s.procs[p].pc;
    if pc.Begin? {
      BeginCalm(s, p, pc.task, o.clock);
    } else if pc.MarkReply? || pc.RetrySettle? {
      assert Owns(s, p);
      OwnerMarkCalm(s, p, o);
    } else {
      QuietCalm(s, p, o);
    }
  }

  lemma RecSettleOneOwner(cfg: LeaseTiming, s: Slice, p: nat, o: Oracle)
    requires cfg.lease > cfg.hold + 2 * cfg.skew
    requires Inv(s) && OneOwner(s) && Stamped(cfg, s) && TimelyState(cfg, s)
    requires p in s.procs && s.procs[p].pc.RecSettle? && Near(o.clock, s.now, cfg.skew) && cfg.lease <= o.lease
    ensures OneOwner(Advance(s, p, o)) && Stamped(cfg, Advance(s, p, o))
  {
    var pc := s.procs[p].pc;
    var noted := NoteCovered(s, s.procs[p].since, pc.honest);
    assert PcOk(s, pc);
    CalmKeeps(cfg, s, noted);
    RecSettleCalm(cfg, noted, p, pc.seen, pc.report, o);
    CalmKeeps(cfg, noted, RecSettleStep(noted, p, pc.seen, pc.report, o));
  }

  lemma MoveOneOwner(cfg: LeaseTiming, s: Slice, p: nat, o: Oracle)
    requires cfg.lease > cfg.hold + 2 * cfg.skew && p in s.procs
    requires Inv(s) && OneOwner(s) && Stamped(cfg, s) && TimelyState(cfg, s) && TimelyAction(cfg, s, Move(p, o))
    ensures OneOwner(Advance(s, p, o)) && Stamped(cfg, Advance(s, p, o))
  {
    if s.procs[p].pc.TakeClaim? {
      ClaimIsExclusive(cfg, s, p, s.procs[p].pc.caller, o.clock);
    } else if s.procs[p].pc.RecSettle? {
      RecSettleOneOwner(cfg, s, p, o);
    } else {
      MoveCalm(s, p, o);
      CalmKeeps(cfg, s, Advance(s, p, o));
    }
  }

  lemma NextOneOwner(cfg: LeaseTiming, s: Slice, a: Action)
    requires cfg.lease > cfg.hold + 2 * cfg.skew
    requires Inv(s) && OneOwner(s) && Stamped(cfg, s) && TimelyState(cfg, s) && TimelyAction(cfg, s, a)
    ensures OneOwner(Next(s, a)) && Stamped(cfg, Next(s, a))
  {
    if a.Move? && a.p in s.procs {
      MoveOneOwner(cfg, s, a.p, a.oracle);
    } else {
      assert Calm(s, Next(s, a));
      CalmKeeps(cfg, s, Next(s, a));
    }
  }

  lemma {:induction false} RunOneOwner(cfg: LeaseTiming, now: int, actions: seq<Action>)
    requires cfg.lease > cfg.hold + 2 * cfg.skew && Obeys(LeaseRule(cfg), now, actions)
    ensures OneOwner(Run(Start(now), actions)) && Stamped(cfg, Run(Start(now), actions))
  {
    if actions != [] {
      var n := |actions| - 1;
      RunOneOwner(cfg, now, actions[..n]);
      ReachableInv(now, actions[..n]);
      NextOneOwner(cfg, Run(Start(now), actions[..n]), actions[n]);
    }
  }

  // ----- The bound is exact -----

  function StaleRow(clock: int): Row {
    ClaimedRow(clock).(status := Unknown, result := Some(Payload(false, true, LeaseExpired(clock))))
  }

  /** An execute handler claims the row at time 0, stamped by a slow clock, and a reconcile starts at
      time `hold`. */
  lemma SlowClaim(cfg: LeaseTiming, slow: Oracle) returns (actions: seq<Action>)
    requires slow.clock == 0 - cfg.skew
    ensures Leads(LeaseRule(cfg), actions,
                  Early(cfg.hold, Some(ClaimedRow(slow.clock)),
                        map[0 := Proc(LogClaim(ExecuteHandler), 0), 1 := Proc(RecLogStart(Executing), cfg.hold)],
                        [], [Pending, Approved, Executing]))
  {
    var owner := Proc(LogClaim(ExecuteHandler), 0);
    actions := FirstClaim(LeaseRule(cfg), slow);
    var s3 := Early(0, Some(ClaimedRow(slow.clock)), map[0 := owner], [], [Pending, Approved, Executing]);
    var s4 := s3.(now := cfg.hold);
    var s5 := s4.(procs := map[0 := owner, 1 := Proc(Begin(DoReconcile), cfg.hold)]);
    var s6 := s4.(procs := map[0 := owner, 1 := Proc(RecLogStart(Executing), cfg.hold)]);
    actions := ThenThree(LeaseRule(cfg), actions, s3, Tick(cfg.hold), s4, Spawn(1, DoReconcile), s5, Move(1, slow), s6);
  }

  /** The state after a reconcile on a fast clock has taken the lease for stale. */
  function Recovered(hold: int, stamp: int): Slice {
    Slice(hold, Some(StaleRow(stamp)), Never, map[],
          map[0 := Proc(LogClaim(ExecuteHandler), 0), 1 := Proc(RecLogStale(StaleRow(stamp)), hold)],
          [ReconciliationStarted(Executing)],
          Book([Pending, Approved, Executing, Unknown], 0, 0, 0, 0, hold))
  }

  lemma RecoveryStep(cfg: LeaseTiming, s: Slice, fast: Oracle, stamp: int)
    requires 1 <= cfg.lease <= cfg.hold + 2 * cfg.skew
    requires stamp == 0 - cfg.skew && fast == Ask(cfg.hold + cfg.skew, cfg.lease)
    requires s == Early(cfg.hold, Some(ClaimedRow(stamp)),
                        map[0 := Proc(LogClaim(ExecuteHandler), 0),
                            1 := Proc(RecSettle(Executing, SaysAbsent, true), cfg.hold)],
                        [ReconciliationStarted(Executing)], [Pending, Approved, Executing])
    ensures Link(LeaseRule(cfg), s, Move(1, fast), Recovered(cfg.hold, stamp))
  {
  }

  lemma FastRecovery(cfg: LeaseTiming, slow: Oracle, fast: Oracle) returns (actions: seq<Action>)
    requires 1 <= cfg.lease <= cfg.hold + 2 * cfg.skew
    requires slow.clock == 0 - cfg.skew && fast == Ask(cfg.hold + cfg.skew, cfg.lease)
    ensures Leads(LeaseRule(cfg), actions, Recovered(cfg.hold, slow.clock))
  {
    var owner := Proc(LogClaim(ExecuteHandler), 0);
    actions := SlowClaim(cfg, slow);
    var s0 := Early(cfg.hold, Some(ClaimedRow(slow.clock)),
                    map[0 := owner, 1 := Proc(RecLogStart(Executing), cfg.hold)], [], [Pending, Approved, Executing]);
    var s1 := s0.(procs := map[0 := owner, 1 := Proc(RecLook(Executing), cfg.hold)],
                  log := [ReconciliationStarted(Executing)]);
    var s2 := s1.(procs := map[0 := owner, 1 := Proc(RecSettle(Executing, SaysAbsent, true), cfg.hold)]);
    RecoveryStep(cfg, s2, fast, slow.clock);
    actions := ThenThree(LeaseRule(cfg), actions, s0, Move(1, fast), s1, Move(1, fast), s2,
                         Move(1, fast), Recovered(cfg.hold, slow.clock));
  }

  /** A retry of an UNKNOWN row starts, reads it and claims it. */
  lemma RetryClaims(cfg: LeaseTiming, s: Slice, p: nat, o: Oracle) returns (t: Slice, u: Slice, v: Slice)
    requires TimelyState(cfg, s) && HasStatus(s, Unknown) && p !in s.procs && Near(o.clock, s.now, cfg.skew)
    ensures Link(LeaseRule(cfg), s, Spawn(p, DoExecute(RetryCall)), t) && Link(LeaseRule(cfg), t, Move(p, o), u)
    ensures Link(LeaseRule(cfg), u, Move(p, o), v)
    ensures v.procs == s.procs[p := Proc(LogClaim(RetryCall), s.now)]
  {
    t := s.(procs := s.procs[p := Proc(Begin(DoExecute(RetryCall)), s.now)]);
    u := s.(procs := s.procs[p := Proc(TakeClaim(RetryCall), s.now)]);
    v := Next(u, Move(p, o));
    assert Next(t, Move(p, o)) == u;
    forall q | Owns(v, q) && q != p ensures v.now <= v.procs[q].since + cfg.hold {
      assert Owns(s, q);
    }
    assert TimelyState(cfg, u) by { forall q | Owns(u, q) ensures Owns(s, q) {} }
  }

  /** A retry then claims the row while the first owner still lives. */
  lemma Overtaking(cfg: LeaseTiming) returns (actions: seq<Action>)
    requires 1 <= cfg.lease <= cfg.hold + 2 * cfg.skew
    ensures Obeys(LeaseRule(cfg), 0, actions)
    ensures Owns(Run(Start(0), actions), 0) && Owns(Run(Start(0), actions), 2)
  {
    var slow, fast := Ask(0 - cfg.skew, cfg.lease), Ask(cfg.hold + cfg.skew, cfg.lease);
    actions := FastRecovery(cfg, slow, fast);
    var stale := Recovered(cfg.hold, slow.clock);
    assert TimelyState(cfg, stale);
    var t, u, v := RetryClaims(cfg, stale, 2, fast);
    actions := ThenThree(LeaseRule(cfg), actions, stale, Spawn(2, DoExecute(RetryCall)), t, Move(2, fast), u,
                         Move(2, fast), v);
  }

  /** Every run under this timing has at most one process between claim and mark or return, and none
      while the row is UNKNOWN. */
  ghost predicate AlwaysOneOwner(cfg: LeaseTiming) {
    forall now, actions :: Obeys(LeaseRule(cfg), now, actions) ==> OneOwner(Run(Start(now), actions))
  }

  /** Ownership is exclusive in every run exactly when the lease outlasts the longest hold by more
      than twice the clock skew. (The service refuses leases shorter than one second.) */
  lemma ExclusiveIffLeaseOutlastsHold(cfg: LeaseTiming)
    requires cfg.lease >= 1
    ensures AlwaysOneOwner(cfg) <==> cfg.lease > cfg.hold + 2 * cfg.skew
  {
    if cfg.lease > cfg.hold + 2 * cfg.skew {
      forall now, actions | Obeys(LeaseRule(cfg), now, actions) ensures OneOwner(Run(Start(now), actions)) {
        RunOneOwner(cfg, now, actions);
      }
    } else {
      var actions := Overtaking(cfg);
      assert !OneOwner(Run(Start(0), actions));
    }
  }
}
