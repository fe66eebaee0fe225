/** Timing hypotheses on runs of the protocol.

The protocol itself lets any amount of time pass between any two steps. A rule singles out the runs
whose actions and states keep to given bounds; the results that need time assume a rule. */
module TimedRuns {
  import opened Wrappers
  import opened ApprovalRows
  import opened ApprovalProtocol
  import opened ProtocolSafety
  import opened RunTheorems

  /** `lease`: the shortest lease any reconciler uses. `hold`: the longest an owner lives after its
      claim before it finishes or crashes. `skew`: how far a process clock may be from real time. */
  datatype LeaseTiming = LeaseTiming(lease: int, hold: nat, skew: nat)

  /** `gap`: every stretch of this length in which the row is EXECUTING or UNKNOWN holds a full
      reconcile with a truthful read. `send`: the longest from a claim to its apply request leaving.
      `delay`: the longest from a request leaving to the API server handling it. */
  datatype TtlTiming = TtlTiming(gap: nat, send: nat, delay: nat)

  datatype Rule = LeaseRule(lease: LeaseTiming) | TtlRule(ttl: TtlTiming)

  predicate Owns(s: Slice, p: nat) {
    p in s.procs && IsOwner(s.procs[p].pc)
  }

  predicate Near(clock: int, now: int, skew: int) {
    now - skew <= clock <= now + skew
  }

  /** Claims and stale recoveries read a clock that is close enough, and leases are long enough. */
  predicate TimelyAction(cfg: LeaseTiming, s: Slice, a: Action) {
    a.Move? && a.p in s.procs ==>
      && (s.procs[a.p].pc.TakeClaim? ==> Near(a.oracle.clock, s.now, cfg.skew))
      && (s.procs[a.p].pc.RecSettle? ==> Near(a.oracle.clock, s.now, cfg.skew) && cfg.lease <= a.oracle.lease)
  }

  /** No owner is still there after `hold`. */
  ghost predicate TimelyState(cfg: LeaseTiming, s: Slice) {
    forall p :: Owns(s, p) ==> s.now <= s.procs[p].since + cfg.hold
  }

  /** The row waits for an outcome. */
  predicate Waiting(s: Slice) {
    s.row.Some? && Active(s.row.value.status)
  }

  predicate PromptAction(cfg: TtlTiming, s: Slice, a: Action) {
    && (a.Land? && a.request in s.flights ==> s.now <= s.flights[a.request].issuedAt + cfg.delay)
    && (a.Move? && a.p in s.procs && s.procs[a.p].pc.SendApply? ==> s.now <= s.procs[a.p].since + cfg.send)
  }

  predicate WatchedState(cfg: TtlTiming, s: Slice) {
    Waiting(s) ==> s.now <= s.book.covered + cfg.gap
  }

  predicate ActionOk(rule: Rule, s: Slice, a: Action) {
    match rule
    case LeaseRule(cfg) => TimelyAction(cfg, s, a)
    case TtlRule(cfg) => PromptAction(cfg, s, a)
  }

  ghost predicate StateOk(rule: Rule, s: Slice) {
    match rule
    case LeaseRule(cfg) => TimelyState(cfg, s)
    case TtlRule(cfg) => WatchedState(cfg, s)
  }

  /** Every action and every state of the run keeps to the rule. */
  ghost predicate Obeys(rule: Rule, now: int, actions: seq<Action>) {
    && StateOk(rule, Run(Start(now), actions))
    && (actions != [] ==>
          && Obeys(rule, now, actions[..|actions| - 1])
          && ActionOk(rule, Run(Start(now), actions[..|actions| - 1]), actions[|actions| - 1]))
  }

  // ----- Building a run that obeys a rule -----

  ghost predicate Link(rule: Rule, s: Slice, a: Action, t: Slice) {
    ActionOk(rule, s, a) && t == Next(s, a) && StateOk(rule, t)
  }

  /** The run with these actions obeys the rule and ends in `s`. */
  ghost predicate Leads(rule: Rule, actions: seq<Action>, s: Slice) {
    Obeys(rule, 0, actions) && s == Run(Start(0), actions)
  }

  lemma Then(rule: Rule, actions: seq<Action>, s: Slice, a: Action, t: Slice)
    requires Leads(rule, actions, s) && Link(rule, s, a, t)
    ensures Leads(rule, actions + [a], t)
  {
    var longer := actions + [a];
    assert longer[..|longer| - 1] == actions;
  }

  lemma ThenThree(rule: Rule, before: seq<Action>, s: Slice, a: Action, t: Slice, b: Action, u: Slice,
                  c: Action, v: Slice) returns (after: seq<Action>)
    requires Leads(rule, before, s) && Link(rule, s, a, t) && Link(rule, t, b, u) && Link(rule, u, c, v)
    ensures Leads(rule, after, v)
  {
    Then(rule, before, s, a, t);
    Then(rule, before + [a], t, b, u);
    Then(rule, before + [a] + [b], u, c, v);
    after := before + [a] + [b] + [c];
  }

  /** A truthful environment. */
  function Ask(clock: int, lease: int): Oracle {
    Oracle(clock, lease, ReadHonestly, ApplySent)
  }

  /** A state before any Job exists. */
  function Early(now: int, row: Option<Row>, procs: map<nat, Proc>, log: seq<Event>, history: seq<Status>): Slice {
    Slice(now, row, Never, map[], procs, log, Book(history, 0, 0, 0, 0, 0))
  }

  function BornRow(clock: int): Row {
    NewRow("trace", TRAINING_ACTION, clock)
  }

  function ApprovedRow(clock: int): Row {
    BornRow(clock).(status := Approved, verdict := Some(Verdict(clock, "human", None)))
  }

  function ClaimedRow(clock: int): Row {
    ApprovedRow(clock).(status := Executing, startedAt := Some(clock))
  }

  lemma Creation(rule: Rule, o: Oracle) returns (actions: seq<Action>)
    ensures Leads(rule, actions, Early(0, Some(BornRow(o.clock)), map[], [], [Pending]))
  {
    var create := DoCreate("trace", TRAINING_ACTION);
    var s1 := Early(0, None, map[0 := Proc(Begin(create), 0)], [], []);
    var s2 := Early(0, Some(BornRow(o.clock)), map[0 := Proc(LogLast(ApprovalRequested), 0)], [], [Pending]);
    var s3 := Early(0, Some(BornRow(o.clock)), map[], [], [Pending]);
    actions := ThenThree(rule, [], Start(0), Spawn(0, create), s1, Move(0, o), s2, Crash(0), s3);
  }

  /** An approval is created and approved at time 0; the two handlers crash before their audit events. */
  lemma Opening(rule: Rule, o: Oracle) returns (actions: seq<Action>)
    ensures Leads(rule, actions, Early(0, Some(ApprovedRow(o.clock)), map[], [], [Pending, Approved]))
  {
    var decide := DoDecide(true, "human", None);
    actions := Creation(rule, o);
    var s3 := Early(0, Some(BornRow(o.clock)), map[], [], [Pending]);
    var s4 := Early(0, Some(BornRow(o.clock)), map[0 := Proc(Begin(decide), 0)], [], [Pending]);
    var s5 := Early(0, Some(ApprovedRow(o.clock)), map[0 := Proc(LogLast(ApprovalDecided(true)), 0)], [],
                    [Pending, Approved]);
    var s6 := Early(0, Some(ApprovedRow(o.clock)), map[], [], [Pending, Approved]);
    actions := ThenThree(rule, actions, s3, Spawn(0, decide), s4, Move(0, o), s5, Crash(0), s6);
  }

  /** Then an execute handler claims it. */
  lemma FirstClaim(rule: Rule, o: Oracle) returns (actions: seq<Action>)
    requires rule.LeaseRule? ==> Near(o.clock, 0, rule.lease.skew)
    ensures Leads(rule, actions, Early(0, Some(ClaimedRow(o.clock)), map[0 := Proc(LogClaim(ExecuteHandler), 0)], [],
                                       [Pending, Approved, Executing]))
  {
    var execute := DoExecute(ExecuteHandler);
    actions := Opening(rule, o);
    var s0 := Early(0, Some(ApprovedRow(o.clock)), map[], [], [Pending, Approved]);
    var s1 := s0.(procs := map[0 := Proc(Begin(execute), 0)]);
    var s2 := s0.(procs := map[0 := Proc(TakeClaim(ExecuteHandler), 0)]);
    var s3 := Early(0, Some(ClaimedRow(o.clock)), map[0 := Proc(LogClaim(ExecuteHandler), 0)], [],
                    [Pending, Approved, Executing]);
    actions := ThenThree(rule, actions, s0, Spawn(0, execute), s1, Move(0, o), s2, Move(0, o), s3);
  }
}
