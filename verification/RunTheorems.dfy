/** Safety over whole runs: statements about every schedule of every mix of processes. */
module RunTheorems {
  import opened Wrappers
  import opened ApprovalRows
  import opened ApprovalProtocol
  import opened ProtocolSafety

  lemma {:induction false} RunSplit(s: Slice, first: seq<Action>, second: seq<Action>)
    ensures Run(s, first + second) == Run(Run(s, first), second)
  {
    if second == [] {
      assert first + second == first;
    } else {
      var n := |second| - 1;
      assert (first + second)[..|first + second| - 1] == first + second[..n];
      RunSplit(s, first, second[..n]);
    }
  }

  /** Any state that satisfies the invariant keeps it, and its row only moves forward. */
  lemma {:induction false} RunKeeps(s: Slice, actions: seq<Action>)
    requires Inv(s)
    ensures Inv(Run(s, actions)) && Progress(s, Run(s, actions))
  {
    if actions != [] {
      RunKeeps(s, actions[..|actions| - 1]);
      NextKeeps(Run(s, actions[..|actions| - 1]), actions[|actions| - 1]);
    }
  }

  lemma ReachableInv(now: int, actions: seq<Action>)
    ensures Inv(Run(Start(now), actions))
  {
    RunKeeps(Start(now), actions);
  }

  ghost predicate StepsAt(states: seq<Slice>, actions: seq<Action>, i: int) {
    0 <= i < |actions| && i + 1 < |states| && states[i + 1] == Next(states[i], actions[i])
  }

  /** From a fresh start the actions go through `states`, one step at a time. */
  ghost predicate GoesThrough(now: int, actions: seq<Action>, states: seq<Slice>) {
    && |states| == |actions| + 1 && states[0] == Start(now)
    && forall i :: 0 <= i < |actions| ==> StepsAt(states, actions, i)
  }

  /** The actions lead from a fresh start to `s`. */
  ghost predicate Reaches(now: int, actions: seq<Action>, s: Slice) {
    exists states :: GoesThrough(now, actions, states) && states[|actions|] == s
  }

  lemma {:induction false} StatesAreRuns(now: int, actions: seq<Action>, states: seq<Slice>)
    requires GoesThrough(now, actions, states)
    ensures states[|actions|] == Run(Start(now), actions)
  {
    if actions != [] {
      var n := |actions| - 1;
      var before, earlier := states[..n + 1], actions[..n];
      forall i | 0 <= i < n ensures StepsAt(before, earlier, i) {
        assert StepsAt(states, actions, i);
      }
      StatesAreRuns(now, earlier, before);
      assert StepsAt(states, actions, n);
    }
  }

  lemma {:induction false} RunsGoThrough(now: int, actions: seq<Action>) returns (states: seq<Slice>)
    ensures GoesThrough(now, actions, states) && states[|actions|] == Run(Start(now), actions)
  {
    if actions == [] {
      states := [Start(now)];
    } else {
      var n := |actions| - 1;
      var before := RunsGoThrough(now, actions[..n]);
      states := before + [Next(before[n], actions[n])];
      forall i | 0 <= i < |actions| ensures StepsAt(states, actions, i) {
        if i < n { assert StepsAt(before, actions[..n], i); }
      }
    }
  }

  /** Step by step or all at once: a run leads to the state that `Run` computes and to no other. */
  lemma ReachesRun(now: int, actions: seq<Action>, s: Slice)
    ensures Reaches(now, actions, s) <==> s == Run(Start(now), actions)
  {
    if Reaches(now, actions, s) {
      var states :| GoesThrough(now, actions, states) && states[|actions|] == s;
      StatesAreRuns(now, actions, states);
    }
    var states := RunsGoThrough(now, actions);
  }

  /** Every reachable state is sound. */
  lemma ReachedStatesAreSound(now: int, actions: seq<Action>, s: Slice)
    requires Reaches(now, actions, s)
    ensures Inv(s)
  {
    ReachesRun(now, actions, s);
    ReachableInv(now, actions);
  }

  /** The row refines the simple machine, with its columns in step, whatever races on it. */
  lemma RowRefinesStory(now: int, actions: seq<Action>, s: Slice)
    requires Reaches(now, actions, s)
    ensures Story(s.book.history)
    ensures s.row.Some? ==> s.book.history != [] && Last(s.book.history) == s.row.value.status
    ensures s.row.Some? ==> Shape(s.row.value, s.book.history)
  {
    ReachedStatesAreSound(now, actions, s);
  }

  /** First writer wins: once a run has rejected, completed or failed the approval, no later action
      of any process changes its status, its result or any other column. */
  lemma FinalRowsAreFrozen(now: int, actions: seq<Action>, more: seq<Action>)
    ensures var s := Run(Start(now), actions);
      s.row.Some? && Final(s.row.value.status) ==> Run(Start(now), actions + more).row == s.row
  {
    ReachableInv(now, actions);
    RunSplit(Start(now), actions, more);
    RunKeeps(Run(Start(now), actions), more);
  }

  // ----- No Job without a human yes -----

  /** The action commits `decide(approved=True)` on a pending row. */
  predicate Approves(s: Slice, a: Action) {
    && a.Move?
    && a.p in s.procs
    && s.procs[a.p].pc.Begin?
    && s.procs[a.p].pc.task.DoDecide?
    && s.procs[a.p].pc.task.approved
    && HasStatus(s, Pending)
  }

  lemma ApprovalNeedsDecide(s: Slice, a: Action)
    requires Inv(s) && Approved !in s.book.history && Approved in Next(s, a).book.history
    ensures Approves(s, a)
  {
    assert a.Move? && a.p in s.procs;
    assert PcOk(s, s.procs[a.p].pc);
    if Claimed(s) { StoryNeedsApproval(s.book.history); }
  }

  lemma {:induction false} ApprovedBySomeone(now: int, actions: seq<Action>)
    requires Approved in Run(Start(now), actions).book.history
    ensures exists i :: 0 <= i < |actions| && Approves(Run(Start(now), actions[..i]), actions[i])
  {
    var n := |actions| - 1;
    var before := Run(Start(now), actions[..n]);
    if Approved in before.book.history {
      ApprovedBySomeone(now, actions[..n]);
      var i :| 0 <= i < n && Approves(Run(Start(now), actions[..n][..i]), actions[..n][i]);
      assert actions[..n][..i] == actions[..i];
    } else {
      ReachableInv(now, actions[..n]);
      ApprovalNeedsDecide(before, actions[n]);
    }
  }

  /** In every run, if an apply call was made, a request sent or a Job created for the approval, then
      a human decision approving it was committed earlier in that run, and the row was never
      rejected. It holds of each prefix of a run, so the decision comes before the Job. */
  lemma NoJobWithoutHumanYes(now: int, actions: seq<Action>, s: Slice)
    requires Reaches(now, actions, s)
    ensures Touched(s) ==>
      && (exists i :: 0 <= i < |actions| && Approves(Run(Start(now), actions[..i]), actions[i]))
      && s.row.Some? && s.row.value.verdict.Some?
      && Rejected !in s.book.history && !HasStatus(s, Pending) && !HasStatus(s, Approved)
  {
    ReachedStatesAreSound(now, actions, s);
    if Touched(s) {
      StoryNeedsApproval(s.book.history);
      assert Approved in s.book.history;
      ReachesRun(now, actions, s);
      ApprovedBySomeone(now, actions);
    }
  }

  // ----- The audit log agrees with the row -----

  /** An execution-completed (failed) event implies that the row is COMPLETED (FAILED), now and after
      anything that follows; so no run ever logs both. */
  lemma AuditAgreesWithRow(now: int, actions: seq<Action>, more: seq<Action>)
    ensures var s := Run(Start(now), actions); var t := Run(Start(now), actions + more);
      && (ExecutionCompleted in s.log ==> HasStatus(t, Completed) && ExecutionFailed !in t.log)
      && (ExecutionFailed in s.log ==> HasStatus(t, Failed) && ExecutionCompleted !in t.log)
  {
    ReachableInv(now, actions);
    ReachableInv(now, actions + more);
    RunSplit(Start(now), actions, more);
    RunKeeps(Run(Start(now), actions), more);
  }

  // ----- Reconcile under interference -----

  /** A reconcile that saw the Job finished, at the moment it marks the row: whatever the others did
      since it first read the row, the row ends settled. The mark raises exactly when the opposite
      status was written first, and then the row is left as it was. */
  lemma ReconcileMarkSettles(now: int, actions: seq<Action>, p: nat, o: Oracle, s: Slice, t: Slice)
    requires Reaches(now, actions, s) && Reaches(now, actions + [Move(p, o)], t)
    requires p in s.procs && s.procs[p].pc.RecSettle? && s.procs[p].pc.report in {Saw(JobCompleted), Saw(JobFailed)}
    ensures var mine := ReadBackStatus(s.procs[p].pc.report.state);
      var other := if mine == Completed then Failed else Completed;
      && t.row.Some? && Settled(t.row.value.status)
      && (p !in t.procs <==> HasStatus(s, other))
      && (HasStatus(s, other) ==> t.row == s.row)
      && (!HasStatus(s, other) ==> HasStatus(t, mine))
  {
    ReachedStatesAreSound(now, actions, s);
    ReachesRun(now, actions, s);
    ReachesRun(now, actions + [Move(p, o)], t);
    assert (actions + [Move(p, o)])[..|actions|] == actions;
    MarkSettles(s, p, o);
  }

  lemma MarkSettles(s: Slice, p: nat, o: Oracle)
    requires Inv(s) && p in s.procs && s.procs[p].pc.RecSettle?
    requires s.procs[p].pc.report in {Saw(JobCompleted), Saw(JobFailed)}
    ensures var t := Next(s, Move(p, o));
      var mine := ReadBackStatus(s.procs[p].pc.report.state);
      var other := if mine == Completed then Failed else Completed;
      && t.row.Some? && Settled(t.row.value.status)
      && (p !in t.procs <==> HasStatus(s, other))
      && (HasStatus(s, other) ==> t.row == s.row)
      && (!HasStatus(s, other) ==> HasStatus(t, mine))
  {
    assert PcOk(s, s.procs[p].pc);
  }
}
