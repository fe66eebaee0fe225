/** The results about one approval, for every approval of the control plane at once, and the results
that need the whole table or the whole cluster. */
module PlaneTheorems {
  import opened Wrappers
  import opened ApprovalRows
  import opened ApprovalProtocol
  import opened ProtocolSafety
  import opened RunTheorems
  import opened TimedRuns
  import opened ProtocolCounts
  import opened ControlPlane
  import opened ApprovalTable
  import opened JobNames
  import SingleOwner
  import OneJob

  ghost predicate PlaneStepsAt(planes: seq<Plane>, actions: seq<PlaneAction>, i: int) {
    0 <= i < |actions| && i + 1 < |planes| && planes[i + 1] == PlaneNext(planes[i], actions[i])
  }

  /** From a blank start the actions go through `planes`, one step at a time. */
  ghost predicate PlaneGoesThrough(now: int, actions: seq<PlaneAction>, planes: seq<Plane>) {
    && |planes| == |actions| + 1 && planes[0] == Blank(now)
    && forall i :: 0 <= i < |actions| ==> PlaneStepsAt(planes, actions, i)
  }

  /** The actions lead the control plane from a blank start to `g`. */
  ghost predicate PlaneReaches(now: int, actions: seq<PlaneAction>, g: Plane) {
    exists planes :: PlaneGoesThrough(now, actions, planes) && planes[|actions|] == g
  }

  lemma {:induction false} PlanesAreRuns(now: int, actions: seq<PlaneAction>, planes: seq<Plane>)
    requires PlaneGoesThrough(now, actions, planes)
    ensures planes[|actions|] == PlaneRun(Blank(now), actions)
  {
    if actions != [] {
      var n := |actions| - 1;
      var before, earlier := planes[..n + 1], actions[..n];
      forall i | 0 <= i < n ensures PlaneStepsAt(before, earlier, i) {
        assert PlaneStepsAt(planes, actions, i);
      }
      PlanesAreRuns(now, earlier, before);
      assert PlaneStepsAt(planes, actions, n);
    }
  }

  lemma PlaneReachesRun(now: int, actions: seq<PlaneAction>, g: Plane)
    requires PlaneReaches(now, actions, g)
    ensures g == PlaneRun(Blank(now), actions)
  {
    var planes :| PlaneGoesThrough(now, actions, planes) && planes[|actions|] == g;
    PlanesAreRuns(now, actions, planes);
  }

  /** In every run of the control plane every approval keeps its invariant, and its audit events and
      apply calls are balanced, whatever other approvals and their Jobs do. */
  lemma EveryApprovalIsSafe(now: int, actions: seq<PlaneAction>, g: Plane, id: string)
    requires PlaneReaches(now, actions, g) && MatchesId(id)
    ensures var s := View(g, id);
      Inv(s) && Balanced(s) && Events(s, ExecutionStarted) <= 1
  {
    PlaneReachesRun(now, actions, g);
    Projection(now, actions, id);
    ReachableInv(now, Project(actions, id));
    CountingSandwich(now, Project(actions, id));
    RunBalanced(now, Project(actions, id));
  }

  // ----- The cluster -----

  lemma {:induction false} JobsHaveIds(now: int, actions: seq<PlaneAction>, name: string)
    requires name in PlaneRun(Blank(now), actions).jobs
    ensures exists id :: MatchesId(id) && LookupName(id) == name
  {
    var n := |actions| - 1;
    var before := PlaneRun(Blank(now), actions[..n]);
    if name in before.jobs {
      JobsHaveIds(now, actions[..n], name);
    } else {
      assert actions[n].For? && Proper(actions[n].id, actions[n].action);
      assert LookupName(actions[n].id) == name;
    }
  }

  /** Action `i` of the run commits a human approval of `id`. */
  ghost predicate ApprovesAt(now: int, actions: seq<PlaneAction>, id: string, i: int) {
    && 0 <= i < |actions|
    && actions[i].For? && actions[i].id == id
    && Approves(View(PlaneRun(Blank(now), actions[..i]), id), actions[i].action)
  }

  ghost predicate ApprovedEarlier(now: int, actions: seq<PlaneAction>, id: string) {
    exists i :: ApprovesAt(now, actions, id, i)
  }

  lemma ApprovalNeedsItsOwn(g: Plane, a: PlaneAction, id: string)
    requires MatchesId(id) && Inv(View(g, id))
    requires Approved !in View(g, id).book.history && Approved in View(PlaneNext(g, a), id).book.history
    ensures a.For? && a.id == id && Approves(View(g, id), a.action)
  {
    StepView(g, a, id);
    assert a.For? && a.id == id;
    ApprovalNeedsDecide(View(g, id), a.action);
  }

  lemma EarlierStaysEarlier(now: int, actions: seq<PlaneAction>, a: PlaneAction, id: string)
    requires ApprovedEarlier(now, actions, id)
    ensures ApprovedEarlier(now, actions + [a], id)
  {
    var all := actions + [a];
    var i :| ApprovesAt(now, actions, id, i);
    assert all[..i] == actions[..i] && all[i] == actions[i];
    assert ApprovesAt(now, all, id, i);
  }

  lemma PlaneRunMore(now: int, actions: seq<PlaneAction>, a: PlaneAction)
    ensures PlaneRun(Blank(now), actions + [a]) == PlaneNext(PlaneRun(Blank(now), actions), a)
  {
    assert (actions + [a])[..|actions|] == actions;
  }

  lemma ViewsAreSound(now: int, actions: seq<PlaneAction>, id: string)
    requires MatchesId(id)
    ensures Inv(View(PlaneRun(Blank(now), actions), id))
  {
    Projection(now, actions, id);
    ReachableInv(now, Project(actions, id));
  }

  lemma LastActionApproves(now: int, actions: seq<PlaneAction>, a: PlaneAction, id: string)
    requires MatchesId(id) && Approved !in View(PlaneRun(Blank(now), actions), id).book.history
    requires Approved in View(PlaneRun(Blank(now), actions + [a]), id).book.history
    ensures ApprovedEarlier(now, actions + [a], id)
  {
    var all := actions + [a];
    ViewsAreSound(now, actions, id);
    PlaneRunMore(now, actions, a);
    ApprovalNeedsItsOwn(PlaneRun(Blank(now), actions), a, id);
    assert all[..|actions|] == actions && all[|actions|] == a;
    assert ApprovesAt(now, all, id, |actions|);
  }

  lemma {:induction false} ApprovalIsInTheRun(now: int, actions: seq<PlaneAction>, id: string)
    requires MatchesId(id) && Approved in View(PlaneRun(Blank(now), actions), id).book.history
    ensures ApprovedEarlier(now, actions, id)
  {
    if actions == [] {
      assert false;
    }
    var n := |actions| - 1;
    assert actions == actions[..n] + [actions[n]];
    if Approved in View(PlaneRun(Blank(now), actions[..n]), id).book.history {
      ApprovalIsInTheRun(now, actions[..n], id);
      EarlierStaysEarlier(now, actions[..n], actions[n], id);
    } else {
      LastActionApproves(now, actions[..n], actions[n], id);
    }
  }

  /** Every Job that is or ever was in the cluster carries the name of exactly one approval, and that
      approval was approved by a human earlier in the run and is past APPROVED. */
  lemma EveryJobWasApproved(now: int, actions: seq<PlaneAction>, g: Plane, name: string)
    requires PlaneReaches(now, actions, g) && name in g.jobs && !g.jobs[name].Never?
    ensures exists id ::
      && MatchesId(id) && LookupName(id) == name && JobName(id) == Ok(name)
      && Claimed(View(g, id))
      && ApprovedEarlier(now, actions, id)
  {
    PlaneReachesRun(now, actions, g);
    JobsHaveIds(now, actions, name);
    var id :| MatchesId(id) && LookupName(id) == name;
    NamesCohere(id);
    EveryApprovalIsSafe(now, actions, g, id);
    var s := View(g, id);
    StoryNeedsApproval(s.book.history);
    assert Approved in s.book.history;
    ApprovalIsInTheRun(now, actions, id);
  }

  // ----- Timing -----

  ghost predicate EachObeys(rule: Rule, now: int, actions: seq<PlaneAction>) {
    forall id :: MatchesId(id) ==> Obeys(rule, now, Project(actions, id))
  }

  /** Under the two timing conditions no approval ever has two Jobs or two owners. */
  lemma EachApprovalHasOneJobAndOneOwner(ttl: TtlTiming, lease: LeaseTiming, now: int,
                                         actions: seq<PlaneAction>, g: Plane, id: string)
    requires PlaneReaches(now, actions, g) && MatchesId(id)
    ensures EachObeys(TtlRule(ttl), now, actions) && ttl.gap + ttl.send + ttl.delay < TTL ==>
              View(g, id).book.created <= 1
    ensures EachObeys(LeaseRule(lease), now, actions) && lease.lease > lease.hold + 2 * lease.skew ==>
              SingleOwner.OneOwner(View(g, id))
  {
    PlaneReachesRun(now, actions, g);
    Projection(now, actions, id);
    if EachObeys(TtlRule(ttl), now, actions) && ttl.gap + ttl.send + ttl.delay < TTL {
      OneJob.RunKeepsJob(ttl, now, Project(actions, id));
    }
    if EachObeys(LeaseRule(lease), now, actions) && lease.lease > lease.hold + 2 * lease.skew {
      SingleOwner.RunOneOwner(lease, now, Project(actions, id));
    }
  }

  // ----- The status counts -----

  predicate Writes(pc: Pc) {
    pc.Begin? || pc.TakeClaim? || pc.MarkReply? || pc.RetrySettle? || pc.RecSettle?
  }

  lemma WritersCommitOnce(s: Slice, p: nat, o: Oracle)
    requires p in s.procs && Writes(s.procs[p].pc)
    ensures |Advance(s, p, o).book.history| <= |s.book.history| + 1
  {
    match s.procs[p].pc {
      case Begin(task) => assert Advance(s, p, o) == BeginStep(s, p, task, o.clock);
      case TakeClaim(caller) => assert Advance(s, p, o) == ClaimStep(s, p, caller, o.clock);
      case MarkReply(caller, reply) => assert Advance(s, p, o) == MarkStep(s, p, caller, reply);
      case RetrySettle(report) => assert Advance(s, p, o) == RetrySettleStep(s, p, report);
      case RecSettle(seen, report, honest) =>
        var noted := NoteCovered(s, s.procs[p].since, honest);
        assert Advance(s, p, o) == RecSettleStep(noted, p, seen, report, o);
    }
  }

  lemma OthersCommitNothing(s: Slice, p: nat, o: Oracle)
    requires p in s.procs && !Writes(s.procs[p].pc)
    ensures Advance(s, p, o).book.history == s.book.history
  {
  }

  lemma OneCommitAtMost(s: Slice, a: Action)
    ensures |Next(s, a).book.history| <= |s.book.history| + 1
  {
    if a.Move? && a.p in s.procs {
      if Writes(s.procs[a.p].pc) {
        WritersCommitOnce(s, a.p, a.oracle);
      } else {
        OthersCommitNothing(s, a.p, a.oracle);
      }
    }
  }

  /** A step leaves the row's status, creates the row as PENDING or takes it along an edge. */
  lemma StatusMovesAlongEdges(s: Slice, a: Action)
    requires Inv(s)
    ensures var t := Next(s, a);
      || (s.row.None? && t.row.None?)
      || (s.row.None? && HasStatus(t, Pending))
      || (s.row.Some? && t.row.Some? && (t.row.value.status == s.row.value.status
                                         || Edge(s.row.value.status, t.row.value.status)))
  {
    NextKeeps(s, a);
    OneCommitAtMost(s, a);
    var h, k := s.book.history, Next(s, a).book.history;
    if k != [] {
      StoryChained(k);
      assert |k| == |h| ==> k == h;
      assert |k| == |h| + 1 ==> k[..|k| - 1] == h;
    }
  }

  /** `from` loses one unit (if it is a status) and `to` gains one (likewise). */
  ghost predicate OneUnit(before: map<string, Row>, after: map<string, Row>, from: Option<Status>, to: Option<Status>) {
    forall st: Status {:trigger StatusCounts(after)[st]} ::
      StatusCounts(after)[st] + One(from == Some(st)) == StatusCounts(before)[st] + One(to == Some(st))
  }

  /** The table gained one PENDING row, or one row moved along an edge, or no count changed. */
  ghost predicate Conserved(before: map<string, Row>, after: map<string, Row>) {
    || (OneUnit(before, after, None, None) && |after| == |before|)
    || (OneUnit(before, after, None, Some(Pending)) && |after| == |before| + 1)
    || (exists from, to :: Edge(from, to) && OneUnit(before, after, Some(from), Some(to)) && |after| == |before|)
  }

  lemma WriteConserves(rows: map<string, Row>, id: string, row: Row)
    requires id !in rows ==> row.status == Pending
    requires id in rows ==> rows[id].status == row.status || Edge(rows[id].status, row.status)
    ensures Conserved(rows, rows[id := row])
  {
    var after := rows[id := row];
    assert after.Keys == rows.Keys + {id};
    var same := id in rows && rows[id].status == row.status;
    var from := if same || id !in rows then None else Some(rows[id].status);
    var to := if same then None else Some(row.status);
    forall st: Status
      ensures StatusCounts(after)[st] + One(from == Some(st)) == StatusCounts(rows)[st] + One(to == Some(st))
    {
      WriteMovesOneUnit(rows, id, row, st);
    }
    assert OneUnit(rows, after, from, to);
  }

  /** Each action of a run leaves the counts alone, or creates one PENDING approval, or moves one unit
      along an edge; the counts add up to the number of approvals throughout. */
  lemma CountsConserved(now: int, actions: seq<PlaneAction>, a: PlaneAction, g: Plane, h: Plane)
    requires PlaneReaches(now, actions, g) && PlaneReaches(now, actions + [a], h)
    ensures Conserved(g.rows, h.rows) && Sum(StatusCounts(h.rows)) == |h.rows|
  {
    PlaneReachesRun(now, actions, g);
    PlaneReachesRun(now, actions + [a], h);
    assert (actions + [a])[..|actions|] == actions;
    CountsAddUp(h.rows);
    if a.For? && Proper(a.id, a.action) {
      EveryApprovalIsSafe(now, actions, g, a.id);
      StatusMovesAlongEdges(View(g, a.id), a.action);
      var row := Next(View(g, a.id), a.action).row;
      if row.Some? {
        assert h.rows == g.rows[a.id := row.value];
        WriteConserves(g.rows, a.id, row.value);
      }
    }
  }
}
