/** A reconcile that nothing interleaves with, as one function of the row and the Job, proved to be
what the protocol's single steps amount to. */
module SoloReconcile {
  import opened Wrappers
  import opened ApprovalRows
  import opened ApprovalProtocol
  import opened ControlPlane

  /** The row afterwards and the events recorded, or the events recorded before it raises. */
  datatype Outcome = Returned(row: Row, events: seq<Event>) | Raised(events: seq<Event>)

  function Alone(row: Row, job: JobSlot, o: Oracle): Outcome {
    var started := [ReconciliationStarted(row.status)];
    if !Active(row.status) then Returned(row, [])
    else
      match ReadJob(job, o.read)
      case ReadRaised => Raised(started)
      case Saw(state) =>
        if state == JobRunning then Returned(row, started + [ReconciliationCompleted(row.status)])
        else
          var status := ReadBackStatus(state);
          Returned(row.(status := status, result := Some(ReadBackPayload(state))),
                   started + [ReconciliationCompleted(status)])
      case SaysAbsent =>
        if row.status == Executing && o.lease < 1 then Raised(started)
        else if row.status == Executing && LeaseOver(row, o.lease, o.clock) then
          Returned(row.(status := Unknown, result := Some(Payload(false, true, LeaseExpired(row.startedAt.value)))),
                   started + [ExecutionUnknown, ReconciliationCompleted(Unknown)])
        else Returned(row, started + [ReconciliationCompleted(row.status)])
      case SaysUnavailable => Returned(row, started + [ReconciliationCompleted(row.status)])
  }

  /** One process reconciles; a move of a process that has ended changes nothing. */
  function Solo(p: nat, o: Oracle): seq<Action> {
    [Spawn(p, DoReconcile), Move(p, o), Move(p, o), Move(p, o), Move(p, o), Move(p, o), Move(p, o)]
  }

  function Rest(s: Slice, p: nat, o: Oracle, n: nat): Slice
    decreases n
  {
    if n == 0 then s else Rest(Next(s, Move(p, o)), p, o, n - 1)
  }

  lemma {:induction false} RestIsRun(s: Slice, p: nat, o: Oracle, n: nat, before: seq<Action>, origin: Slice)
    requires s == Run(origin, before)
    ensures Rest(s, p, o, n) == Run(origin, before + seq(n, i => Move(p, o)))
    decreases n
  {
    var more := seq(n, i => Move(p, o));
    if n == 0 {
      assert before + more == before;
    } else {
      RunMore(origin, before, Move(p, o));
      RestIsRun(Next(s, Move(p, o)), p, o, n - 1, before + [Move(p, o)], origin);
      assert before + [Move(p, o)] + seq(n - 1, i => Move(p, o)) == before + more;
    }
  }

  lemma SoloIsRest(s: Slice, p: nat, o: Oracle)
    ensures Run(s, Solo(p, o)) == Rest(Next(s, Spawn(p, DoReconcile)), p, o, 6)
  {
    RunMore(s, [], Spawn(p, DoReconcile));
    RestIsRun(Next(s, Spawn(p, DoReconcile)), p, o, 6, [Spawn(p, DoReconcile)], s);
    assert Solo(p, o) == [Spawn(p, DoReconcile)] + seq(6, i => Move(p, o));
  }

  lemma {:induction false} NothingLeft(s: Slice, p: nat, o: Oracle, n: nat)
    requires p !in s.procs
    ensures Rest(s, p, o, n) == s
    decreases n
  {
    if n > 0 {
      NothingLeft(s, p, o, n - 1);
    }
  }

  /** The slice afterwards: the row and the log have moved as `Alone` says, the process is gone, and
      the cluster, the other processes and the clock are as before. */
  predicate After(s: Slice, t: Slice, p: nat, outcome: Outcome) {
    && t.row == (if outcome.Returned? then Some(outcome.row) else s.row)
    && t.log == s.log + outcome.events
    && t.procs == s.procs - {p}
    && t.job == s.job && t.flights == s.flights && t.now == s.now
  }

  lemma SoloEnds(s: Slice, p: nat, row: Row, o: Oracle)
    requires p in s.procs && s.procs[p].pc == RecLogEnd(row)
    ensures var t := Rest(s, p, o, 2);
      t == End(Record(s, ReconciliationCompleted(row.status)), p)
  {
    var t := Next(s, Move(p, o));
    assert t == End(Record(s, ReconciliationCompleted(row.status)), p);
    NothingLeft(t, p, o, 1);
  }

  lemma SoloEndsStale(s: Slice, p: nat, row: Row, o: Oracle)
    requires p in s.procs && s.procs[p].pc == RecLogStale(row)
    ensures var t := Rest(s, p, o, 2);
      t == End(Record(Record(s, ExecutionUnknown), ReconciliationCompleted(row.status)), p)
  {
    var t := Next(s, Move(p, o));
    assert t == Goto(Record(s, ExecutionUnknown), p, RecLogEnd(row));
    var u := Next(t, Move(p, o));
    assert u == End(Record(t, ReconciliationCompleted(row.status)), p);
    assert u.procs == End(Record(Record(s, ExecutionUnknown), ReconciliationCompleted(row.status)), p).procs;
    NothingLeft(u, p, o, 0);
  }

  lemma RestStep(s: Slice, p: nat, o: Oracle, n: nat)
    requires n > 0
    ensures Rest(s, p, o, n) == Rest(Next(s, Move(p, o)), p, o, n - 1)
  {
  }

  /** A reconcile at its mark, with the row as it first read it. */
  predicate AtMark(s: Slice, p: nat, seen: Status, report: Report, honest: bool, o: Oracle) {
    && p in s.procs && s.procs[p].pc == RecSettle(seen, report, honest)
    && s.row.Some? && s.row.value.status == seen && Active(seen)
    && report == ReadJob(s.job, o.read) && report != ReadRaised
  }

  predicate AfterMark(s: Slice, t: Slice, p: nat, outcome: Outcome) {
    outcome.events != [] && After(s, t, p, outcome.(events := outcome.events[1..]))
  }

  lemma SoloReadsAgain(s: Slice, p: nat, seen: Status, report: Report, honest: bool, o: Oracle)
    requires AtMark(s, p, seen, report, honest, o)
    requires Alone(s.row.value, s.job, o) ==
               Returned(s.row.value, [ReconciliationStarted(seen), ReconciliationCompleted(seen)])
    ensures AfterMark(s, Rest(s, p, o, 3), p, Alone(s.row.value, s.job, o))
  {
    var u := Next(s, Move(p, o));
    RestStep(s, p, o, 3);
    assert u == Goto(NoteCovered(s, s.procs[p].since, honest), p, RecLogEnd(s.row.value));
    SoloEnds(u, p, s.row.value, o);
  }

  lemma SoloMarks(s: Slice, p: nat, seen: Status, state: JobState, honest: bool, o: Oracle)
    requires AtMark(s, p, seen, Saw(state), honest, o) && state != JobRunning
    ensures AfterMark(s, Rest(s, p, o, 3), p, Alone(s.row.value, s.job, o))
  {
    var row := s.row.value.(status := ReadBackStatus(state), result := Some(ReadBackPayload(state)));
    var u := Next(s, Move(p, o));
    RestStep(s, p, o, 3);
    assert u == Goto(Commit(NoteCovered(s, s.procs[p].since, honest), row), p, RecLogEnd(row));
    SoloEnds(u, p, row, o);
  }

  lemma SoloRecovers(s: Slice, p: nat, honest: bool, o: Oracle)
    requires AtMark(s, p, Executing, SaysAbsent, honest, o) && o.lease >= 1 && LeaseOver(s.row.value, o.lease, o.clock)
    ensures AfterMark(s, Rest(s, p, o, 3), p, Alone(s.row.value, s.job, o))
  {
    var row := s.row.value;
    var unknown := row.(status := Unknown, result := Some(Payload(false, true, LeaseExpired(row.startedAt.value))));
    var u := Next(s, Move(p, o));
    RestStep(s, p, o, 3);
    assert u == Goto(Commit(NoteCovered(s, s.procs[p].since, honest), unknown), p, RecLogStale(unknown));
    SoloEndsStale(u, p, unknown, o);
  }

  lemma SoloRaises(s: Slice, p: nat, honest: bool, o: Oracle)
    requires AtMark(s, p, Executing, SaysAbsent, honest, o) && o.lease < 1
    ensures AfterMark(s, Rest(s, p, o, 3), p, Alone(s.row.value, s.job, o))
  {
    var u := Next(s, Move(p, o));
    RestStep(s, p, o, 3);
    assert u == End(NoteCovered(s, s.procs[p].since, honest), p);
    NothingLeft(u, p, o, 2);
  }

  lemma SoloSettles(s: Slice, p: nat, seen: Status, report: Report, honest: bool, o: Oracle)
    requires AtMark(s, p, seen, report, honest, o)
    ensures AfterMark(s, Rest(s, p, o, 3), p, Alone(s.row.value, s.job, o))
  {
    if report.Saw? && report.state != JobRunning {
      SoloMarks(s, p, seen, report.state, honest, o);
    } else if report == SaysAbsent && seen == Executing && o.lease < 1 {
      SoloRaises(s, p, honest, o);
    } else if report == SaysAbsent && seen == Executing && LeaseOver(s.row.value, o.lease, o.clock) {
      SoloRecovers(s, p, honest, o);
    } else {
      SoloReadsAgain(s, p, seen, report, honest, o);
    }
  }

  /** A reconcile that is to record its start. */
  lemma SoloReads(s: Slice, p: nat, o: Oracle)
    requires p in s.procs && s.row.Some? && Active(s.row.value.status)
    requires s.procs[p].pc == RecLogStart(s.row.value.status)
    ensures After(s, Rest(s, p, o, 5), p, Alone(s.row.value, s.job, o))
  {
    var seen := s.row.value.status;
    var started := Next(s, Move(p, o));
    RestStep(s, p, o, 5);
    assert started == Goto(Record(s, ReconciliationStarted(seen)), p, RecLook(seen));
    var looked := Next(started, Move(p, o));
    RestStep(started, p, o, 4);
    var report := ReadJob(s.job, o.read);
    if report.ReadRaised? {
      assert looked == End(started, p);
      NothingLeft(looked, p, o, 3);
    } else {
      var honest := report == Truth(s.job);
      assert looked == Goto(started, p, RecSettle(seen, report, honest));
      SoloSettles(looked, p, seen, report, honest, o);
    }
  }

  /** Run without interference, the steps of a reconcile amount to `Alone`. */
  lemma AloneIsTheProtocol(s: Slice, p: nat, o: Oracle)
    requires p !in s.procs && s.row.Some?
    ensures After(s, Run(s, Solo(p, o)), p, Alone(s.row.value, s.job, o))
  {
    SoloIsRest(s, p, o);
    var begun := Next(s, Spawn(p, DoReconcile));
    var first := Next(begun, Move(p, o));
    RestStep(begun, p, o, 6);
    if Active(s.row.value.status) {
      assert first == GotoSince(begun, p, RecLogStart(s.row.value.status));
      SoloReads(first, p, o);
    } else {
      assert first == End(begun, p);
      NothingLeft(first, p, o, 5);
    }
  }
}
