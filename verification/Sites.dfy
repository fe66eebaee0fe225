/** Where a handler runs: the real store, audit log and cluster, shared with other processes.

A `Site` follows one approval. Its `slice` is the protocol state that the shared objects amount to for
that approval and its `trace` is the run that led there. Every operation of a process changes the
objects the way the code does and is accounted for as one protocol step; between operations the
environment may take any steps of any other processes. */
module Sites {
  import opened Wrappers
  import opened ApprovalRows
  import opened ApprovalProtocol
  import opened ProtocolSafety
  import opened RunTheorems
  import opened ApprovalTable
  import opened ApprovalStores
  import opened ControlPlane
  import opened JobNames

  /** The append-only audit table, tagged with the approval that an event is about. */
  class AuditStore {
    var events: seq<(string, Event)>

    constructor ()
      ensures events == []
    {
      events := [];
    }

    method Append(id: string, e: Event)
      modifies this
      ensures events == old(events) + [(id, e)]
    {
      events := events + [(id, e)];
    }
  }

  /** The cluster as `kubectl` reaches it, and real time. */
  class Cluster {
    var now: int
    var jobs: map<string, JobSlot>
    var flights: map<string, map<nat, Flight>>

    constructor (now: int)
      ensures this.now == now && jobs == map[] && flights == map[]
    {
      this.now := now;
      jobs := map[];
      flights := map[];
    }

    /** `kubectl get job`. */
    method GetJob(name: string, fate: ReadFate) returns (report: Report)
      ensures report == ReadJob(Lookup(jobs, name, Never), fate)
    {
      match fate {
        case ReadRaises => return ReadRaised;
        case ReadNoKubectl => return SaysUnavailable;
        case ReadNonzeroExit => return SaysAbsent;
        case ReadHonestly =>
          var job := Lookup(jobs, name, Never);
          if !job.Live? { return SaysAbsent; }
          if job.completed { return Saw(JobCompleted); }
          if job.failedPods > 0 { return Saw(JobFailed); }
          return Saw(JobRunning);
      }
    }

    /** `kubectl apply` sends its request. */
    method Send(name: string, request: nat, flight: Flight)
      modifies this`flights
      ensures flights == old(flights)[name := Lookup(old(flights), name, map[])[request := flight]]
    {
      flights := flights[name := Lookup(flights, name, map[])[request := flight]];
    }
  }

  /** The action is one of process `p`'s own. */
  predicate OwnAction(a: Action, p: nat) {
    match a
    case Spawn(q, _) => q == p
    case Move(q, _) => q == p
    case Crash(q) => q == p
    case _ => false
  }

  /** The environment's part of a script. */
  function Others(script: seq<Action>, p: nat): seq<Action> {
    if script == [] then []
    else
      var rest := Others(script[..|script| - 1], p);
      if OwnAction(script[|script| - 1], p) then rest else rest + [script[|script| - 1]]
  }

  predicate SameProcess(s: Slice, t: Slice, p: nat) {
    (p in t.procs <==> p in s.procs) && (p in s.procs ==> t.procs[p] == s.procs[p])
  }

  lemma WritersLeaveProcess(s: Slice, q: nat, o: Oracle, p: nat)
    requires q in s.procs && q != p
    requires s.procs[q].pc.Begin? || s.procs[q].pc.MarkReply? || s.procs[q].pc.RetrySettle? || s.procs[q].pc.RecSettle?
    ensures SameProcess(s, Advance(s, q, o), p)
  {
    match s.procs[q].pc {
      case Begin(task) => assert SameProcess(s, BeginStep(s, q, task, o.clock), p);
      case MarkReply(caller, reply) => assert SameProcess(s, MarkStep(s, q, caller, reply), p);
      case RetrySettle(report) => assert SameProcess(s, RetrySettleStep(s, q, report), p);
      case RecSettle(seen, report, honest) =>
        var noted := NoteCovered(s, s.procs[q].since, honest);
        assert SameProcess(noted, RecSettleStep(noted, q, seen, report, o), p);
    }
  }

  lemma MoversLeaveProcess(s: Slice, q: nat, o: Oracle, p: nat)
    requires q in s.procs && q != p
    requires var pc := s.procs[q].pc; !pc.Begin? && !pc.MarkReply? && !pc.RetrySettle? && !pc.RecSettle?
    ensures SameProcess(s, Advance(s, q, o), p)
  {
  }

  lemma OthersLeaveProcess(s: Slice, a: Action, p: nat)
    requires !OwnAction(a, p)
    ensures SameProcess(s, Next(s, a), p)
  {
    if a.Move? && a.p in s.procs {
      var pc := s.procs[a.p].pc;
      if pc.Begin? || pc.MarkReply? || pc.RetrySettle? || pc.RecSettle? {
        WritersLeaveProcess(s, a.p, a.oracle, p);
      } else {
        MoversLeaveProcess(s, a.p, a.oracle, p);
      }
    }
  }

  lemma {:induction false} OthersRun(s: Slice, script: seq<Action>, p: nat)
    ensures SameProcess(s, Run(s, Others(script, p)), p)
  {
    if script != [] {
      var n := |script| - 1;
      OthersRun(s, script[..n], p);
      if !OwnAction(script[n], p) {
        OthersLeaveProcess(Run(s, Others(script[..n], p)), script[n], p);
        RunMore(s, Others(script[..n], p), script[n]);
      }
    }
  }

  /** What no step takes back: a row, a rejected, completed or failed row as it is, a committed status. */
  predicate Kept(s: Slice, t: Slice) {
    && (s.row.Some? ==> t.row.Some?)
    && (s.row.Some? && Final(s.row.value.status) ==> t.row == s.row)
    && s.book.history <= t.book.history
  }

  /** What the environment leaves true, whatever it does. */
  lemma OthersOnlyAdd(origin: int, trace: seq<Action>, s: Slice, script: seq<Action>, p: nat)
    requires Reaches(origin, trace, s)
    ensures var t := Run(s, Others(script, p));
      && Reaches(origin, trace + Others(script, p), t)
      && s.log <= t.log && Kept(s, t) && SameProcess(s, t, p)
  {
    ReachesRun(origin, trace, s);
    OthersRun(s, script, p);
    RunSplit(Start(origin), trace, Others(script, p));
    ReachesRun(origin, trace + Others(script, p), Run(s, Others(script, p)));
    ReachedStatesAreSound(origin, trace, s);
    RunKeeps(s, Others(script, p));
  }

  lemma ReachesNext(origin: int, trace: seq<Action>, s: Slice, a: Action)
    requires Reaches(origin, trace, s)
    ensures Reaches(origin, trace + [a], Next(s, a)) && Kept(s, Next(s, a))
  {
    ReachesRun(origin, trace, s);
    ReachedStatesAreSound(origin, trace, s);
    NextKeeps(s, a);
    RunMore(Start(origin), trace, a);
    ReachesRun(origin, trace + [a], Next(s, a));
  }

  class Site {
    const id: string
    const store: ApprovalStore
    const audit: AuditStore
    const cluster: Cluster
    ghost const origin: int
    var slice: Slice
    ghost var trace: seq<Action>

    /** The shared objects hold `s` for this approval. */
    ghost predicate Holds(s: Slice)
      reads store, audit, cluster
    {
      && RowAt(store.rows, id) == s.row
      && EventsOf(audit.events, id) == s.log
      && Lookup(cluster.jobs, LookupName(id), Never) == s.job
      && Lookup(cluster.flights, LookupName(id), map[]) == s.flights
      && cluster.now == s.now
    }

    ghost predicate Valid()
      reads this, store, audit, cluster
    {
      && MatchesId(id)
      && store.Valid()
      && Reaches(origin, trace, slice)
      && Holds(slice)
    }

    constructor (id: string, store: ApprovalStore, audit: AuditStore, cluster: Cluster)
      requires MatchesId(id) && store.Valid() && id !in store.rows
      requires EventsOf(audit.events, id) == [] && LookupName(id) !in cluster.jobs && LookupName(id) !in cluster.flights
      ensures Valid() && this.id == id && this.store == store && this.audit == audit && this.cluster == cluster
      ensures trace == []
    {
      this.id, this.store, this.audit, this.cluster := id, store, audit, cluster;
      origin := cluster.now;
      slice := Start(cluster.now);
      trace := [];
      ReachesRun(cluster.now, [], Start(cluster.now));
    }

    /** Process `p` has taken one step, which the shared objects already show. */
    method Account(a: Action)
      requires MatchesId(id) && store.Valid() && Reaches(origin, trace, slice) && Holds(Next(slice, a))
      modifies this
      ensures Valid() && slice == Next(old(slice), a) && trace == old(trace) + [a]
      ensures Kept(old(slice), slice)
    {
      ReachesNext(origin, trace, slice, a);
      slice := Next(slice, a);
      trace := trace + [a];
    }

    /** One audit event about this approval. */
    method Append(e: Event)
      modifies audit
      ensures EventsOf(audit.events, id) == old(EventsOf(audit.events, id)) + [e]
    {
      ghost var before := audit.events;
      EventsOfMore(before, id, [e], id);
      assert Tagged(id, [e]) == [(id, e)];
      audit.Append(id, e);
    }

    /** Other processes write the row. */
    method WriteRow(row: Row)
      requires store.Valid()
      modifies store
      ensures store.Valid() && RowAt(store.rows, id) == Some(row)
    {
      if id !in store.rows {
        store.ids := store.ids + [id];
      }
      store.rows := store.rows[id := row];
    }

    /** Other processes append events about this approval. */
    method WriteEvents(news: seq<Event>)
      modifies audit
      ensures EventsOf(audit.events, id) == old(EventsOf(audit.events, id)) + news
    {
      EventsOfMore(audit.events, id, news, id);
      audit.events := audit.events + Tagged(id, news);
    }

    /** The cluster and the clock move on. */
    method MoveCluster(next: Slice)
      modifies cluster
      ensures Lookup(cluster.jobs, LookupName(id), Never) == next.job
      ensures Lookup(cluster.flights, LookupName(id), map[]) == next.flights && cluster.now == next.now
    {
      cluster.jobs := cluster.jobs[LookupName(id) := next.job];
      cluster.flights := cluster.flights[LookupName(id) := next.flights];
      cluster.now := next.now;
    }

    /** The shared objects move on to `next`. */
    method Overwrite(next: Slice)
      requires store.Valid() && Holds(slice) && slice.log <= next.log && (slice.row.Some? ==> next.row.Some?)
      modifies store, audit, cluster
      ensures store.Valid() && Holds(next)
    {
      var news := next.log[|slice.log|..];
      assert next.log == slice.log + news;
      if next.row.Some? {
        WriteRow(next.row.value);
      }
      WriteEvents(news);
      MoveCluster(next);
    }

    /** Whatever the other processes, the cluster and the clock do next. */
    method Interfere(script: seq<Action>, p: nat)
      requires Valid()
      modifies this, store, audit, cluster
      ensures Valid() && slice == Run(old(slice), Others(script, p)) && trace == old(trace) + Others(script, p)
      ensures SameProcess(old(slice), slice, p) && Kept(old(slice), slice)
    {
      var next := Run(slice, Others(script, p));
      OthersOnlyAdd(origin, trace, slice, script, p);
      Overwrite(next);
      slice := next;
      trace := trace + Others(script, p);
    }
  }
}
