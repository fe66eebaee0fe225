/** The whole control plane: many approvals, one cluster, one audit log and one clock.

Approvals share the cluster, where Jobs are kept by name. Projecting a run of the control plane onto
one approval gives a run of that approval's own protocol, because names are injective in ids; so
every result about one approval holds of each approval here. */
module ControlPlane {
  import opened Wrappers
  import opened ApprovalRows
  import opened ApprovalProtocol
  import opened ProtocolSafety
  import opened RunTheorems
  import opened JobNames

  /** Rows, processes and bookkeeping are kept by approval id; Jobs and apply requests by Job name. */
  datatype Plane = Plane(
    origin: int,
    now: int,
    rows: map<string, Row>,
    jobs: map<string, JobSlot>,
    flights: map<string, map<nat, Flight>>,
    procs: map<string, map<nat, Proc>>,
    log: seq<(string, Event)>,
    books: map<string, Book>)

  /** Time passes for everyone; any other step concerns one approval. */
  datatype PlaneAction = Pass(dt: nat) | For(id: string, action: Action)

  function Blank(now: int): Plane {
    Plane(now, now, map[], map[], map[], map[], [], map[])
  }

  function Lookup<T>(m: map<string, T>, key: string, default: T): T {
    if key in m then m[key] else default
  }

  function EventsOf(log: seq<(string, Event)>, id: string): seq<Event> {
    if log == [] then []
    else
      var last := log[|log| - 1];
      EventsOf(log[..|log| - 1], id) + (if last.0 == id then [last.1] else [])
  }

  function Tagged(id: string, events: seq<Event>): (r: seq<(string, Event)>)
    ensures |r| == |events|
    ensures forall i :: 0 <= i < |r| ==> r[i] == (id, events[i])
  {
    seq(|events|, i requires 0 <= i < |events| => (id, events[i]))
  }

  /** What one approval sees of the plane. For the ids that have steps here, the name that
      reconciliation looks up is the name that apply renders (`JobNames.NamesCohere`). */
  function View(g: Plane, id: string): Slice {
    var name := LookupName(id);
    Slice(g.now,
          if id in g.rows then Some(g.rows[id]) else None,
          Lookup(g.jobs, name, Never),
          Lookup(g.flights, name, map[]),
          Lookup(g.procs, id, map[]),
          EventsOf(g.log, id),
          Lookup(g.books, id, Start(g.origin).book))
  }

  /** The plane after one approval's state has become `s`. */
  function Put(g: Plane, id: string, s: Slice): Plane {
    var name := LookupName(id);
    var before := |View(g, id).log|;
    g.(rows := if s.row.Some? then g.rows[id := s.row.value] else g.rows,
       jobs := g.jobs[name := s.job],
       flights := g.flights[name := s.flights],
       procs := g.procs[id := s.procs],
       log := g.log + Tagged(id, if before <= |s.log| then s.log[before..] else []),
       books := g.books[id := s.book])
  }

  /** A step concerns an id that the API could have drawn, and does not move the clock. */
  predicate Proper(id: string, action: Action) {
    MatchesId(id) && !action.Tick?
  }

  function PlaneNext(g: Plane, a: PlaneAction): Plane {
    match a
    case Pass(dt) => g.(now := g.now + dt)
    case For(id, action) =>
      if Proper(id, action) then Put(g, id, Next(View(g, id), action)) else g
  }

  function PlaneRun(g: Plane, actions: seq<PlaneAction>): Plane {
    if actions == [] then g
    else PlaneNext(PlaneRun(g, actions[..|actions| - 1]), actions[|actions| - 1])
  }

  /** The actions of a run that one approval notices. */
  function Project(actions: seq<PlaneAction>, id: string): seq<Action> {
    if actions == [] then []
    else
      var rest := Project(actions[..|actions| - 1], id);
      match actions[|actions| - 1]
      case Pass(dt) => rest + [Tick(dt)]
      case For(x, action) => if x == id && Proper(x, action) then rest + [action] else rest
  }

  lemma {:induction false} EventsOfMore(log: seq<(string, Event)>, id: string, events: seq<Event>, y: string)
    ensures EventsOf(log + Tagged(id, events), y) == EventsOf(log, y) + (if y == id then events else [])
  {
    if events == [] {
      assert log + Tagged(id, events) == log;
    } else {
      var n := |events| - 1;
      var longer := log + Tagged(id, events);
      assert longer[..|longer| - 1] == log + Tagged(id, events[..n]);
      EventsOfMore(log, id, events[..n], y);
      assert events == events[..n] + [events[n]];
    }
  }

  /** What an approval's step leaves of the plane for itself. */
  lemma ViewOfPut(g: Plane, id: string, s: Slice)
    requires s.now == g.now && View(g, id).log <= s.log && (id in g.rows ==> s.row.Some?)
    ensures View(Put(g, id, s), id) == s
  {
    var before := |View(g, id).log|;
    EventsOfMore(g.log, id, s.log[before..], id);
    assert s.log == View(g, id).log + s.log[before..];
  }

  /** And for any other approval: nothing has happened. */
  lemma ViewOfOthers(g: Plane, id: string, s: Slice, y: string)
    requires MatchesId(id) && MatchesId(y) && y != id
    ensures View(Put(g, id, s), y) == View(g, y)
  {
    LookupsDiffer(id, y);
    var before := |View(g, id).log|;
    var more := if before <= |s.log| then s.log[before..] else [];
    EventsOfMore(g.log, id, more, y);
    var h := Put(g, id, s);
    assert EventsOf(h.log, y) == EventsOf(g.log, y);
  }

  /** One action, as one approval sees it. */
  function Seen(s: Slice, id: string, a: PlaneAction): Slice {
    match a
    case Pass(dt) => Next(s, Tick(dt))
    case For(x, action) => if x == id && Proper(x, action) then Next(s, action) else s
  }

  lemma OnlyTicksTakeTime(s: Slice, a: Action)
    requires !a.Tick?
    ensures Next(s, a).now == s.now
  {
  }

  lemma OwnStepView(g: Plane, id: string, action: Action)
    requires Inv(View(g, id)) && Proper(id, action)
    ensures View(PlaneNext(g, For(id, action)), id) == Next(View(g, id), action)
  {
    var s := View(g, id);
    NextKeeps(s, action);
    OnlyTicksTakeTime(s, action);
    ViewOfPut(g, id, Next(s, action));
  }

  lemma OtherStepView(g: Plane, x: string, action: Action, id: string)
    requires MatchesId(id) && x != id
    ensures View(PlaneNext(g, For(x, action)), id) == View(g, id)
  {
    if Proper(x, action) {
      ViewOfOthers(g, x, Next(View(g, x), action), id);
    }
  }

  lemma StepView(g: Plane, a: PlaneAction, id: string)
    requires MatchesId(id) && Inv(View(g, id))
    ensures View(PlaneNext(g, a), id) == Seen(View(g, id), id, a)
  {
    if a.For? {
      if a.id != id {
        OtherStepView(g, a.id, a.action, id);
      } else if Proper(id, a.action) {
        OwnStepView(g, id, a.action);
      }
    }
  }

  lemma RunMore(s: Slice, actions: seq<Action>, a: Action)
    ensures Run(s, actions + [a]) == Next(Run(s, actions), a)
  {
    assert (actions + [a])[..|actions|] == actions;
  }

  /** One approval of the plane is, by itself, the protocol of one approval. */
  lemma {:induction false} Projection(now: int, actions: seq<PlaneAction>, id: string)
    requires MatchesId(id)
    ensures View(PlaneRun(Blank(now), actions), id) == Run(Start(now), Project(actions, id))
  {
    if actions != [] {
      var n := |actions| - 1;
      Projection(now, actions[..n], id);
      ReachableInv(now, Project(actions[..n], id));
      StepView(PlaneRun(Blank(now), actions[..n]), actions[n], id);
      match actions[n] {
        case Pass(dt) => RunMore(Start(now), Project(actions[..n], id), Tick(dt));
        case For(x, action) => RunMore(Start(now), Project(actions[..n], id), action);
      }
    }
  }
}
