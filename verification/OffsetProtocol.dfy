/** The offsets of one Kafka partition under the scoring consumer: save, produce, then commit.

An `Event` says what each library call does while one message is processed, and where the process dies
if it does. Offsets are natural numbers, so the log is never exhausted. */
module OffsetProtocol {

  /** How a call ends: normally, with a ValueError (decoding, JSON and validation errors are such), or
      with any other exception. */
  datatype Call = Fine | ValueErr | OtherErr

  /** `StoredButRaises` and `TookButRaises`: the effect happened and the answer was lost. */
  datatype SaveCall = SaveFine | SaveValueErr | SaveOtherErr | StoredButRaises
  datatype CommitCall = CommitFine | CommitRaises | TookButRaises

  datatype Death = Survives | DiesBeforeSave | DiesAfterSave | DiesAfterSend | DiesAfterCommit

  /** `read` is everything up to the save: decoding, validation and the model. */
  datatype Fate = Fate(read: Call, save: SaveCall, produce: Call, commit: CommitCall, death: Death)

  datatype Event = PollsNothing | Delivers(fate: Fate) | Restarts

  /** `rows` and `sent` list the offsets of the saved rows and of the produced results in order. The sets
      and `restarts` are bookkeeping: offsets committed as invalid, and offsets that hit the branch
      without a commit. */
  datatype State = State(
    position: nat,
    committed: nat,
    rows: seq<nat>,
    sent: seq<nat>,
    rejected: set<nat>,
    failed: set<nat>,
    restarts: nat)

  const START := State(0, 0, [], [], {}, {}, 0)

  /** The consumer resumes at the committed offset. */
  function Restarted(s: State): State {
    s.(position := s.committed, restarts := s.restarts + 1)
  }

  /** A row for the message is stored. */
  predicate Stores(fate: Fate) {
    fate.read.Fine? && fate.death != DiesBeforeSave && (fate.save.SaveFine? || fate.save.StoredButRaises?)
  }

  /** The save is over and the process goes on to produce. */
  predicate Produces(fate: Fate) {
    fate.read.Fine? && fate.save.SaveFine? && !fate.death.DiesBeforeSave? && !fate.death.DiesAfterSave?
  }

  /** The result is handed to the producer. */
  predicate Sends(fate: Fate) {
    Produces(fate) && fate.produce.Fine?
  }

  /** The process raises a ValueError, which the code takes for an invalid message. */
  predicate Rejects(fate: Fate) {
    && !fate.death.DiesBeforeSave?
    && (|| fate.read.ValueErr?
        || (fate.read.Fine? && fate.save.SaveValueErr?)
        || (Produces(fate) && fate.produce.ValueErr?))
  }

  /** The message gets as far as a commit, as scored or as invalid. */
  predicate ReachesCommit(fate: Fate) {
    Rejects(fate) || (Sends(fate) && !fate.death.DiesAfterSend?)
  }

  predicate Commits(fate: Fate) {
    ReachesCommit(fate) && !fate.commit.CommitRaises?
  }

  /** The branch that logs the error and commits nothing. */
  predicate Fails(fate: Fate) {
    && !fate.death.DiesBeforeSave?
    && (|| fate.read.OtherErr?
        || (fate.read.Fine? && (fate.save.SaveOtherErr? || fate.save.StoredButRaises?))
        || (Produces(fate) && fate.produce.OtherErr?)
        || (Sends(fate) && !fate.death.DiesAfterSend? && !fate.commit.CommitFine?))
  }

  /** The process ends: it is killed, or the commit of an invalid message raises out of its handler. */
  predicate Exits(fate: Fate) {
    || fate.death.DiesBeforeSave?
    || (fate.death.DiesAfterSave? && fate.read.Fine? && fate.save.SaveFine?)
    || (fate.death.DiesAfterSend? && Sends(fate))
    || (Rejects(fate) && !fate.commit.CommitFine?)
    || (fate.death.DiesAfterCommit? && ReachesCommit(fate) && fate.commit.CommitFine?)
  }

  function Delivered(s: State, fate: Fate): State {
    var o := s.position;
    var t := State(
      o + 1,
      if Commits(fate) then o + 1 else s.committed,
      if Stores(fate) then s.rows + [o] else s.rows,
      if Sends(fate) then s.sent + [o] else s.sent,
      if Rejects(fate) then s.rejected + {o} else s.rejected,
      if Fails(fate) then s.failed + {o} else s.failed,
      s.restarts);
    if Exits(fate) then Restarted(t) else t
  }

  function Next(s: State, e: Event): State {
    match e
    case PollsNothing => s
    case Delivers(fate) => Delivered(s, fate)
    case Restarts => Restarted(s)
  }

  function Run(s: State, events: seq<Event>): State {
    if events == [] then s else Next(Run(s, events[..|events| - 1]), events[|events| - 1])
  }

  lemma {:induction false} RunSplit(s: State, a: seq<Event>, b: seq<Event>)
    ensures Run(s, a + b) == Run(Run(s, a), b)
  {
    if b == [] {
      assert a + b == a;
    } else {
      RunSplit(s, a, b[..|b| - 1]);
      assert (a + b)[..|a + b| - 1] == a + b[..|b| - 1];
    }
  }

  // ----- Safety -----

  function Count(rows: seq<nat>, o: nat): nat {
    multiset(rows)[o]
  }

  predicate Accounted(s: State, o: nat) {
    o in s.rows || o in s.rejected || o in s.failed
  }

  ghost predicate Inv(s: State) {
    && s.committed <= s.position
    && (forall o: nat :: o < s.position ==> Accounted(s, o))
    && (forall o: nat :: Count(s.rows, o) <= s.restarts + if o < s.position then 1 else 0)
  }

  lemma DeliveredAccounts(s: State, fate: Fate, x: nat)
    requires s.committed <= s.position && x < Delivered(s, fate).position
    requires x < s.position ==> Accounted(s, x)
    ensures Accounted(Delivered(s, fate), x)
  {
    if x == s.position {
      assert Commits(fate) || !Exits(fate);
      assert Stores(fate) || Rejects(fate) || Fails(fate);
    }
  }

  lemma DeliveredCounts(s: State, fate: Fate, x: nat)
    ensures Count(Delivered(s, fate).rows, x) == Count(s.rows, x) + if Stores(fate) && x == s.position then 1 else 0
  {
    assert multiset(s.rows + [s.position]) == multiset(s.rows) + multiset{s.position};
  }

  lemma NextKeeps(s: State, e: Event)
    requires Inv(s)
    ensures Inv(Next(s, e)) && s.committed <= Next(s, e).committed
  {
    var t := Next(s, e);
    forall x: nat | x < t.position ensures Accounted(t, x) {
      assert x < s.position ==> Accounted(s, x);
      if e.Delivers? {
        DeliveredAccounts(s, e.fate, x);
      }
    }
    forall x: nat ensures Count(t.rows, x) <= t.restarts + if x < t.position then 1 else 0 {
      assert Count(s.rows, x) <= s.restarts + if x < s.position then 1 else 0;
      if e.Delivers? {
        DeliveredCounts(s, e.fate, x);
      }
    }
  }

  lemma {:induction false} RunKeeps(s: State, events: seq<Event>)
    requires Inv(s)
    ensures Inv(Run(s, events)) && s.committed <= Run(s, events).committed
  {
    if events != [] {
      RunKeeps(s, events[..|events| - 1]);
      NextKeeps(Run(s, events[..|events| - 1]), events[|events| - 1]);
    }
  }

  /** The committed offset never decreases, and below it every message was saved, committed as invalid,
      or hit the branch without a commit and was overtaken. */
  lemma CommittedIsAccountedFor(events: seq<Event>, more: seq<Event>, o: nat)
    ensures Run(START, events).committed <= Run(START, events + more).committed
    ensures o < Run(START, events).committed ==> Accounted(Run(START, events), o)
  {
    RunKeeps(START, events);
    RunSplit(START, events, more);
    RunKeeps(Run(START, events), more);
  }

  /** At least once and at most once per process: a committed message that was neither taken for invalid
      nor failed has between one row and one row per process. */
  lemma RowsPerMessage(events: seq<Event>, o: nat)
    ensures var s := Run(START, events);
      && Count(s.rows, o) <= 1 + s.restarts
      && (o < s.committed && o !in s.rejected && o !in s.failed ==> Count(s.rows, o) >= 1)
  {
    RunKeeps(START, events);
    var s := Run(START, events);
    assert Accounted(s, o) || o >= s.position;
    assert o in s.rows ==> o in multiset(s.rows);
  }

  /** A fate without passing failures, for a valid or an invalid message; the process may still die. */
  predicate Suits(valid: bool, fate: Fate) {
    && fate.commit.CommitFine?
    && if valid then fate.read.Fine? && fate.save.SaveFine? && fate.produce.Fine? else fate.read.ValueErr?
  }

  /** No delivery of the run meets a passing failure. */
  ghost predicate Steady(valid: nat -> bool, events: seq<Event>) {
    forall i :: 0 <= i < |events| && events[i].Delivers? ==>
                  Suits(valid(Run(START, events[..i]).position), events[i].fate)
  }

  lemma {:induction false} SteadyRuns(valid: nat -> bool, events: seq<Event>)
    requires Steady(valid, events)
    ensures var s := Run(START, events);
      s.failed == {} && (forall o :: o in s.rejected ==> !valid(o)) && (forall o :: o in s.rows ==> valid(o))
  {
    if events != [] {
      var n := |events| - 1;
      forall i | 0 <= i < n && events[..n][i].Delivers?
        ensures Suits(valid(Run(START, events[..n][..i]).position), events[..n][i].fate)
      {
        assert events[..n][..i] == events[..i] && events[i].Delivers?;
      }
      SteadyRuns(valid, events[..n]);
      assert events[n].Delivers? ==> Suits(valid(Run(START, events[..n]).position), events[n].fate);
    }
  }

  /** Without passing failures, and whatever processes die where: every valid message behind the committed
      offset has between one row and one row per process, and no invalid message has any. */
  lemma ScoredAtLeastOnce(valid: nat -> bool, events: seq<Event>, o: nat)
    requires Steady(valid, events)
    ensures var s := Run(START, events);
      if valid(o) then o < s.committed ==> 1 <= Count(s.rows, o) <= 1 + s.restarts
      else Count(s.rows, o) == 0
  {
    SteadyRuns(valid, events);
    RowsPerMessage(events, o);
    assert o in Run(START, events).rows <==> o in multiset(Run(START, events).rows);
  }

  // ----- What the branch without a commit loses -----

  predicate CommitsFrom(s: State, e: Event, o: nat) {
    e.Delivers? && Commits(e.fate) && s.position >= o
  }

  lemma CommitPasses(s: State, e: Event, o: nat)
    requires Inv(s)
    ensures Next(s, e).committed <= o <==> s.committed <= o && !CommitsFrom(s, e, o)
  {
  }

  lemma RunMore(s: State, events: seq<Event>, e: Event)
    ensures Run(s, events + [e]) == Next(Run(s, events), e)
  {
    assert (events + [e])[..|events|] == events;
  }

  /** No message at or behind `o` is committed during `more`, which follows `events`. */
  ghost predicate NoneCommittedFrom(events: seq<Event>, more: seq<Event>, o: nat) {
    forall i :: 0 <= i < |more| ==> !CommitsFrom(Run(START, events + more[..i]), more[i], o)
  }

  lemma NoneCommittedMore(events: seq<Event>, more: seq<Event>, e: Event, o: nat)
    ensures NoneCommittedFrom(events, more + [e], o) <==>
            NoneCommittedFrom(events, more, o) && !CommitsFrom(Run(START, events + more), e, o)
  {
    var all := more + [e];
    assert all[..|more|] == more && all[|more|] == e;
    forall i | 0 <= i < |more| ensures all[..i] == more[..i] && all[i] == more[i] {
    }
  }

  /** A message not yet committed is fetched again after a restart exactly when no message at or behind
      it has been committed in between. */
  lemma {:induction false} FetchedAgainExactlyWhen(events: seq<Event>, more: seq<Event>, o: nat)
    requires Run(START, events).committed <= o
    ensures Restarted(Run(START, events + more)).position <= o <==> NoneCommittedFrom(events, more, o)
    decreases |more|
  {
    if more == [] {
      assert events + more == events;
    } else {
      var n := |more| - 1;
      FetchedAgainExactlyWhen(events, more[..n], o);
      RunKeeps(START, events + more[..n]);
      CommitPasses(Run(START, events + more[..n]), more[n], o);
      assert events + more == events + more[..n] + [more[n]];
      RunMore(START, events + more[..n], more[n]);
      NoneCommittedMore(events, more[..n], more[n], o);
      assert more == more[..n] + [more[n]];
    }
  }

  lemma NextLeavesOld(s: State, e: Event, o: nat)
    requires Inv(s) && o < s.committed
    ensures o < Next(s, e).committed && (o in Next(s, e).rows <==> o in s.rows)
  {
    NextKeeps(s, e);
  }

  lemma {:induction false} RunLeavesOld(s: State, events: seq<Event>, o: nat)
    requires Inv(s) && o < s.committed
    ensures Inv(Run(s, events)) && o < Run(s, events).committed && (o in Run(s, events).rows <==> o in s.rows)
  {
    RunKeeps(s, events);
    if events != [] {
      RunLeavesOld(s, events[..|events| - 1], o);
      NextLeavesOld(Run(s, events[..|events| - 1]), events[|events| - 1], o);
    }
  }

  const SUCCESS := Delivers(Fate(Fine, SaveFine, Fine, CommitFine, Survives))

  function Successes(n: nat): seq<Event> {
    seq(n, i => SUCCESS)
  }

  lemma {:induction false} SuccessesSave(s: State, n: nat)
    ensures var t := Run(s, Successes(n));
      t.position == s.position + n && (forall o :: s.position <= o < s.position + n ==> o in t.rows)
  {
    if n > 0 {
      SuccessesSave(s, n - 1);
      assert Successes(n)[..n - 1] == Successes(n - 1);
      var t := Run(s, Successes(n - 1));
      assert Run(s, Successes(n)) == Next(t, SUCCESS);
    }
  }

  /** Some continuation of the run gives the message a row. */
  ghost predicate MayBeScored(s: State, o: nat) {
    exists more :: o in Run(s, more).rows
  }

  /** A message is lost for good exactly when it has no row and the committed offset is past it. */
  lemma LostExactlyWhen(events: seq<Event>, o: nat)
    ensures var s := Run(START, events);
      !MayBeScored(s, o) <==> o < s.committed && o !in s.rows
  {
    var s := Run(START, events);
    RunKeeps(START, events);
    if o < s.committed && o !in s.rows {
      forall more ensures o !in Run(s, more).rows {
        RunLeavesOld(s, more, o);
      }
    } else if o in s.rows {
      assert o in Run(s, []).rows;
    } else {
      var again := [Restarts];
      var n := o - s.committed + 1;
      assert Run(s, again) == Restarted(s) by { assert again[..0] == []; }
      SuccessesSave(Restarted(s), n);
      RunSplit(s, again, Successes(n));
      assert o in Run(s, again + Successes(n)).rows;
    }
  }

  /** The code's comment promises that a message which failed for a passing reason can be processed
      again after a restart. One later commit is enough to break that. */
  lemma FailedMessageIsOvertaken()
    ensures var outage := Delivers(Fate(Fine, SaveOtherErr, Fine, CommitFine, Survives));
      var s := Run(START, [outage, SUCCESS, Restarts]);
      0 in s.failed && 0 !in s.rows && s.position == 2 && !MayBeScored(s, 0)
  {
    var outage := Delivers(Fate(Fine, SaveOtherErr, Fine, CommitFine, Survives));
    var all := [outage, SUCCESS, Restarts];
    assert all[..2] == [outage, SUCCESS];
    assert [outage, SUCCESS][..1] == [outage];
    assert [outage][..0] == [];
    assert Run(START, [outage]) == Next(START, outage);
    assert Run(START, [outage, SUCCESS]) == Next(Next(START, outage), SUCCESS);
    assert Run(START, all) == Next(Next(Next(START, outage), SUCCESS), Restarts);
    LostExactlyWhen(all, 0);
  }
}
