/** The scoring consumer's poll loop, with its exception branches, against the offset protocol. */
module ScoringConsumers {
  import opened OffsetProtocol

  /** Where control goes after a call: on, into an exception handler, or nowhere. */
  datatype Flow = Goes | Throws(valueError: bool) | Killed

  class ScoringConsumer {
    var position: nat
    var committed: nat
    var rows: seq<nat>
    var sent: seq<nat>
    var restarts: nat
    var rejected: set<nat>
    var failed: set<nat>

    function Contents(): State
      reads this
    {
      State(position, committed, rows, sent, rejected, failed, restarts)
    }

    constructor ()
      ensures Contents() == START
    {
      position, committed, rows, sent, restarts := 0, 0, [], [], 0;
      rejected, failed := {}, {};
    }

    /** `score_application`: validate, score, and save one row. */
    method ScoreApplication(offset: nat, fate: Fate) returns (flow: Flow)
      modifies this`rows
      ensures rows == if Stores(fate) then old(rows) + [offset] else old(rows)
      ensures flow.Goes? <==> Produces(fate)
      ensures flow.Killed? <==>
                fate.death.DiesBeforeSave? || (fate.death.DiesAfterSave? && fate.read.Fine? && fate.save.SaveFine?)
      ensures flow == Throws(true) ==> fate.read.ValueErr? || (fate.read.Fine? && fate.save.SaveValueErr?)
      ensures flow == Throws(false) ==>
                fate.read.OtherErr? || (fate.read.Fine? && (fate.save.SaveOtherErr? || fate.save.StoredButRaises?))
    {
      if fate.death.DiesBeforeSave? {
        return Killed;
      }
      if !fate.read.Fine? {
        return Throws(fate.read.ValueErr?);
      }
      if fate.save.SaveFine? || fate.save.StoredButRaises? {
        rows := rows + [offset];
      }
      if !fate.save.SaveFine? {
        return Throws(fate.save.SaveValueErr?);
      }
      return if fate.death.DiesAfterSave? then Killed else Goes;
    }

    /** `consumer.commit(message, asynchronous=False)`. */
    method Commit(offset: nat, call: CommitCall) returns (flow: Flow)
      modifies this`committed
      ensures committed == if call.CommitRaises? then old(committed) else offset + 1
      ensures flow == if call.CommitFine? then Goes else Throws(false)
    {
      if !call.CommitRaises? {
        committed := offset + 1;
      }
      return if call.CommitFine? then Goes else Throws(false);
    }

    /** The `try` block of `process_message`. */
    method Attempt(offset: nat, fate: Fate) returns (flow: Flow)
      modifies this`rows, this`sent, this`committed
      ensures rows == if Stores(fate) then old(rows) + [offset] else old(rows)
      ensures sent == if Sends(fate) then old(sent) + [offset] else old(sent)
      ensures committed ==
        if Sends(fate) && !fate.death.DiesAfterSend? && !fate.commit.CommitRaises? then offset + 1 else old(committed)
      ensures flow == Throws(true) <==> Rejects(fate)
      ensures flow == Throws(false) <==> Fails(fate)
      ensures flow.Killed? <==> Exits(fate) && !Rejects(fate)
    {
      flow := ScoreApplication(offset, fate);
      if !flow.Goes? {
        return;
      }
      if !fate.produce.Fine? {
        return Throws(fate.produce.ValueErr?);
      }
      sent := sent + [offset];
      if fate.death.DiesAfterSend? {
        return Killed;
      }
      flow := Commit(offset, fate.commit);
      if flow.Goes? && fate.death.DiesAfterCommit? {
        return Killed;
      }
    }

    /** `process_message`: invalid messages are committed, other errors are not. */
    method ProcessMessage(offset: nat, fate: Fate) returns (alive: bool)
      modifies this`rows, this`sent, this`committed, this`rejected, this`failed
      ensures rows == if Stores(fate) then old(rows) + [offset] else old(rows)
      ensures sent == if Sends(fate) then old(sent) + [offset] else old(sent)
      ensures committed == if Commits(fate) then offset + 1 else old(committed)
      ensures rejected == if Rejects(fate) then old(rejected) + {offset} else old(rejected)
      ensures failed == if Fails(fate) then old(failed) + {offset} else old(failed)
      ensures alive <==> !Exits(fate)
    {
      var flow := Attempt(offset, fate);
      match flow {
        case Goes => return true;
        case Killed => return false;
        case Throws(valueError) =>
          if valueError {
            rejected := rejected + {offset};
            var marked := Commit(offset, fate.commit);
            return marked.Goes? && !fate.death.DiesAfterCommit?;
          }
          failed := failed + {offset};
          return true;
      }
    }

    /** A new process takes over where the last commit left off. */
    method Restart()
      modifies this`position, this`restarts
      ensures Contents() == Restarted(old(Contents()))
    {
      position, restarts := committed, restarts + 1;
    }

    /** One turn of the loop in `main`, and a restart if the process ends in it. */
    method Turn(e: Event)
      modifies this
      ensures Contents() == Next(old(Contents()), e)
    {
      match e {
        case PollsNothing =>
        case Restarts => Restart();
        case Delivers(fate) =>
          var offset := position;
          position := position + 1;
          var alive := ProcessMessage(offset, fate);
          if !alive {
            Restart();
          }
      }
    }

    /** The loop of `main`, over any number of processes. */
    method Consume(events: seq<Event>)
      modifies this
      ensures Contents() == Run(old(Contents()), events)
    {
      var n := 0;
      while n < |events|
        invariant 0 <= n <= |events|
        invariant Contents() == Run(old(Contents()), events[..n])
      {
        Turn(events[n]);
        RunMore(old(Contents()), events[..n], events[n]);
        assert events[..n + 1] == events[..n] + [events[n]];
        n := n + 1;
      }
      assert events[..n] == events;
    }
  }
}
