/** `ToolCallingAgent.run` as nested loops over arbitrary replies. */
module ToolAgents {
  import opened Wrappers
  import opened ToolRegistries
  import opened ToolCalling

  datatype AgentError = BadMaxRounds

  /** What a call comes to, given what its arguments parse to and how the registry answers. */
  predicate Honest(tools: map<string, Tool>, parse: string -> Parsed, entry: Entry) {
    match parse(if entry.call.arguments == "" then "{}" else entry.call.arguments)
    case Malformed(detail) => entry == BadJson(entry.call, detail)
    case ParserRaises => entry == Unparsed(entry.call)
    case Parses(arguments) =>
      && entry.Executed? && entry.arguments == arguments
      && (!(entry.call.name in tools && arguments.Mapping?) ==> entry.end.Threw? && entry.end.expected)
      && (entry.call.name in tools && tools[entry.call.name].gated && arguments.Mapping? ==>
            entry.end == Got(Refusal(entry.call.name)))
  }

  /** A ledger in which only the last result could not be judged. */
  predicate BrokeOff(ledger: seq<Entry>) {
    ledger != [] && AllJudged(ledger[..|ledger| - 1]) && Judged(ResultOf(ledger[|ledger| - 1])).None?
  }

  /** The tool events of a run that worked through `ledger`. */
  function ToolEvents(ledger: seq<Entry>, raised: bool): seq<Event> {
    if raised && ledger != [] then Pairs(ledger[..|ledger| - 1]) + [ToolCalled(ledger[|ledger| - 1].call.name)]
    else Pairs(ledger)
  }

  ghost predicate HeardAt(task: string, shown: seq<seq<Message>>, i: int) {
    0 <= i < |shown| ==> Transcript(shown[i], task) && ToolRounds(shown[i]) == i
  }

  /** Message lists as the LLM is shown them: each is a transcript, one tool round longer than the one
      before. */
  ghost predicate Heard(task: string, shown: seq<seq<Message>>) {
    forall i :: HeardAt(task, shown, i)
  }

  lemma TalkStarts(task: string)
    ensures Heard(task, [[System, User(task)]]) && CallsIn([System, User(task)]) == CallsOf([])
  {
    NoCallsIn([System, User(task)]);
    assert [System, User(task)][2..] == [];
  }

  lemma HeardOnceMore(task: string, shown: seq<seq<Message>>, next: seq<Message>)
    requires Heard(task, shown) && Transcript(next, task) && ToolRounds(next) == |shown|
    ensures Heard(task, shown + [next])
  {
    forall i ensures HeardAt(task, shown + [next], i) {
      assert HeardAt(task, shown, i);
    }
  }

  lemma LastHeard(task: string, asked: seq<seq<Message>>, messages: seq<Message>)
    requires Heard(task, asked + [messages])
    ensures Transcript(messages, task) && ToolRounds(messages) == |asked|
  {
    assert HeardAt(task, asked + [messages], |asked|);
  }

  lemma CallsAreWorked(calls: seq<ToolCall>, entries: seq<Entry>)
    requires CallsOf(entries) == calls
    ensures Worked(calls, entries)
  {
  }

  lemma CallsOfJoin(a: seq<Entry>, b: seq<Entry>)
    ensures CallsOf(a + b) == CallsOf(a) + CallsOf(b)
  {
  }

  lemma TalkGrows(task: string, asked: seq<seq<Message>>, messages: seq<Message>, ledger: seq<Entry>, content: string,
                  calls: seq<ToolCall>, entries: seq<Entry>)
    requires Heard(task, asked + [messages]) && CallsIn(messages) == CallsOf(ledger)
    requires calls != [] && CallsOf(entries) == calls
    ensures var next := messages + [Assistant(content, calls)] + Answers(entries);
      Heard(task, asked + [messages] + [next]) && CallsIn(next) == CallsOf(ledger + entries)
  {
    var shown := asked + [messages];
    var next := messages + [Assistant(content, calls)] + Answers(entries);
    LastHeard(task, asked, messages);
    CallsAreWorked(calls, entries);
    TranscriptGrows(messages, task, content, calls, entries);
    CallsOfJoin(ledger, entries);
    HeardOnceMore(task, shown, next);
  }

  /** The last list shown is a transcript with two messages, one per tool round and one per call. */
  lemma TalkFacts(task: string, shown: seq<seq<Message>>, ledger: seq<Entry>)
    requires Heard(task, shown) && shown != [] && CallsIn(shown[|shown| - 1]) == CallsOf(ledger)
    ensures var messages := shown[|shown| - 1];
      Transcript(messages, task) && |messages| == 2 + (|shown| - 1) + |ledger|
  {
    assert HeardAt(task, shown, |shown| - 1);
    TranscriptLength(shown[|shown| - 1], task);
  }

  ghost predicate AllHonest(tools: map<string, Tool>, parse: string -> Parsed, ledger: seq<Entry>) {
    forall entry :: entry in ledger ==> Honest(tools, parse, entry)
  }

  /** What a ledger of judged results has made of the agent's lists and of the registry's record. */
  ghost predicate Booked(tools: map<string, Tool>, parse: string -> Parsed, ledger: seq<Entry>,
                           used: seq<string>, invoked: seq<Invocation>, pairs: seq<Event>) {
    && AllHonest(tools, parse, ledger) && AllJudged(ledger)
    && used == NamesUsed(ledger) && invoked == Invocations(tools, ledger) && pairs == Pairs(ledger)
  }

  lemma BookedJoin(tools: map<string, Tool>, parse: string -> Parsed,
                   a: seq<Entry>, usedA: seq<string>, invokedA: seq<Invocation>, pairsA: seq<Event>,
                   b: seq<Entry>, usedB: seq<string>, invokedB: seq<Invocation>, pairsB: seq<Event>)
    requires Booked(tools, parse, a, usedA, invokedA, pairsA) && Booked(tools, parse, b, usedB, invokedB, pairsB)
    ensures Booked(tools, parse, a + b, usedA + usedB, invokedA + invokedB, pairsA + pairsB)
  {
    LedgerJoin(tools, a, b);
  }

  /** A ledger that breaks off, and what it leaves behind. */
  ghost predicate Broken(tools: map<string, Tool>, parse: string -> Parsed, ledger: seq<Entry>,
                           invoked: seq<Invocation>, events: seq<Event>) {
    && AllHonest(tools, parse, ledger) && BrokeOff(ledger)
    && invoked == Invocations(tools, ledger) && events == ToolEvents(ledger, true)
  }

  lemma BrokeOffJoin(a: seq<Entry>, b: seq<Entry>)
    requires AllJudged(a) && BrokeOff(b)
    ensures BrokeOff(a + b)
  {
    FrontOf(a, b);
    var front, rest := a + b[..|b| - 1], b[..|b| - 1];
    forall i | 0 <= i < |front| ensures Judged(ResultOf(front[i])).Some? {
      assert front[i] == if i < |a| then a[i] else rest[i - |a|];
    }
  }

  lemma BrokenJoin(tools: map<string, Tool>, parse: string -> Parsed,
                   a: seq<Entry>, used: seq<string>, invokedA: seq<Invocation>, pairs: seq<Event>,
                   b: seq<Entry>, invokedB: seq<Invocation>, events: seq<Event>)
    requires Booked(tools, parse, a, used, invokedA, pairs) && Broken(tools, parse, b, invokedB, events)
    ensures Broken(tools, parse, a + b, invokedA + invokedB, pairs + events)
  {
    BrokeOffJoin(a, b);
    LedgerJoin(tools, a, b);
    LedgerJoin(tools, a, b[..|b| - 1]);
    FrontOf(a, b);
  }

  lemma NothingBooked(tools: map<string, Tool>, parse: string -> Parsed)
    ensures Booked(tools, parse, [], [], [], [])
  {
  }

  /** The ledger covers the first calls, in order, and the answers are its answers. */
  ghost predicate InStep(calls: seq<ToolCall>, ledger: seq<Entry>, answers: seq<Message>) {
    |ledger| <= |calls| && CallsOf(ledger) == calls[..|ledger|] && answers == Answers(ledger)
  }

  lemma OneCall(calls: seq<ToolCall>, ledger: seq<Entry>, answers: seq<Message>, entry: Entry)
    requires |ledger| < |calls| && InStep(calls, ledger, answers) && entry.call == calls[|ledger|]
    ensures InStep(calls, ledger + [entry], answers + [ToolMessage(entry.call.id, ResultOf(entry))])
  {
  }

  lemma InStepFacts(calls: seq<ToolCall>, ledger: seq<Entry>, answers: seq<Message>)
    requires InStep(calls, ledger, answers)
    ensures |ledger| <= |calls| && CallsOf(ledger) == calls[..|ledger|] && answers == Answers(ledger)
  {
  }

  /** How a conversation ended: what the LLM was shown, the calls worked through, and what it leaves in
      the registry and the trace. */
  ghost predicate Ended(tools: map<string, Tool>, parse: string -> Parsed, task: string, maxRounds: int,
                        r: Ending, messages: seq<Message>, asked: seq<seq<Message>>, ledger: seq<Entry>,
                        invoked: seq<Invocation>, events: seq<Event>) {
    && |asked| <= maxRounds && Heard(task, asked)
    && AllHonest(tools, parse, ledger)
    && (r.Completed? || r.ProviderRaised? ==> asked != [] && messages == asked[|asked| - 1])
    && (r.Exhausted? ==> |asked| == maxRounds && Heard(task, asked + [messages]))
    && (r.Completed? || r.ProviderRaised? || r.Exhausted? ==> CallsIn(messages) == CallsOf(ledger))
    && (r.Completed? || r.Exhausted? ==> r.used == NamesUsed(ledger))
    && invoked == Invocations(tools, ledger)
    && (if r.ResultRaised? then BrokeOff(ledger) else AllJudged(ledger))
    && events == ToolEvents(ledger, r.ResultRaised?) + LastEvents(r, |asked|)
  }

  lemma EndsJudged(tools: map<string, Tool>, parse: string -> Parsed, task: string, maxRounds: int,
                   r: Ending, messages: seq<Message>, asked: seq<seq<Message>>, ledger: seq<Entry>,
                   used: seq<string>, invoked: seq<Invocation>, pairs: seq<Event>)
    requires |asked| <= maxRounds && Heard(task, asked) && CallsIn(messages) == CallsOf(ledger)
    requires Booked(tools, parse, ledger, used, invoked, pairs) && !r.ResultRaised?
    requires r.Completed? || r.ProviderRaised? ==> asked != [] && messages == asked[|asked| - 1]
    requires r.Exhausted? ==> |asked| == maxRounds && Heard(task, asked + [messages])
    requires r.Completed? || r.Exhausted? ==> r.used == used
    ensures Ended(tools, parse, task, maxRounds, r, messages, asked, ledger, invoked, pairs + LastEvents(r, |asked|))
  {
  }

  /** The LLM is shown `messages` and raises, or answers without calls. */
  lemma EndsAsked(tools: map<string, Tool>, parse: string -> Parsed, task: string, maxRounds: int, r: Ending,
                  messages: seq<Message>, asked: seq<seq<Message>>, ledger: seq<Entry>,
                  used: seq<string>, invoked: seq<Invocation>, pairs: seq<Event>, last: seq<Event>)
    requires |asked| < maxRounds && Heard(task, asked + [messages]) && CallsIn(messages) == CallsOf(ledger)
    requires Booked(tools, parse, ledger, used, invoked, pairs)
    requires r.ProviderRaised? || (r.Completed? && r.used == used)
    requires last == LastEvents(r, |asked| + 1)
    ensures Ended(tools, parse, task, maxRounds, r, messages, asked + [messages], ledger, invoked, pairs + last)
  {
    EndsJudged(tools, parse, task, maxRounds, r, messages, asked + [messages], ledger, used, invoked, pairs);
  }

  lemma PrefixHeard(task: string, asked: seq<seq<Message>>, messages: seq<Message>)
    requires Heard(task, asked + [messages])
    ensures Heard(task, asked)
  {
    forall i ensures HeardAt(task, asked, i) {
      assert HeardAt(task, asked + [messages], i);
    }
  }

  lemma EndsBroken(tools: map<string, Tool>, parse: string -> Parsed, task: string, maxRounds: int,
                   messages: seq<Message>, asked: seq<seq<Message>>, ledger: seq<Entry>,
                   invoked: seq<Invocation>, events: seq<Event>)
    requires |asked| <= maxRounds && Heard(task, asked) && Broken(tools, parse, ledger, invoked, events)
    ensures Ended(tools, parse, task, maxRounds, ResultRaised, messages, asked, ledger, invoked, events)
  {
    assert events + [] == events;
  }

  /** The name that a call adds to `tools_used`. */
  function Use(entry: Entry): seq<string> {
    if entry.Executed? && entry.end.Got? then [entry.call.name] else []
  }

  lemma OneEntry(tools: map<string, Tool>, parse: string -> Parsed, entry: Entry)
    requires Honest(tools, parse, entry)
    ensures var judged := Judged(ResultOf(entry)); var called := ToolCalled(entry.call.name);
      if judged.None? then
        ToolEvents([entry], true) == [called] && Broken(tools, parse, [entry], Invocations(tools, [entry]), [called])
      else
        var pair := [called, ToolResult(entry.call.name, judged.value)];
        ToolEvents([entry], false) == pair
        && Booked(tools, parse, [entry], Use(entry), Invocations(tools, [entry]), pair)
  {
    var front: seq<Entry> := [entry][..0];
    assert front == [];
    assert NamesUsed([entry]) == NamesUsed(front) + Use(entry);
    assert Pairs([entry]) == Pairs(front) + [ToolCalled(entry.call.name),
                                             ToolResult(entry.call.name, Judged(ResultOf(entry)) == Some(true))];
    assert AllJudged(front);
  }

  /** The terminal event, which only a run that raises lacks. */
  function LastEvents(r: Ending, rounds: nat): seq<Event> {
    match r
    case Completed(_, used) => [RunCompleted(rounds, used)]
    case Exhausted(used) => [RunExhausted(rounds, used)]
    case Unavailable => [RunUnavailable]
    case ProviderRaised => []
    case ResultRaised => []
  }

  /** A call breaks a run off exactly when the parser raises on its arguments, or a handler that was
      allowed to run gave None, a boolean or a number, or a list or string that mentions an error; errors
      and refusals never do. */
  lemma WhatBreaksARunOff(tools: map<string, Tool>, parse: string -> Parsed, entry: Entry)
    requires Honest(tools, parse, entry)
    ensures Judged(ResultOf(entry)).None? <==>
      || parse(if entry.call.arguments == "" then "{}" else entry.call.arguments).ParserRaises?
      || (&& entry.Executed? && Runs(tools, entry.call.name, entry.arguments) && entry.end.Got?
          && match entry.end.value
             case Mapping(_) => false
             case Scalar(_) => true
             case Listing(items) => Text("error") in items
             case Text(text) => Contains(text, "error"))
  {
  }

  /** The trace of a run is one request, adjacent pairs and one terminal event at the end, exactly when
      the run does not raise; a run that raises logs no terminal event at all. */
  lemma TraceIsBracketed(task: string, ledger: seq<Entry>, r: Ending, rounds: nat)
    requires r.ResultRaised? ==> BrokeOff(ledger)
    ensures var trace := [AgentRequested(task)] + (ToolEvents(ledger, r.ResultRaised?) + LastEvents(r, rounds));
      && (Bracketed(trace) <==> !r.ProviderRaised? && !r.ResultRaised?)
      && (forall i :: 0 <= i < |trace| && Terminal(trace[i]) ==>
            i == |trace| - 1 && !r.ProviderRaised? && !r.ResultRaised?)
  {
    var tools := ToolEvents(ledger, r.ResultRaised?);
    var last := LastEvents(r, rounds);
    var trace := [AgentRequested(task)] + (tools + last);
    if r.ResultRaised? {
      PairsArePaired(ledger[..|ledger| - 1]);
      NoTerminalInPairs(Pairs(ledger[..|ledger| - 1]));
    } else {
      PairsArePaired(ledger);
      NoTerminalInPairs(Pairs(ledger));
      if last != [] {
        assert trace[1..|trace| - 1] == tools;
      }
    }
  }

  lemma {:induction false} NoTerminalInPairs(events: seq<Event>)
    requires PairsOnly(events)
    ensures forall e :: e in events ==> !Terminal(e)
  {
    if events != [] {
      NoTerminalInPairs(events[2..]);
      assert events == [events[0], events[1]] + events[2..];
    }
  }

  /** One more call that could be judged. */
  lemma BookedMore(tools: map<string, Tool>, parse: string -> Parsed, calls: seq<ToolCall>,
                   ledger: seq<Entry>, answers: seq<Message>, used: seq<string>, invoked: seq<Invocation>,
                   pairs: seq<Event>,
                   entry: Entry, more: seq<Invocation>, events: seq<Event>)
    requires |ledger| < |calls| && InStep(calls, ledger, answers) && entry.call == calls[|ledger|]
    requires Booked(tools, parse, ledger, used, invoked, pairs)
    requires Booked(tools, parse, [entry], Use(entry), more, events)
    ensures InStep(calls, ledger + [entry], answers + [ToolMessage(entry.call.id, ResultOf(entry))])
    ensures Booked(tools, parse, ledger + [entry], used + Use(entry), invoked + more, pairs + events)
  {
    OneCall(calls, ledger, answers, entry);
    BookedJoin(tools, parse, ledger, used, invoked, pairs, [entry], Use(entry), more, events);
  }

  /** One more call, which could not be judged. */
  lemma BrokenMore(tools: map<string, Tool>, parse: string -> Parsed, calls: seq<ToolCall>,
                   ledger: seq<Entry>, answers: seq<Message>, used: seq<string>, invoked: seq<Invocation>,
                   pairs: seq<Event>,
                   entry: Entry, more: seq<Invocation>, events: seq<Event>)
    requires |ledger| < |calls| && InStep(calls, ledger, answers) && entry.call == calls[|ledger|]
    requires Booked(tools, parse, ledger, used, invoked, pairs) && Broken(tools, parse, [entry], more, events)
    ensures CallsOf(ledger + [entry]) == calls[..|ledger| + 1]
    ensures Broken(tools, parse, ledger + [entry], invoked + more, pairs + events)
  {
    OneCall(calls, ledger, answers, entry);
    InStepFacts(calls, ledger + [entry], answers + [ToolMessage(entry.call.id, ResultOf(entry))]);
    BrokenJoin(tools, parse, ledger, used, invoked, pairs, [entry], more, events);
  }

  lemma Regroup<T>(a: seq<T>, b: seq<T>, c: seq<T>)
    ensures (a + b) + c == a + (b + c)
  {
  }

  class ToolCallingAgent {
    const provider: (nat, seq<Message>) -> Reply
    const parse: string -> Parsed
    const registry: ToolRegistry
    const maxRounds: int
    /** Whether the `openai` package can be imported. */
    const available: bool
    var audit: seq<Event>

    constructor (provider: (nat, seq<Message>) -> Reply, parse: string -> Parsed, registry: ToolRegistry,
                 maxRounds: int, available: bool)
      ensures this.registry == registry && this.maxRounds == maxRounds && audit == []
    {
      this.provider, this.parse, this.registry := provider, parse, registry;
      this.maxRounds, this.available, audit := maxRounds, available, [];
    }

    /** The settings that the constructor accepts. */
    static method Build(provider: (nat, seq<Message>) -> Reply, parse: string -> Parsed,
                        registry: ToolRegistry, maxRounds: int, available: bool)
      returns (r: Result<ToolCallingAgent, AgentError>)
      ensures r.Ok? <==> 1 <= maxRounds <= 10
      ensures r.Ok? ==> fresh(r.value) && r.value.registry == registry && r.value.maxRounds == maxRounds
    {
      if maxRounds < 1 || maxRounds > 10 {
        return Err(BadMaxRounds);
      }
      var agent := new ToolCallingAgent(provider, parse, registry, maxRounds, available);
      return Ok(agent);
    }

    /** Parse the arguments and execute. */
    method Work(call: ToolCall) returns (entry: Entry)
      modifies registry`invoked
      ensures entry.call == call && Honest(registry.tools, parse, entry)
      ensures registry.invoked == old(registry.invoked) + Invocations(registry.tools, [entry])
      ensures entry.Executed? && Runs(registry.tools, call.name, entry.arguments) ==>
                entry.end == registry.handlers(|old(registry.invoked)|, Invocation(call.name, entry.arguments.fields))
    {
      match parse(if call.arguments == "" then "{}" else call.arguments) {
        case Malformed(detail) => entry := BadJson(call, detail);
        case ParserRaises => entry := Unparsed(call);
        case Parses(arguments) =>
          var end := registry.Execute(call.name, arguments);
          entry := Executed(call, arguments, end);
      }
      assert [entry][..0] == [];
    }

    /** One call, between its audit events; it raises if its result cannot be judged. */
    method Answer(call: ToolCall)
      returns (entry: Entry, raised: bool, ghost invoked: seq<Invocation>, ghost events: seq<Event>)
      modifies registry`invoked, this`audit
      ensures entry.call == call
      ensures registry.invoked == old(registry.invoked) + invoked && audit == old(audit) + events
      ensures if raised then Broken(registry.tools, parse, [entry], invoked, events)
              else Booked(registry.tools, parse, [entry], Use(entry), invoked, events)
    {
      audit := audit + [ToolCalled(call.name)];
      entry := Work(call);
      invoked := Invocations(registry.tools, [entry]);
      OneEntry(registry.tools, parse, entry);
      var judged := Judged(ResultOf(entry));
      if judged.None? {
        return entry, true, invoked, [ToolCalled(call.name)];
      }
      audit := audit + [ToolResult(call.name, judged.value)];
      return entry, false, invoked, [ToolCalled(call.name), ToolResult(call.name, judged.value)];
    }

    /** The inner loop: the calls of one reply in order, until one raises. */
    method AnswerAll(calls: seq<ToolCall>)
      returns (ledger: seq<Entry>, answers: seq<Message>, used: seq<string>, raised: bool,
               ghost invoked: seq<Invocation>, ghost events: seq<Event>)
      modifies registry`invoked, this`audit
      ensures |ledger| <= |calls| && CallsOf(ledger) == calls[..|ledger|]
      ensures registry.invoked == old(registry.invoked) + invoked && audit == old(audit) + events
      ensures if raised then Broken(registry.tools, parse, ledger, invoked, events)
              else |ledger| == |calls| && answers == Answers(ledger)
                   && Booked(registry.tools, parse, ledger, used, invoked, events)
    {
      ledger, answers, used, raised, invoked, events := [], [], [], false, [], [];
      NothingBooked(registry.tools, parse);
      while |ledger| < |calls|
        invariant |ledger| <= |calls| && InStep(calls, ledger, answers)
        invariant Booked(registry.tools, parse, ledger, used, invoked, events)
        invariant registry.invoked == old(registry.invoked) + invoked && audit == old(audit) + events
        invariant !raised
      {
        var entry;
        ghost var more, pair;
        entry, raised, more, pair := Answer(calls[|ledger|]);
        Regroup(old(registry.invoked), invoked, more);
        Regroup(old(audit), events, pair);
        if raised {
          BrokenMore(registry.tools, parse, calls, ledger, answers, used, invoked, events, entry, more, pair);
          ledger, invoked, events := ledger + [entry], invoked + more, events + pair;
          return;
        }
        BookedMore(registry.tools, parse, calls, ledger, answers, used, invoked, events, entry, more, pair);
        used := used + Use(entry);
        answers := answers + [ToolMessage(entry.call.id, ResultOf(entry))];
        ledger, invoked, events := ledger + [entry], invoked + more, events + pair;
      }
      InStepFacts(calls, ledger, answers);
    }

    /** What the conversation has invoked and recorded since `ran` and `logged`. */
    ghost predicate Since(ran: seq<Invocation>, logged: seq<Event>, invoked: seq<Invocation>, events: seq<Event>)
      reads registry, this
    {
      registry.invoked == ran + invoked && audit == logged + events
    }

    /** One round in which the LLM calls tools: its message, and the answers to its calls. */
    method TakeRound(task: string, reply: Reply, asked: seq<seq<Message>>, messages: seq<Message>, ledger: seq<Entry>,
                     used: seq<string>, ghost ran: seq<Invocation>, ghost logged: seq<Event>,
                     ghost invoked: seq<Invocation>, ghost events: seq<Event>)
      returns (nextMessages: seq<Message>, nextLedger: seq<Entry>, nextUsed: seq<string>, raised: bool,
               ghost nextInvoked: seq<Invocation>, ghost nextEvents: seq<Event>)
      requires reply.Reply? && reply.calls != []
      requires Heard(task, asked + [messages]) && CallsIn(messages) == CallsOf(ledger)
      requires Booked(registry.tools, parse, ledger, used, invoked, events) && Since(ran, logged, invoked, events)
      modifies registry`invoked, this`audit
      ensures Since(ran, logged, nextInvoked, nextEvents)
      ensures if raised then Broken(registry.tools, parse, nextLedger, nextInvoked, nextEvents)
              else Heard(task, asked + [messages] + [nextMessages]) && CallsIn(nextMessages) == CallsOf(nextLedger)
                   && Booked(registry.tools, parse, nextLedger, nextUsed, nextInvoked, nextEvents)
    {
      var entries, answers, names;
      ghost var more, pairs;
      entries, answers, names, raised, more, pairs := AnswerAll(reply.calls);
      nextMessages := messages + [Assistant(reply.content, reply.calls)] + answers;
      nextLedger, nextUsed := ledger + entries, used + names;
      nextInvoked, nextEvents := invoked + more, events + pairs;
      Regroup(ran, invoked, more);
      Regroup(logged, events, pairs);
      if raised {
        BrokenJoin(registry.tools, parse, ledger, used, invoked, events, entries, more, pairs);
      } else {
        TalkGrows(task, asked, messages, ledger, reply.content, reply.calls, entries);
        BookedJoin(registry.tools, parse, ledger, used, invoked, events, entries, names, more, pairs);
      }
    }

    /** The terminal event. */
    method Close(last: Event, ghost ran: seq<Invocation>, ghost logged: seq<Event>, ghost invoked: seq<Invocation>,
                 ghost events: seq<Event>)
      returns (ghost allEvents: seq<Event>)
      requires Since(ran, logged, invoked, events)
      modifies this`audit
      ensures allEvents == events + [last] && Since(ran, logged, invoked, allEvents)
    {
      Regroup(logged, events, [last]);
      audit := audit + [last];
      allEvents := events + [last];
    }

    /** The outer loop. */
    method Converse(task: string)
      returns (r: Ending, messages: seq<Message>, asked: seq<seq<Message>>, ledger: seq<Entry>,
               ghost invoked: seq<Invocation>, ghost events: seq<Event>)
      requires maxRounds >= 1
      modifies registry`invoked, this`audit
      ensures !r.Unavailable?
      ensures Since(old(registry.invoked), old(audit), invoked, events)
      ensures asked != [] && (r.ProviderRaised? <==> provider(|asked|, asked[|asked| - 1]).ReplyRaises?)
      ensures Ended(registry.tools, parse, task, maxRounds, r, messages, asked, ledger, invoked, events)
    {
      ghost var ran, logged := registry.invoked, audit;
      messages, asked, ledger := [System, User(task)], [], [];
      TalkStarts(task);
      assert asked + [messages] == [messages];
      var used := [];
      invoked, events := [], [];
      var round := 1;
      while round <= maxRounds
        invariant 1 <= round <= maxRounds + 1 && |asked| == round - 1
        invariant Heard(task, asked + [messages]) && CallsIn(messages) == CallsOf(ledger)
        invariant Booked(registry.tools, parse, ledger, used, invoked, events)
        invariant Since(ran, logged, invoked, events)
        invariant asked != [] ==> !provider(|asked|, asked[|asked| - 1]).ReplyRaises?
      {
        var reply := provider(round, messages);
        if reply.ReplyRaises? {
          EndsAsked(registry.tools, parse, task, maxRounds, ProviderRaised, messages, asked, ledger, used, invoked,
                    events, []);
          asked, r := asked + [messages], ProviderRaised;
          assert events + [] == events;
          return;
        }
        if reply.calls == [] {
          r := Completed(reply.content, used);
          EndsAsked(registry.tools, parse, task, maxRounds, r, messages, asked, ledger, used, invoked, events,
                    [RunCompleted(round, used)]);
          asked := asked + [messages];
          events := Close(RunCompleted(round, used), ran, logged, invoked, events);
          return;
        }
        ghost var nextInvoked, nextEvents;
        var nextMessages, raised;
        nextMessages, ledger, used, raised, nextInvoked, nextEvents :=
          TakeRound(task, reply, asked, messages, ledger, used, ran, logged, invoked, events);
        asked := asked + [messages];
        messages, invoked, events := nextMessages, nextInvoked, nextEvents;
        if raised {
          EndsBroken(registry.tools, parse, task, maxRounds, messages, asked, ledger, invoked, events);
          r := ResultRaised;
          return;
        }
        round := round + 1;
      }
      r := Exhausted(used);
      PrefixHeard(task, asked, messages);
      EndsJudged(registry.tools, parse, task, maxRounds, r, messages, asked, ledger, used, invoked, events);
      events := Close(RunExhausted(maxRounds, used), ran, logged, invoked, events);
    }

    /** `run`. Also given: the final message list, the message list of each model call, and the ledger. */
    method Run(task: string)
      returns (r: Ending, messages: seq<Message>, asked: seq<seq<Message>>, ledger: seq<Entry>)
      requires 1 <= maxRounds <= 10
      modifies registry`invoked, this`audit
      // Every model call is shown a transcript, and there are at most `maxRounds` of them.
      ensures |asked| <= maxRounds && Heard(task, asked)
      ensures r.Completed? || r.ProviderRaised? ==> asked != [] && messages == asked[|asked| - 1]
      ensures r.Exhausted? ==> |asked| == maxRounds && Heard(task, asked + [messages])
      // Every call of the replies is worked through, once and in order, up to where the run breaks off.
      ensures AllHonest(registry.tools, parse, ledger)
      ensures r.Completed? || r.ProviderRaised? || r.Exhausted? ==> CallsIn(messages) == CallsOf(ledger)
      ensures r.Completed? || r.Exhausted? ==> r.used == NamesUsed(ledger)
      // Nothing else has run.
      ensures registry.invoked == old(registry.invoked) + Invocations(registry.tools, ledger)
      // The audit trace, and exactly when it lacks its terminal event.
      ensures r.ProviderRaised? <==> asked != [] && provider(|asked|, asked[|asked| - 1]).ReplyRaises?
      ensures if r.ResultRaised? then BrokeOff(ledger) else AllJudged(ledger)
      ensures r.Unavailable? <==> !available
      ensures audit == old(audit) + [AgentRequested(task)]
                       + (ToolEvents(ledger, r.ResultRaised?) + LastEvents(r, |asked|))
    {
      audit := audit + [AgentRequested(task)];
      if !available {
        audit := audit + [RunUnavailable];
        return Unavailable, [], [], [];
      }
      ghost var invoked, events;
      r, messages, asked, ledger, invoked, events := Converse(task);
    }
  }
}
