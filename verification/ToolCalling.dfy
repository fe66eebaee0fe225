/** The bounded loop in which an LLM calls allowlisted tools.

The LLM is any function of the round and the messages it is shown; the handlers are any functions. A
run keeps a ledger of the tool calls it worked through, with how each ended. */
module ToolCalling {
  import opened Wrappers
  import opened ToolRegistries

  datatype ToolCall = ToolCall(id: string, name: string, arguments: string)

  datatype Reply = Reply(content: string, calls: seq<ToolCall>) | ReplyRaises

  datatype Message =
    | System
    | User(task: string)
    | Assistant(content: string, calls: seq<ToolCall>)
    | ToolMessage(callId: string, result: Value)

  datatype Event =
    | AgentRequested(task: string)
    | ToolCalled(name: string)
    | ToolResult(name: string, failed: bool)
    | RunCompleted(rounds: nat, used: seq<string>)
    | RunExhausted(rounds: nat, used: seq<string>)
    | RunUnavailable

  predicate Terminal(e: Event) {
    e.RunCompleted? || e.RunExhausted? || e.RunUnavailable?
  }

  /** How a run ends for its caller. */
  datatype Ending =
    | Completed(answer: string, used: seq<string>)
    | Exhausted(used: seq<string>)
    | Unavailable
    | ProviderRaised
    | ResultRaised

  /** What the arguments of a call parse to. The parser may also raise something other than a decode
      error, on nesting that is too deep or a number that is too long. */
  datatype Parsed = Parses(value: Value) | Malformed(detail: string) | ParserRaises

  /** A call, what its arguments parse to, and how its execution ended if they parse. */
  datatype Entry =
    | BadJson(call: ToolCall, detail: string)
    | Unparsed(call: ToolCall)
    | Executed(call: ToolCall, arguments: Value, end: ExecEnd)

  // ----- Results -----

  /** A call on which the parser raises has no result; None stands for it, which cannot be judged either. */
  function ResultOf(entry: Entry): Value {
    match entry
    case Unparsed(_) => Scalar("None")
    case BadJson(_, detail) =>
      Mapping(map["error" := Text("Invalid JSON tool arguments"), "detail" := Text(detail)])
    case Executed(_, _, Got(value)) => value
    case Executed(_, _, Threw(expected, message, errorType)) =>
      if expected then Mapping(map["error" := Text(message)])
      else Mapping(map["error" := Text("Tool execution failed"), "detail" := Text(message),
                       "error_type" := Text(errorType)])
  }

  predicate Contains(text: string, part: string) {
    part <= text || (text != [] && Contains(text[1..], part))
  }

  /** `"error" in result`; None where Python raises a TypeError. */
  function MentionsError(result: Value): Option<bool> {
    match result
    case Mapping(fields) => Some("error" in fields)
    case Listing(items) => Some(Text("error") in items)
    case Text(text) => Some(Contains(text, "error"))
    case Scalar(_) => None
  }

  /** Whether the result is a failure, where the code can tell: the test raises on a scalar, and the
      look-up of the detail raises on a list or string that mentions an error. */
  function Judged(result: Value): Option<bool> {
    match MentionsError(result)
    case None => None
    case Some(failed) => if failed && !result.Mapping? then None else Some(failed)
  }

  // ----- What a ledger amounts to -----

  function NamesUsed(ledger: seq<Entry>): seq<string> {
    if ledger == [] then []
    else
      var entry := ledger[|ledger| - 1];
      NamesUsed(ledger[..|ledger| - 1]) + if entry.Executed? && entry.end.Got? then [entry.call.name] else []
  }

  function Invocations(tools: map<string, Tool>, ledger: seq<Entry>): seq<Invocation> {
    if ledger == [] then []
    else
      var entry := ledger[|ledger| - 1];
      Invocations(tools, ledger[..|ledger| - 1])
      + if entry.Executed? && Runs(tools, entry.call.name, entry.arguments)
        then [Invocation(entry.call.name, entry.arguments.fields)] else []
  }

  function Pairs(ledger: seq<Entry>): seq<Event> {
    if ledger == [] then []
    else
      var entry := ledger[|ledger| - 1];
      Pairs(ledger[..|ledger| - 1])
      + [ToolCalled(entry.call.name), ToolResult(entry.call.name, Judged(ResultOf(entry)) == Some(true))]
  }

  function Answers(ledger: seq<Entry>): (answers: seq<Message>)
    ensures |answers| == |ledger|
    ensures forall i :: 0 <= i < |ledger| ==> answers[i] == ToolMessage(ledger[i].call.id, ResultOf(ledger[i]))
  {
    seq(|ledger|, i requires 0 <= i < |ledger| => ToolMessage(ledger[i].call.id, ResultOf(ledger[i])))
  }

  /** The ledger is about exactly these calls, in this order. */
  ghost predicate Worked(calls: seq<ToolCall>, ledger: seq<Entry>) {
    |ledger| == |calls| && forall i :: 0 <= i < |calls| ==> ledger[i].call == calls[i]
  }

  predicate AllJudged(ledger: seq<Entry>) {
    forall i :: 0 <= i < |ledger| ==> Judged(ResultOf(ledger[i])).Some?
  }

  // ----- Transcripts -----

  /** One tool message per call, with the same ids in the same order. */
  predicate IsAnswer(calls: seq<ToolCall>, answers: seq<Message>) {
    |answers| == |calls|
    && forall i :: 0 <= i < |calls| ==> answers[i].ToolMessage? && answers[i].callId == calls[i].id
  }

  /** Blocks of one assistant message with calls, followed by the answers to them. */
  predicate Blocks(messages: seq<Message>) {
    messages == []
    || (&& messages[0].Assistant? && messages[0].calls != []
        && |messages| > |messages[0].calls|
        && IsAnswer(messages[0].calls, messages[1..|messages[0].calls| + 1])
        && Blocks(messages[|messages[0].calls| + 1..]))
  }

  predicate Transcript(messages: seq<Message>, task: string) {
    |messages| >= 2 && messages[0] == System && messages[1] == User(task) && Blocks(messages[2..])
  }

  function ToolRounds(messages: seq<Message>): nat {
    if messages == [] then 0
    else ToolRounds(messages[..|messages| - 1]) + if messages[|messages| - 1].Assistant? then 1 else 0
  }

  function CallsIn(messages: seq<Message>): seq<ToolCall> {
    if messages == [] then []
    else
      var last := messages[|messages| - 1];
      CallsIn(messages[..|messages| - 1]) + if last.Assistant? then last.calls else []
  }

  lemma SlicesOfJoin<T>(a: seq<T>, b: seq<T>, n: nat)
    requires 1 <= n <= |a|
    ensures (a + b)[n..] == a[n..] + b && (a + b)[1..n] == a[1..n] && (a + b)[0] == a[0]
  {
  }

  lemma {:induction false} BlocksJoin(a: seq<Message>, b: seq<Message>)
    requires Blocks(a) && Blocks(b)
    ensures Blocks(a + b)
    decreases |a|
  {
    if a == [] {
      assert a + b == b;
    } else {
      var n := |a[0].calls| + 1;
      BlocksJoin(a[n..], b);
      SlicesOfJoin(a, b, n);
    }
  }

  lemma OneBlock(content: string, calls: seq<ToolCall>, ledger: seq<Entry>)
    requires calls != [] && Worked(calls, ledger)
    ensures Blocks([Assistant(content, calls)] + Answers(ledger))
  {
    var block := [Assistant(content, calls)] + Answers(ledger);
    assert block[|calls| + 1..] == [];
    assert block[1..|calls| + 1] == Answers(ledger);
  }

  lemma {:induction false} CallsJoin(a: seq<Message>, b: seq<Message>)
    ensures CallsIn(a + b) == CallsIn(a) + CallsIn(b) && ToolRounds(a + b) == ToolRounds(a) + ToolRounds(b)
  {
    if b == [] {
      assert a + b == a;
    } else {
      CallsJoin(a, b[..|b| - 1]);
      assert (a + b)[..|a + b| - 1] == a + b[..|b| - 1];
    }
  }

  lemma {:induction false} NoCallsIn(messages: seq<Message>)
    requires forall m :: m in messages ==> !m.Assistant?
    ensures CallsIn(messages) == [] && ToolRounds(messages) == 0
  {
    if messages != [] {
      NoCallsIn(messages[..|messages| - 1]);
    }
  }

  lemma OneRound(content: string, calls: seq<ToolCall>, answers: seq<Message>)
    requires forall m :: m in answers ==> m.ToolMessage?
    ensures CallsIn([Assistant(content, calls)] + answers) == calls
    ensures ToolRounds([Assistant(content, calls)] + answers) == 1
  {
    CallsJoin([Assistant(content, calls)], answers);
    NoCallsIn(answers);
    assert [Assistant(content, calls)][..0] == [];
  }

  lemma AnswersAreToolMessages(calls: seq<ToolCall>, answers: seq<Message>)
    requires IsAnswer(calls, answers)
    ensures forall m :: m in answers ==> m.ToolMessage?
  {
  }

  /** In a list of blocks every message is an assistant message or the answer to one call. */
  lemma {:induction false} BlocksLength(messages: seq<Message>)
    requires Blocks(messages)
    ensures |messages| == ToolRounds(messages) + |CallsIn(messages)|
    decreases |messages|
  {
    if messages != [] {
      var n := |messages[0].calls| + 1;
      BlocksLength(messages[n..]);
      assert messages == messages[..n] + messages[n..];
      CallsJoin(messages[..n], messages[n..]);
      assert messages[..n] == [Assistant(messages[0].content, messages[0].calls)] + messages[1..n];
      AnswersAreToolMessages(messages[0].calls, messages[1..n]);
      OneRound(messages[0].content, messages[0].calls, messages[1..n]);
    }
  }

  /** A transcript holds the system and user messages, one assistant message per tool round and one tool
      message per call. */
  lemma TranscriptLength(messages: seq<Message>, task: string)
    requires Transcript(messages, task)
    ensures |messages| == 2 + ToolRounds(messages) + |CallsIn(messages)|
  {
    BlocksLength(messages[2..]);
    assert messages == messages[..2] + messages[2..];
    CallsJoin(messages[..2], messages[2..]);
    NoCallsIn(messages[..2]);
  }

  lemma TranscriptOf(rest: seq<Message>, task: string)
    requires Blocks(rest)
    ensures Transcript([System, User(task)] + rest, task)
  {
    assert ([System, User(task)] + rest)[2..] == rest;
  }

  lemma HeadAndRest<T>(x: T, y: T, s: seq<T>, more: seq<T>)
    requires |s| >= 2 && s[0] == x && s[1] == y
    ensures s + more == [x, y] + (s[2..] + more)
  {
  }

  lemma TranscriptJoin(messages: seq<Message>, task: string, block: seq<Message>)
    requires Transcript(messages, task) && Blocks(block)
    ensures Transcript(messages + block, task)
  {
    BlocksJoin(messages[2..], block);
    TranscriptOf(messages[2..] + block, task);
    HeadAndRest(System, User(task), messages, block);
  }

  /** A transcript and a further round of calls, all answered. */
  lemma TranscriptGrows(messages: seq<Message>, task: string, content: string, calls: seq<ToolCall>, ledger: seq<Entry>)
    requires Transcript(messages, task) && calls != [] && Worked(calls, ledger)
    ensures var more := messages + [Assistant(content, calls)] + Answers(ledger);
      && Transcript(more, task)
      && CallsIn(more) == CallsIn(messages) + calls
      && ToolRounds(more) == ToolRounds(messages) + 1
  {
    var block := [Assistant(content, calls)] + Answers(ledger);
    assert messages + [Assistant(content, calls)] + Answers(ledger) == messages + block;
    OneBlock(content, calls, ledger);
    TranscriptJoin(messages, task, block);
    CallsJoin(messages, block);
    OneRound(content, calls, Answers(ledger));
  }

  // ----- What every ledger guarantees -----

  function CallsOf(ledger: seq<Entry>): (calls: seq<ToolCall>)
    ensures |calls| == |ledger|
    ensures forall i :: 0 <= i < |ledger| ==> calls[i] == ledger[i].call
  {
    seq(|ledger|, i requires 0 <= i < |ledger| => ledger[i].call)
  }

  lemma FrontOf<T>(a: seq<T>, b: seq<T>)
    requires b != []
    ensures (a + b)[..|a + b| - 1] == a + b[..|b| - 1] && (a + b)[|a + b| - 1] == b[|b| - 1]
  {
  }

  lemma {:induction false} NamesJoin(a: seq<Entry>, b: seq<Entry>)
    ensures NamesUsed(a + b) == NamesUsed(a) + NamesUsed(b)
  {
    if b == [] {
      assert a + b == a;
    } else {
      NamesJoin(a, b[..|b| - 1]);
      FrontOf(a, b);
    }
  }

  lemma {:induction false} PairsJoin(a: seq<Entry>, b: seq<Entry>)
    ensures Pairs(a + b) == Pairs(a) + Pairs(b)
  {
    if b == [] {
      assert a + b == a;
    } else {
      PairsJoin(a, b[..|b| - 1]);
      FrontOf(a, b);
    }
  }

  lemma {:induction false} InvocationsJoin(tools: map<string, Tool>, a: seq<Entry>, b: seq<Entry>)
    ensures Invocations(tools, a + b) == Invocations(tools, a) + Invocations(tools, b)
  {
    if b == [] {
      assert a + b == a;
    } else {
      InvocationsJoin(tools, a, b[..|b| - 1]);
      FrontOf(a, b);
    }
  }

  lemma LedgerJoin(tools: map<string, Tool>, a: seq<Entry>, b: seq<Entry>)
    ensures NamesUsed(a + b) == NamesUsed(a) + NamesUsed(b)
    ensures Pairs(a + b) == Pairs(a) + Pairs(b)
    ensures Invocations(tools, a + b) == Invocations(tools, a) + Invocations(tools, b)
  {
    NamesJoin(a, b);
    PairsJoin(a, b);
    InvocationsJoin(tools, a, b);
  }

  /** Only registered tools that need no approval ever run, and only for calls of the run. */
  lemma {:induction false} OnlyAllowedToolsRun(tools: map<string, Tool>, ledger: seq<Entry>)
    ensures forall inv :: inv in Invocations(tools, ledger) ==>
      && inv.name in tools && !tools[inv.name].gated
      && exists i :: 0 <= i < |ledger| && ledger[i].call.name == inv.name
    ensures |Invocations(tools, ledger)| <= |ledger|
  {
    if ledger != [] {
      OnlyAllowedToolsRun(tools, ledger[..|ledger| - 1]);
      forall inv | inv in Invocations(tools, ledger)
        ensures exists i :: 0 <= i < |ledger| && ledger[i].call.name == inv.name
      {
        if inv in Invocations(tools, ledger[..|ledger| - 1]) {
          var i :| 0 <= i < |ledger| - 1 && ledger[..|ledger| - 1][i].call.name == inv.name;
          assert ledger[i].call.name == inv.name;
        } else {
          assert ledger[|ledger| - 1].call.name == inv.name;
        }
      }
    }
  }

  /** A trace of one request, adjacent call-result pairs and nothing else. */
  predicate PairsOnly(events: seq<Event>) {
    events == []
    || (|events| >= 2 && events[0].ToolCalled? && events[1].ToolResult? && events[0].name == events[1].name
        && PairsOnly(events[2..]))
  }

  lemma {:induction false} PairsOnlyJoin(a: seq<Event>, b: seq<Event>)
    requires PairsOnly(a) && PairsOnly(b)
    ensures PairsOnly(a + b)
  {
    if a == [] {
      assert a + b == b;
    } else {
      PairsOnlyJoin(a[2..], b);
      assert (a + b)[2..] == a[2..] + b;
    }
  }

  lemma {:induction false} PairsArePaired(ledger: seq<Entry>)
    ensures PairsOnly(Pairs(ledger)) && |Pairs(ledger)| == 2 * |ledger|
    ensures forall i :: 0 <= i < |ledger| ==>
      Pairs(ledger)[2 * i] == ToolCalled(ledger[i].call.name)
      && Pairs(ledger)[2 * i + 1] == ToolResult(ledger[i].call.name, Judged(ResultOf(ledger[i])) == Some(true))
  {
    if ledger != [] {
      var n := |ledger| - 1;
      PairsArePaired(ledger[..n]);
      var last := [ToolCalled(ledger[n].call.name),
                   ToolResult(ledger[n].call.name, Judged(ResultOf(ledger[n])) == Some(true))];
      assert last[2..] == [];
      PairsOnlyJoin(Pairs(ledger[..n]), last);
    }
  }

  /** One request, pairs, exactly one terminal event at the end. */
  predicate Bracketed(events: seq<Event>) {
    && |events| >= 2 && events[0].AgentRequested? && Terminal(events[|events| - 1])
    && PairsOnly(events[1..|events| - 1])
  }
}
