/** The allowlist of tools that an LLM may call. */
module ToolRegistries {
  import opened Wrappers
  import opened JobNames

  /** What a tool takes and gives: a dictionary, a list, a string, or None, a boolean or a number. */
  datatype Value =
    | Mapping(fields: map<string, Value>)
    | Listing(items: seq<Value>)
    | Text(text: string)
    | Scalar(literal: string)

  datatype Tool = Tool(name: string, gated: bool)

  datatype RegistryError = BlankName | DuplicateName

  /** `expected` marks a KeyError, TypeError or ValueError. */
  datatype ExecEnd = Got(value: Value) | Threw(expected: bool, message: string, errorType: string)

  datatype Invocation = Invocation(name: string, arguments: map<string, Value>)

  /** What the handlers do: any result for any invocation, which may differ from call to call. */
  type Handlers = (nat, Invocation) -> ExecEnd

  predicate Blank(name: string) {
    forall i :: 0 <= i < |name| ==> IsSpace(name[i])
  }

  /** The handler runs: a registered tool that needs no approval, called with an object. */
  predicate Runs(tools: map<string, Tool>, name: string, arguments: Value) {
    name in tools && !tools[name].gated && arguments.Mapping?
  }

  function Refusal(name: string): Value {
    Mapping(map["executed" := Scalar("False"), "requires_human_approval" := Scalar("True"), "tool" := Text(name),
                "reason" := Text("This tool cannot be executed by the LLM without approval.")])
  }

  class ToolRegistry {
    const handlers: Handlers
    var order: seq<string>
    var tools: map<string, Tool>
    /** The handlers that have run, for the record. */
    var invoked: seq<Invocation>

    ghost predicate Valid()
      reads this
    {
      && (forall name :: name in tools <==> name in order)
      && (forall i, j :: 0 <= i < j < |order| ==> order[i] != order[j])
      && (forall name :: name in tools ==> tools[name].name == name && !Blank(name))
    }

    constructor (handlers: Handlers)
      ensures Valid() && tools == map[] && invoked == [] && this.handlers == handlers
    {
      this.handlers := handlers;
      order, tools, invoked := [], map[], [];
    }

    method Register(tool: Tool) returns (r: Result<(), RegistryError>)
      requires Valid()
      modifies this`order, this`tools
      ensures Valid()
      ensures r == if Blank(tool.name) then Err(BlankName)
                   else if tool.name in old(tools) then Err(DuplicateName)
                   else Ok(())
      ensures tools == if r.Ok? then old(tools)[tool.name := tool] else old(tools)
      ensures order == if r.Ok? then old(order) + [tool.name] else old(order)
    {
      if Blank(tool.name) {
        return Err(BlankName);
      }
      if tool.name in tools {
        return Err(DuplicateName);
      }
      tools := tools[tool.name := tool];
      order := order + [tool.name];
      return Ok(());
    }

    method Get(name: string) returns (r: Option<Tool>)
      ensures r == if name in tools then Some(tools[name]) else None
    {
      if name in tools {
        return Some(tools[name]);
      }
      return None;
    }

    /** An unknown tool and arguments that are no object raise; a gated tool answers with a refusal. */
    method Execute(name: string, arguments: Value) returns (r: ExecEnd)
      modifies this`invoked
      ensures Runs(tools, name, arguments) ==>
                invoked == old(invoked) + [Invocation(name, arguments.fields)]
                && r == handlers(|old(invoked)|, Invocation(name, arguments.fields))
      ensures !Runs(tools, name, arguments) ==>
                invoked == old(invoked)
                && if name in tools && arguments.Mapping? then r == Got(Refusal(name)) else r.Threw? && r.expected
    {
      var tool := Get(name);
      if tool.None? {
        return Threw(true, "Unknown tool: " + name, "KeyError");
      }
      if !arguments.Mapping? {
        return Threw(true, "Tool arguments must be a JSON object", "TypeError");
      }
      if tool.value.gated {
        return Got(Refusal(name));
      }
      var invocation := Invocation(name, arguments.fields);
      r := handlers(|invoked|, invocation);
      invoked := invoked + [invocation];
    }
  }
}
