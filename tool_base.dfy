/**
 * The tool registry: a name-to-tool map with JavaScript `Map` semantics
 * (last write wins, keys kept in first-insertion order), the list of
 * definitions it advertises, and the dispatch of one tool call.
 * A tool's behaviour is a function of its parsed arguments and context.
 */
module ToolBase {
  import opened Wrappers
  import opened Json
  import opened Types

  /** The sandbox boundary handed to a tool. */
  datatype ToolContext = ToolContext(workingDirectory: string)

  /** What a tool's `execute` settles to: a result text, or a thrown error's message. */
  datatype ToolOutcome = Returned(text: string) | Threw(message: string)

  datatype Tool = Tool(definition: ToolDefinition, execute: (Json, Option<ToolContext>) -> ToolOutcome)

  /** The one error `execute` throws instead of returning. */
  datatype RegistryError = ToolNotFound(name: string) {
    function Message(): string {
      "Tool not found: " + name
    }
  }

  // ---------------------------------------------------------------- the Map value

  /** A JavaScript `Map<string, Tool>`: its keys in insertion order and its entries. */
  datatype ToolMap = ToolMap(order: seq<string>, entries: map<string, Tool>)

  const EmptyMap: ToolMap := ToolMap([], map[])

  /** Keys are distinct, are exactly the entries' keys, and each tool is filed under its own name. */
  ghost predicate WellFormed(m: ToolMap) {
    && (forall i, j :: 0 <= i < j < |m.order| ==> m.order[i] != m.order[j])
    && (forall n :: n in m.entries <==> n in m.order)
    && (forall n :: n in m.entries ==> m.entries[n].definition.name == n)
  }

  /** `map.get(name)`. */
  function Lookup(m: ToolMap, name: string): Option<Tool> {
    if name in m.entries then Some(m.entries[name]) else None
  }

  /** `map.set(tool.definition.function.name, tool)`: the tool is found under
      its name, every other name is unchanged, and a new name goes last. */
  function Insert(m: ToolMap, tool: Tool): (r: ToolMap)
    ensures Lookup(r, tool.definition.name) == Some(tool)
    ensures forall n :: n != tool.definition.name ==> Lookup(r, n) == Lookup(m, n)
    ensures r.order == if tool.definition.name in m.entries then m.order else m.order + [tool.definition.name]
    ensures WellFormed(m) ==> WellFormed(r)
  {
    var name := tool.definition.name;
    ToolMap(if name in m.entries then m.order else m.order + [name], m.entries[name := tool])
  }

  /** `Array.from(map.values()).map(t => t.definition)`. */
  function Definitions(m: ToolMap): (r: seq<ToolDefinition>)
    requires WellFormed(m)
    ensures |r| == |m.order|
    ensures forall k :: 0 <= k < |r| ==> r[k] == m.entries[m.order[k]].definition
  {
    seq(|m.order|, k requires 0 <= k < |m.order| => m.entries[m.order[k]].definition)
  }

  /** The empty registry advertises no tools and finds none under any name. */
  lemma EmptyHasNoDefinitions()
    ensures WellFormed(EmptyMap) && Definitions(EmptyMap) == []
    ensures forall name :: Lookup(EmptyMap, name) == None
  {
  }

  /** Definitions are listed one per distinct name, each under its own name. */
  lemma DefinitionNamesDistinct(m: ToolMap, i: nat, j: nat)
    requires WellFormed(m)
    requires i < j < |Definitions(m)|
    ensures Definitions(m)[i].name != Definitions(m)[j].name
  {
    assert Definitions(m)[i].name == m.order[i];
    assert Definitions(m)[j].name == m.order[j];
  }

  /** Registering a new name appends its definition; registering a known
      name replaces its definition where it stands (first-insertion order). */
  lemma InsertDefinitions(m: ToolMap, tool: Tool)
    requires WellFormed(m)
    ensures var d := Definitions(Insert(m, tool));
            if tool.definition.name in m.entries then
              exists p :: 0 <= p < |m.order| && m.order[p] == tool.definition.name
                          && d == Definitions(m)[p := tool.definition]
            else d == Definitions(m) + [tool.definition]
  {
    var name := tool.definition.name;
    var r := Insert(m, tool);
    if name in m.entries {
      var p :| 0 <= p < |m.order| && m.order[p] == name;
      forall k | 0 <= k < |m.order|
        ensures Definitions(r)[k] == Definitions(m)[p := tool.definition][k]
      {
        if k != p {
          assert m.order[k] != name;
        }
      }
      assert Definitions(r) == Definitions(m)[p := tool.definition];
    } else {
      assert Definitions(r) == Definitions(m) + [tool.definition];
    }
  }

  /** Registering a name twice leaves one entry, the one registered last. */
  lemma LastRegistrationWins(m: ToolMap, t1: Tool, t2: Tool)
    requires WellFormed(m)
    requires t1.definition.name == t2.definition.name
    ensures var r := Insert(Insert(m, t1), t2);
            && Lookup(r, t2.definition.name) == Some(t2)
            && |Definitions(r)| == |Definitions(m)| + (if t1.definition.name in m.entries then 0 else 1)
            && Definitions(r) == Definitions(Insert(m, t2))
  {
    var m1 := Insert(m, t1);
    assert Insert(m1, t2) == Insert(m, t2);
  }

  /** `execute`: a missing tool throws; otherwise the arguments are parsed and
      the tool run, and a parse failure or a thrown error becomes
      "Error executing tool: <message>". */
  function ExecuteCall(m: ToolMap, call: ToolCall, context: Option<ToolContext>, parse: string -> Result<Json, string>)
    : (r: Result<string, RegistryError>)
    ensures r.Err? <==> call.name !in m.entries
    ensures r.Err? ==> r.error.Message() == "Tool not found: " + call.name
    ensures call.name in m.entries && parse(call.arguments).Err? ==>
              r == Ok("Error executing tool: " + parse(call.arguments).error)
    ensures call.name in m.entries && parse(call.arguments).Ok? ==>
              match m.entries[call.name].execute(parse(call.arguments).value, context)
              case Returned(text) => r == Ok(text)
              case Threw(message) => r == Ok("Error executing tool: " + message)
  {
    match Lookup(m, call.name)
    case None => Err(ToolNotFound(call.name))
    case Some(tool) =>
      match parse(call.arguments)
      case Err(e) => Ok("Error executing tool: " + e)
      case Ok(args) =>
        match tool.execute(args, context)
        case Returned(text) => Ok(text)
        case Threw(message) => Ok("Error executing tool: " + message)
  }

  class ToolRegistry {
    var tools: ToolMap

    ghost predicate Valid()
      reads this
    {
      WellFormed(tools)
    }

    constructor()
      ensures Valid() && tools == EmptyMap
    {
      tools := EmptyMap;
    }

    method Register(tool: Tool)
      requires Valid()
      modifies this
      ensures Valid() && tools == Insert(old(tools), tool)
    {
      tools := Insert(tools, tool);
    }

    function Get(name: string): (r: Option<Tool>)
      reads this
      ensures r.Some? <==> name in tools.entries
      ensures r.Some? ==> r.value == tools.entries[name]
    {
      Lookup(tools, name)
    }

    function GetDefinitions(): (r: seq<ToolDefinition>)
      requires Valid()
      reads this
      ensures |r| == |tools.order| && forall k :: 0 <= k < |r| ==> r[k].name == tools.order[k]
    {
      Definitions(tools)
    }

    method Execute(call: ToolCall, context: Option<ToolContext>, parse: string -> Result<Json, string>)
      returns (r: Result<string, RegistryError>)
      ensures r == ExecuteCall(tools, call, context, parse)
    {
      var tool := Get(call.name);
      if tool.None? {
        return Err(ToolNotFound(call.name));
      }
      var args := parse(call.arguments);
      if args.Err? {
        return Ok("Error executing tool: " + args.error);
      }
      var outcome := tool.value.execute(args.value, context);
      r := if outcome.Returned? then Ok(outcome.text) else Ok("Error executing tool: " + outcome.message);
    }
  }
}
