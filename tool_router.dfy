/** The tool allowlist. A registry maps tool names to tool functions; running a
    request turns whatever the tool does into a `ToolResult` and never raises.

    A tool function is modelled by what a call with the given keyword
    arguments does: return a dict, return something else, raise `TypeError`
    (which Python also raises for unexpected or missing keyword arguments), or
    raise another exception. */
module ToolRouter {
  import opened Wrappers
  import opened Strings
  import opened Values

  datatype ToolOutcome =
    | ReturnsDict(data: Dict)
    | ReturnsNonDict(value: Value)
    | RaisesTypeError(message: string)
    | RaisesOther(typeName: string, message: string)

  type Args = Dict

  /** `fn(**args)`. */
  type ToolFn = Args -> ToolOutcome

  datatype ToolRequest = ToolRequest(toolName: string, args: Args)

  datatype ToolResult = ToolResult(toolName: string, ok: bool, data: Dict, error: Option<string>)

  const UnknownTool := "Unknown tool"
  const NonDictOutput := "Tool returned non-dict output"
  const BadArgsPrefix := "Bad tool args: "
  const ToolErrorPrefix := "Tool error: "

  /** The result recorded for one call of a registered tool. */
  function Classify(name: string, outcome: ToolOutcome): (r: ToolResult)
    ensures r.toolName == name
    ensures r.ok <==> outcome.ReturnsDict?
    ensures r.ok ==> r.data == outcome.data && r.error.None?
    ensures !r.ok ==> r.data == [] && r.error.Some?
    ensures outcome.ReturnsNonDict? ==> r.error == Some(NonDictOutput)
    ensures outcome.RaisesTypeError? ==> r.error == Some(BadArgsPrefix + outcome.message)
    ensures outcome.RaisesOther? ==>
              r.error == Some(ToolErrorPrefix + outcome.typeName + ": " + outcome.message)
  {
    match outcome
    case ReturnsDict(d) => ToolResult(name, true, d, None)
    case ReturnsNonDict(_) => ToolResult(name, false, [], Some(NonDictOutput))
    case RaisesTypeError(m) => ToolResult(name, false, [], Some(BadArgsPrefix + m))
    case RaisesOther(t, m) => ToolResult(name, false, [], Some(ToolErrorPrefix + t + ": " + m))
  }

  /** What running `req` against the tool table `tools` gives. */
  function RunWith(tools: map<string, ToolFn>, req: ToolRequest): ToolResult {
    if req.toolName !in tools then ToolResult(req.toolName, false, [], Some(UnknownTool))
    else Classify(req.toolName, tools[req.toolName](req.args))
  }

  /** The errors of a type error and of any other exception are told apart by
      their prefixes. */
  lemma ErrorPrefixes(name: string, outcome: ToolOutcome)
    ensures outcome.RaisesTypeError? ==> StartsWith(Classify(name, outcome).error.value, BadArgsPrefix)
    ensures outcome.RaisesOther? ==> StartsWith(Classify(name, outcome).error.value, ToolErrorPrefix + outcome.typeName + ": ")
    ensures outcome.RaisesOther? ==> !StartsWith(Classify(name, outcome).error.value, BadArgsPrefix)
  {
    if outcome.RaisesTypeError? {
      var e := Classify(name, outcome).error.value;
      assert e[..|BadArgsPrefix|] == BadArgsPrefix;
    }
    if outcome.RaisesOther? {
      var e := Classify(name, outcome).error.value;
      var p := ToolErrorPrefix + outcome.typeName + ": ";
      assert e == p + outcome.message;
      assert e[..|p|] == p;
      assert e[0] == 'T' && BadArgsPrefix[0] == 'B';
    }
  }

  class ToolRegistry {
    var tools: map<string, ToolFn>

    constructor()
      ensures tools == map[]
    {
      tools := map[];
    }

    predicate Has(name: string)
      reads this
    {
      name in tools
    }

    /** Adds a tool; a name can be registered only once. */
    method Register(name: string, fn: ToolFn) returns (r: Result<(), string>)
      modifies this
      ensures old(Has(name)) ==> r == Err("Tool already registered: " + name) && tools == old(tools)
      ensures !old(Has(name)) ==> r.Ok? && tools == old(tools)[name := fn]
      ensures r.Ok? ==> Has(name)
      ensures forall n :: n != name ==> (Has(n) <==> old(Has(n)))
    {
      if name in tools {
        return Err("Tool already registered: " + name);
      }
      tools := tools[name := fn];
      return Ok(());
    }

    /** Runs a request. An unknown name produces an error without calling any
        tool; a known one reports the tool's outcome. */
    function Run(req: ToolRequest): (r: ToolResult)
      reads this
      ensures r.toolName == req.toolName
      ensures !Has(req.toolName) ==> r == ToolResult(req.toolName, false, [], Some(UnknownTool))
      ensures Has(req.toolName) ==> r == Classify(req.toolName, tools[req.toolName](req.args))
      ensures r.ok ==> Has(req.toolName) && tools[req.toolName](req.args) == ReturnsDict(r.data)
    {
      RunWith(tools, req)
    }
  }
}
