/** Edge templates over an index-parameterised set of states, and their
    instantiation against the ids of concretely chosen states
    (src/components/transitionTool.ts). */
module TransitionTools {
  import opened JsNumber

  /** A concrete edge between two state ids. */
  datatype TransitionEdge = TransitionEdge(fromID: string, toID: string)

  /** A template edge between two parameter positions (JSON numbers). */
  datatype Edge = Edge(from: real, to: real)

  datatype TransitionTool = TransitionTool(name: string, stateCount: real, edges: seq<Edge>)

  /** `r` is a whole number in `[0, n)`. */
  predicate IndexBelow(r: real, n: real) {
    IsInteger(r) && r >= 0.0 && r < n
  }

  predicate EdgeInRange(e: Edge, n: real) {
    IndexBelow(e.from, n) && IndexBelow(e.to, n)
  }

  /** `isToolValid`: a positive whole `stateCount`, and every edge between
      positions below it. A valid tool is a graph on the positions
      `0 … stateCount-1`: each edge end, read as an integer, indexes a list
      of `stateCount` ids. */
  function IsToolValid(tool: TransitionTool): (valid: bool)
    ensures valid ==> 1 <= tool.stateCount.Floor && tool.stateCount == tool.stateCount.Floor as real
    ensures valid ==> forall i :: 0 <= i < |tool.edges| ==>
      0 <= tool.edges[i].from.Floor < tool.stateCount.Floor && tool.edges[i].from == tool.edges[i].from.Floor as real &&
      0 <= tool.edges[i].to.Floor < tool.stateCount.Floor && tool.edges[i].to == tool.edges[i].to.Floor as real
  {
    IsInteger(tool.stateCount) && tool.stateCount > 0.0 &&
    forall i :: 0 <= i < |tool.edges| ==> EdgeInRange(tool.edges[i], tool.stateCount)
  }

  /** The result of `applyTool`: `"invalid"`, `"mismatch"` or the edges. */
  datatype ToolResult = Invalid | Mismatch | Applied(edges: seq<TransitionEdge>)

  /** `applyTool`: the validity check first, then the parameter count, then
      one concrete edge per template edge, in order. */
  function ApplyTool(tool: TransitionTool, params: seq<string>): (r: ToolResult)
    ensures r.Invalid? <==> !IsToolValid(tool)
    ensures r.Mismatch? <==> IsToolValid(tool) && tool.stateCount != |params| as real
    ensures r.Applied? ==>
      IsToolValid(tool) && tool.stateCount == |params| as real &&
      |r.edges| == |tool.edges| &&
      forall i :: 0 <= i < |tool.edges| ==>
        r.edges[i] == TransitionEdge(params[tool.edges[i].from.Floor], params[tool.edges[i].to.Floor])
    ensures r.Applied? ==> forall e :: e in r.edges ==> e.fromID in params && e.toID in params
  {
    if !IsToolValid(tool) then Invalid
    else if tool.stateCount != |params| as real then Mismatch
    else
      Applied(seq(|tool.edges|, i requires 0 <= i < |tool.edges| =>
        TransitionEdge(params[tool.edges[i].from.Floor], params[tool.edges[i].to.Floor])))
  }

  /** A template edge from a position to itself yields a self-loop, and two
      template edges with the same ends yield the same concrete edge. */
  lemma ApplyToolRespectsShape(tool: TransitionTool, params: seq<string>, i: nat, j: nat)
    requires ApplyTool(tool, params).Applied?
    requires i < |tool.edges| && j < |tool.edges|
    ensures tool.edges[i].from == tool.edges[i].to ==>
      ApplyTool(tool, params).edges[i].fromID == ApplyTool(tool, params).edges[i].toID
    ensures tool.edges[i] == tool.edges[j] ==>
      ApplyTool(tool, params).edges[i] == ApplyTool(tool, params).edges[j]
  {
  }

  /** With distinct parameters, the concrete edges have the template's shape
      exactly: two results coincide only where their templates do. */
  lemma ApplyToolInjective(tool: TransitionTool, params: seq<string>, i: nat, j: nat)
    requires ApplyTool(tool, params).Applied?
    requires forall a, b :: 0 <= a < b < |params| ==> params[a] != params[b]
    requires i < |tool.edges| && j < |tool.edges|
    requires ApplyTool(tool, params).edges[i] == ApplyTool(tool, params).edges[j]
    ensures tool.edges[i] == tool.edges[j]
  {
    var ei, ej := tool.edges[i], tool.edges[j];
    assert EdgeInRange(ei, tool.stateCount) && EdgeInRange(ej, tool.stateCount);
    assert params[ei.from.Floor] == params[ej.from.Floor] && params[ei.to.Floor] == params[ej.to.Floor];
  }
}
