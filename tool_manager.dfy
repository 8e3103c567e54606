/** The import decisions of the transition-tool manager
    (src/components/TransitionToolManager.tsx), starting from the value
    `JSON.parse` produced: which tools are imported and which error message
    the panel shows. */
module ToolManager {
  import opened Records
  import opened JsNumber
  import opened TransitionTools

  /** A parsed JSON value. */
  datatype JsonValue =
    | JNull
    | JBool(b: bool)
    | JNum(n: real)
    | JStr(s: string)
    | JArr(elems: seq<JsonValue>)
    | JObj(fields: map<string, JsonValue>)

  /** Property read `v.name` on a non-null value; `None` is `undefined`. */
  function Prop(v: JsonValue, name: string): Option<JsonValue> {
    if v.JObj? && name in v.fields then Some(v.fields[name]) else None
  }

  /** JavaScript truthiness of a property read. */
  predicate Truthy(v: Option<JsonValue>) {
    match v
    case None => false
    case Some(JNull) => false
    case Some(JBool(b)) => b
    case Some(JNum(n)) => n != 0.0
    case Some(JStr(s)) => s != ""
    case Some(_) => true
  }

  /** The three ways `isToolValid` can end on a parsed value: `true`,
      `false`, or a thrown `TypeError` (reading a property of `null`, or
      calling `every` on something that is not an array). */
  datatype Check = Pass | Fail | Throw

  /** `Number.isInteger(v) && v >= 0 && v < n` on a property read. */
  predicate JsIndexBelow(v: Option<JsonValue>, n: real) {
    v.Some? && v.value.JNum? && IndexBelow(v.value.n, n)
  }

  /** The callback of `every` on one edge: both ends are whole numbers in
      `[0, n)`. A value that is not an object has no such properties. */
  predicate JsEdgeOk(e: JsonValue, n: real) {
    JsIndexBelow(Prop(e, "from"), n) && JsIndexBelow(Prop(e, "to"), n)
  }

  /** `edges.every(edge => …)`: it stops at the first edge that fails, and a
      `null` edge throws when its `from` is read. */
  function JsEvery(edges: seq<JsonValue>, n: real): (r: Check)
    ensures r == Pass <==> forall i :: 0 <= i < |edges| ==> JsEdgeOk(edges[i], n)
    ensures r == Throw <==>
      exists k :: 0 <= k < |edges| && edges[k].JNull? && forall i :: 0 <= i < k ==> JsEdgeOk(edges[i], n)
  {
    if |edges| == 0 then Pass
    else if edges[0].JNull? then Throw
    else if JsEdgeOk(edges[0], n) then
      var r := JsEvery(edges[1..], n);
      assert forall i :: 1 <= i < |edges| ==> edges[i] == edges[1..][i - 1];
      assert r == Throw ==> exists k :: 0 <= k < |edges| && edges[k].JNull? && forall i :: 0 <= i < k ==> JsEdgeOk(edges[i], n) by {
        if r == Throw {
          var k :| 0 <= k < |edges[1..]| && edges[1..][k].JNull? && forall i :: 0 <= i < k ==> JsEdgeOk(edges[1..][i], n);
          assert forall i :: 0 <= i < k + 1 ==> JsEdgeOk(edges[i], n) by {
            forall i | 0 <= i < k + 1 ensures JsEdgeOk(edges[i], n) {
              if i > 0 { assert edges[i] == edges[1..][i - 1]; }
            }
          }
        }
      }
      r
    else
      assert !JsEdgeOk(edges[0], n);
      Fail
  }

  /** A value on which `edges` is an array. */
  predicate IsArray(p: Option<JsonValue>) {
    p.Some? && p.value.JArr?
  }

  /** `isToolValid` applied to a parsed value. It passes exactly when the
      value has a number `stateCount` and an array of `{from, to}` number
      pairs as `edges`, and that tool is valid (`isToolValid` never reads the
      name). It throws only on `null`, on `edges` that is not an array, or on
      a `null` edge. */
  function JsIsToolValid(v: JsonValue): (r: Check)
    ensures v.JNull? ==> r == Throw
    ensures r == Pass <==> Shape(v).Some? && IsToolValid(TransitionTool("", Shape(v).value.0, Shape(v).value.1))
    ensures r == Throw ==>
      v.JNull? || !IsArray(Prop(v, "edges")) ||
      exists k :: 0 <= k < |Prop(v, "edges").value.elems| && Prop(v, "edges").value.elems[k].JNull?
  {
    if v.JNull? then Throw
    else
      var sc := Prop(v, "stateCount");
      if !(sc.Some? && sc.value.JNum? && IsInteger(sc.value.n) && sc.value.n > 0.0) then
        Fail
      else
        match Prop(v, "edges")
        case Some(JArr(es)) =>
          var r := JsEvery(es, sc.value.n);
          DecodeEdgesAgrees(es, sc.value.n);
          r
        case _ => Throw
  }

  /** The reasons an upload is refused. */
  datatype Failure =
    | MissingName
    | MissingStateCount
    | MissingEdges
    | InvalidTool
    | InvalidToolAt(index: nat)
    | TypeError

  // ---------------------------------------------------------------------
  // Typed view of a tool file

  function EncodeEdge(e: Edge): JsonValue {
    JObj(map["from" := JNum(e.from), "to" := JNum(e.to)])
  }

  function EncodeEdges(edges: seq<Edge>): (vs: seq<JsonValue>)
    ensures |vs| == |edges|
  {
    seq(|edges|, i requires 0 <= i < |edges| => EncodeEdge(edges[i]))
  }

  /** The tool file `{"name": …, "stateCount": …, "edges": [{"from": …, "to": …}, …]}`. */
  function Encode(t: TransitionTool): JsonValue {
    JObj(map[
      "name" := JStr(t.name),
      "stateCount" := JNum(t.stateCount),
      "edges" := JArr(EncodeEdges(t.edges))])
  }

  function DecodeEdge(v: JsonValue): Option<Edge> {
    match (Prop(v, "from"), Prop(v, "to"))
    case (Some(JNum(f)), Some(JNum(t))) => Some(Edge(f, t))
    case _ => None
  }

  /** Reads every edge of an array, or nothing when one of them is not a
      `{from, to}` pair of numbers. */
  function DecodeEdges(vs: seq<JsonValue>): (r: Option<seq<Edge>>)
    ensures r.Some? <==> forall i :: 0 <= i < |vs| ==> DecodeEdge(vs[i]).Some?
    ensures r.Some? ==> |r.value| == |vs| && forall i :: 0 <= i < |vs| ==> DecodeEdge(vs[i]) == Some(r.value[i])
  {
    if |vs| == 0 then Some([])
    else
      assert forall i :: 1 <= i < |vs| ==> vs[i] == vs[1..][i - 1];
      match (DecodeEdge(vs[0]), DecodeEdges(vs[1..]))
      case (Some(e), Some(es)) => Some([e] + es)
      case _ => None
  }

  /** The `stateCount` and `edges` a parsed value carries when both have
      their declared types. */
  function Shape(v: JsonValue): Option<(real, seq<Edge>)> {
    match (Prop(v, "stateCount"), Prop(v, "edges"))
    case (Some(JNum(n)), Some(JArr(es))) =>
      (match DecodeEdges(es)
       case Some(edges) => Some((n, edges))
       case None => None)
    case _ => None
  }

  /** `every` over an array passes exactly when the array reads as edges
      that all lie in `[0, n)`. */
  lemma DecodeEdgesAgrees(es: seq<JsonValue>, n: real)
    ensures JsEvery(es, n) == Pass <==>
      DecodeEdges(es).Some? && forall i :: 0 <= i < |es| ==> EdgeInRange(DecodeEdges(es).value[i], n)
  {
    if JsEvery(es, n) == Pass {
      assert forall i :: 0 <= i < |es| ==> DecodeEdge(es[i]).Some? by {
        forall i | 0 <= i < |es| ensures DecodeEdge(es[i]).Some? {
          assert JsEdgeOk(es[i], n);
        }
      }
    }
    if DecodeEdges(es).Some? && forall i :: 0 <= i < |es| ==> EdgeInRange(DecodeEdges(es).value[i], n) {
      forall i | 0 <= i < |es| ensures JsEdgeOk(es[i], n) {
        assert DecodeEdge(es[i]) == Some(DecodeEdges(es).value[i]);
      }
    }
  }

  /** Reads a tool from a parsed value whose fields have the declared types. */
  function Decode(v: JsonValue): Option<TransitionTool> {
    match (Prop(v, "name"), Prop(v, "stateCount"), Prop(v, "edges"))
    case (Some(JStr(name)), Some(JNum(n)), Some(JArr(es))) =>
      (match DecodeEdges(es)
       case Some(edges) => Some(TransitionTool(name, n, edges))
       case None => None)
    case _ => None
  }

  /** Reading written edges back gives the edges. */
  lemma DecodeEncodeEdges(edges: seq<Edge>)
    ensures DecodeEdges(EncodeEdges(edges)) == Some(edges)
  {
    var vs := EncodeEdges(edges);
    forall i | 0 <= i < |vs| ensures DecodeEdge(vs[i]) == Some(edges[i]) {
      assert Prop(vs[i], "from") == Some(JNum(edges[i].from));
      assert Prop(vs[i], "to") == Some(JNum(edges[i].to));
    }
    assert DecodeEdges(vs).Some?;
    var r := DecodeEdges(vs).value;
    assert |r| == |edges|;
    assert forall i :: 0 <= i < |edges| ==> r[i] == edges[i];
    assert r == edges;
  }

  /** Reading a tool file back gives the tool that was written. */
  lemma DecodeEncode(t: TransitionTool)
    ensures Decode(Encode(t)) == Some(t)
  {
    var v := Encode(t);
    var es := EncodeEdges(t.edges);
    assert Prop(v, "name") == Some(JStr(t.name));
    assert Prop(v, "stateCount") == Some(JNum(t.stateCount));
    assert Prop(v, "edges") == Some(JArr(es));
    DecodeEncodeEdges(t.edges);
  }

  lemma {:induction false} JsEveryEncoded(edges: seq<Edge>, n: real)
    ensures JsEvery(EncodeEdges(edges), n) ==
      if forall i :: 0 <= i < |edges| ==> EdgeInRange(edges[i], n) then Pass else Fail
    decreases |edges|
  {
    var vs := EncodeEdges(edges);
    if |edges| > 0 {
      assert vs[1..] == EncodeEdges(edges[1..]);
      JsEveryEncoded(edges[1..], n);
      assert Prop(vs[0], "from") == Some(JNum(edges[0].from));
      assert Prop(vs[0], "to") == Some(JNum(edges[0].to));
      if EdgeInRange(edges[0], n) {
        assert forall i :: 1 <= i < |edges| ==> edges[i] == edges[1..][i - 1];
      }
    }
  }

  /** On a well-typed tool file the JavaScript check and the typed validity
      agree, and the JavaScript check never throws. */
  lemma JsIsToolValidEncoded(t: TransitionTool)
    ensures JsIsToolValid(Encode(t)) == if IsToolValid(t) then Pass else Fail
  {
    var v := Encode(t);
    var es := EncodeEdges(t.edges);
    assert Prop(v, "stateCount") == Some(JNum(t.stateCount));
    assert Prop(v, "edges") == Some(JArr(es));
    JsEveryEncoded(t.edges, t.stateCount);
  }

  lemma {:induction false} JsEveryPassDecodes(es: seq<JsonValue>, n: real)
    requires JsEvery(es, n) == Pass
    ensures DecodeEdges(es).Some?
    ensures |DecodeEdges(es).value| == |es|
    ensures forall i :: 0 <= i < |es| ==> EdgeInRange(DecodeEdges(es).value[i], n)
    decreases |es|
  {
    if |es| > 0 {
      JsEveryPassDecodes(es[1..], n);
      var rest := DecodeEdges(es[1..]).value;
      var e := DecodeEdge(es[0]).value;
      assert DecodeEdges(es).value == [e] + rest;
      assert forall i :: 1 <= i < |es| ==> DecodeEdges(es).value[i] == rest[i - 1];
    }
  }

  // ---------------------------------------------------------------------
  // Single upload

  /** The decision of `handleFileUpload` after parsing: the guards on `name`,
      `stateCount` and `edges` in that order, then `isToolValid`; the value
      imported is the parsed value itself. */
  datatype Upload = Imported(tool: JsonValue) | Refused(failure: Failure)

  predicate NameOk(v: JsonValue) {
    Truthy(Prop(v, "name")) && Prop(v, "name").value.JStr?
  }

  predicate StateCountOk(v: JsonValue) {
    Truthy(Prop(v, "stateCount")) && Prop(v, "stateCount").value.JNum?
  }

  function SingleUpload(parsed: JsonValue): (r: Upload)
    ensures parsed.JNull? ==> r == Refused(TypeError)
    ensures !parsed.JNull? && !NameOk(parsed) ==> r == Refused(MissingName)
    ensures !parsed.JNull? && NameOk(parsed) && !StateCountOk(parsed) ==> r == Refused(MissingStateCount)
    ensures !parsed.JNull? && NameOk(parsed) && StateCountOk(parsed) && !Truthy(Prop(parsed, "edges")) ==>
      r == Refused(MissingEdges)
    ensures r.Imported? ==> r.tool == parsed && JsIsToolValid(parsed) == Pass
    ensures r.Imported? <==>
      !parsed.JNull? && NameOk(parsed) && StateCountOk(parsed) && Truthy(Prop(parsed, "edges")) &&
      JsIsToolValid(parsed) == Pass
  {
    if parsed.JNull? then Refused(TypeError)
    else if !Truthy(Prop(parsed, "name")) || !Prop(parsed, "name").value.JStr? then Refused(MissingName)
    else if !Truthy(Prop(parsed, "stateCount")) || !Prop(parsed, "stateCount").value.JNum? then Refused(MissingStateCount)
    else if !Truthy(Prop(parsed, "edges")) then Refused(MissingEdges)
    else
      match JsIsToolValid(parsed)
      case Pass => Imported(parsed)
      case Fail => Refused(InvalidTool)
      case Throw => Refused(TypeError)
  }

  /** What is imported is a tool with a name that passes `isToolValid`. */
  lemma ImportedIsValid(parsed: JsonValue)
    requires SingleUpload(parsed).Imported?
    ensures Decode(parsed).Some?
    ensures Decode(parsed).value.name != ""
    ensures IsToolValid(Decode(parsed).value)
  {
    var es := Prop(parsed, "edges").value.elems;
    var n := Prop(parsed, "stateCount").value.n;
    JsEveryPassDecodes(es, n);
  }

  /** A written tool file is accepted exactly when the tool has a name and
      is valid. */
  lemma SingleUploadEncoded(t: TransitionTool)
    ensures SingleUpload(Encode(t)).Imported? <==> t.name != "" && IsToolValid(t)
  {
    JsIsToolValidEncoded(t);
    var v := Encode(t);
    assert Prop(v, "name") == Some(JStr(t.name));
    assert Prop(v, "stateCount") == Some(JNum(t.stateCount));
  }

  // ---------------------------------------------------------------------
  // Batch upload

  /** The outcome of `handleBatchUpload` on a parsed array. */
  datatype Batch = BatchImported(tools: seq<JsonValue>) | BatchRefused(failure: Failure)

  /** An element that stops the batch: `isToolValid` is false or throws. */
  predicate Blocks(v: JsonValue) {
    JsIsToolValid(v) != Pass
  }

  /** The batch decision: the whole list when every element passes, else the
      first element that does not, by index. */
  function BatchDecision(parsed: seq<JsonValue>): Batch {
    match FirstWhere(parsed, Blocks)
    case None => BatchImported(parsed)
    case Some(k) => if JsIsToolValid(parsed[k]) == Fail then BatchRefused(InvalidToolAt(k)) else BatchRefused(TypeError)
  }

  /** All or nothing: the list is accepted unchanged exactly when every
      element passes; a refusal by index names the first failing element;
      any other refusal is a `TypeError` thrown by the first element that
      does not pass. */
  lemma BatchDecisionSpec(parsed: seq<JsonValue>)
    ensures BatchDecision(parsed).BatchImported? <==> forall i :: 0 <= i < |parsed| ==> JsIsToolValid(parsed[i]) == Pass
    ensures BatchDecision(parsed).BatchImported? ==> BatchDecision(parsed).tools == parsed
    ensures BatchDecision(parsed).BatchRefused? ==>
      match BatchDecision(parsed).failure
      case InvalidToolAt(k) =>
        k < |parsed| && JsIsToolValid(parsed[k]) == Fail &&
        forall i :: 0 <= i < k ==> JsIsToolValid(parsed[i]) == Pass
      case TypeError =>
        exists k :: 0 <= k < |parsed| && JsIsToolValid(parsed[k]) == Throw &&
          forall i :: 0 <= i < k ==> JsIsToolValid(parsed[i]) == Pass
      case _ => false
  {
    match FirstWhere(parsed, Blocks)
    case None =>
      assert forall i :: 0 <= i < |parsed| ==> !Blocks(parsed[i]);
    case Some(k) =>
      assert Blocks(parsed[k]);
      assert forall i :: 0 <= i < k ==> !Blocks(parsed[i]);
  }

  /** The loop of `handleBatchUpload`, stopping at the first element that
      does not pass. */
  method ValidateBatch(parsed: seq<JsonValue>) returns (r: Batch)
    ensures r == BatchDecision(parsed)
  {
    var i := 0;
    while i < |parsed|
      invariant 0 <= i <= |parsed|
      invariant forall j :: 0 <= j < i ==> !Blocks(parsed[j])
    {
      var check := JsIsToolValid(parsed[i]);
      if check == Throw {
        FirstWhereAt(parsed, Blocks, i);
        return BatchRefused(TypeError);
      } else if check == Fail {
        FirstWhereAt(parsed, Blocks, i);
        return BatchRefused(InvalidToolAt(i));
      }
      i := i + 1;
    }
    return BatchImported(parsed);
  }

  // ---------------------------------------------------------------------
  // The panel's state

  /** The tool manager panel: its `errorMessage` state; `importTool` and
      `importTools` are the values its upload handlers return. */
  class TransitionToolManager {
    var errorMessage: Option<Failure>

    constructor ()
      ensures errorMessage == None
    {
      errorMessage := None;
    }

    /** `handleFileUpload` once the file is parsed: import and clear the
        error, or set the error and import nothing. */
    method HandleFileUpload(parsed: JsonValue) returns (imported: Option<JsonValue>)
      modifies this
      ensures SingleUpload(parsed).Imported? ==> imported == Some(parsed) && errorMessage == None
      ensures SingleUpload(parsed).Refused? ==>
        imported == None && errorMessage == Some(SingleUpload(parsed).failure)
    {
      var decision := SingleUpload(parsed);
      match decision
      case Imported(tool) =>
        imported := Some(tool);
        errorMessage := None;
      case Refused(failure) =>
        imported := None;
        errorMessage := Some(failure);
    }

    /** `handleBatchUpload` once the file is parsed: on success the list is
        imported unchanged and the error message is left as it was. */
    method HandleBatchUpload(parsed: seq<JsonValue>) returns (imported: Option<seq<JsonValue>>)
      modifies this
      ensures BatchDecision(parsed).BatchImported? ==>
        imported == Some(parsed) && errorMessage == old(errorMessage)
      ensures BatchDecision(parsed).BatchRefused? ==>
        imported == None && errorMessage == Some(BatchDecision(parsed).failure)
    {
      var decision := ValidateBatch(parsed);
      match decision
      case BatchImported(tools) =>
        imported := Some(tools);
      case BatchRefused(failure) =>
        imported := None;
        errorMessage := Some(failure);
    }
  }

  // ---------------------------------------------------------------------
  // The example tool shown in the instructions

  /** `exampleTool`: a single self-loop on one state. */
  const ExampleTool: TransitionTool := TransitionTool("loop", 1.0, [Edge(0.0, 0.0)])

  /** The example is a valid tool, its file is accepted, and applying it to
      one state makes a self-loop while two states are a mismatch. */
  lemma ExampleToolBehaviour()
    ensures IsToolValid(ExampleTool)
    ensures SingleUpload(Encode(ExampleTool)).Imported?
    ensures ApplyTool(ExampleTool, ["s1"]) == Applied([TransitionEdge("s1", "s1")])
    ensures ApplyTool(ExampleTool, ["s1", "s2"]) == Mismatch
  {
    SingleUploadEncoded(ExampleTool);
    assert ExampleTool.edges[0].from.Floor == 0;
  }
}
