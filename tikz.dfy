/** Export of the automaton as a TikZ picture (src/components/tikz.ts). Number
    formatting inside the template literals is the parameter `fmt`. */
module Tikz {
  import opened Records
  import opened JsNumber
  import opened Strings
  import opened Automaton

  /** How node names are derived from state keys: the key itself, `q0, q1, …`
      in iteration order, or the key cut to `Math.round(n)` characters. */
  datatype MapOption = Identity | Rearrange | Truncate(n: real)

  /** `getTikzStateType`: the node style of a state. */
  function TikzStateType(p: StateProps): (r: string)
    ensures "state" <= r
    ensures Contains(r, "accepting") <==> p.isAccepting
  {
    if p.isAccepting then
      var r := "state, accepting";
      assert OccursAt(r, "accepting", 7);
      r
    else "state"
  }

  /** The name `getIDMap` gives the key met at iteration step `i`. */
  function NodeName(option: MapOption, key: string, i: nat): string {
    match option
    case Identity => key
    case Rearrange => "q" + NatToString(i)
    case Truncate(n) => SlicePrefix(key, Round(n))
  }

  /** The mapping `getIDMap` builds: one entry per state key, in order. */
  function IDMap(states: seq<Entry<StateProps>>, option: MapOption): seq<Entry<string>> {
    seq(|states|, i requires 0 <= i < |states| => Entry(states[i].key, NodeName(option, states[i].key, i)))
  }

  /** `getIDMap`: the `for…in` loop filling `mapping` and counting with `i`. */
  method GetIDMap(states: Record<StateProps>, option: MapOption) returns (mapping: Record<string>)
    ensures mapping == IDMap(states, option)
  {
    var m: seq<Entry<string>> := [];
    var i := 0;
    var k := 0;
    while k < |states|
      invariant 0 <= k <= |states|
      invariant m == IDMap(states[..k], option)
      invariant option.Rearrange? ==> i == k
    {
      var key := states[k].key;
      if option.Identity? {
        m := m + [Entry(key, key)];
      } else if option.Rearrange? {
        m := m + [Entry(key, "q" + NatToString(i))];
        i := i + 1;
      } else {
        m := m + [Entry(key, SlicePrefix(key, Round(option.n)))];
      }
      k := k + 1;
    }
    assert states[..|states|] == states;
    mapping := m;
  }

  /** The mapping has exactly the keys of the state table, in the same order. */
  lemma IDMapKeys(states: Record<StateProps>, option: MapOption)
    ensures Keys(IDMap(states, option)) == Keys(states)
    ensures DistinctKeys(IDMap(states, option))
  {
  }

  /** Under `"identity"` every key names itself. */
  lemma IDMapIdentity(states: Record<StateProps>, k: string)
    requires k in Keys(states)
    ensures Get(IDMap(states, Identity), k) == Some(k)
  {
    var i :| 0 <= i < |states| && Keys(states)[i] == k;
    GetAt(IDMap(states, Identity), i);
  }

  /** Under `"rearrange"` the `i`-th key is named `q<i>`, so no two states
      share a name. */
  lemma IDMapRearrange(states: Record<StateProps>, i: nat)
    requires i < |states|
    ensures Get(IDMap(states, Rearrange), states[i].key) == Some("q" + NatToString(i))
    ensures forall j :: 0 <= j < |states| && j != i ==>
      IDMap(states, Rearrange)[j].value != IDMap(states, Rearrange)[i].value
  {
    GetAt(IDMap(states, Rearrange), i);
    forall j | 0 <= j < |states| && j != i
      ensures IDMap(states, Rearrange)[j].value != IDMap(states, Rearrange)[i].value
    {
      NatToStringInjective(j, i);
      var a, b := NatToString(j), NatToString(i);
      assert ("q" + a)[1..] == a && ("q" + b)[1..] == b;
    }
  }

  /** Under a number `n` every key is cut to its first `Math.round(n)`
      characters (a negative count cuts from the end, as `slice` does). */
  lemma IDMapTruncate(states: Record<StateProps>, n: real, k: string)
    requires k in Keys(states)
    ensures Get(IDMap(states, Truncate(n)), k) == Some(SlicePrefix(k, Round(n)))
    ensures SlicePrefix(k, Round(n)) <= k
  {
    var i :| 0 <= i < |states| && Keys(states)[i] == k;
    GetAt(IDMap(states, Truncate(n)), i);
  }

  /** A mapping read; a missing id renders as `undefined` in a template literal. */
  function NameOf(mapping: seq<Entry<string>>, id: string): string {
    match Get(mapping, id)
    case Some(name) => name
    case None => "undefined"
  }

  /** `getTikzStateString`: one `\node` line, placing the state at
      `(x * scale, -y * scale)` (TikZ's y axis points up, the board's down). */
  function TikzStateString(p: StateProps, mapping: seq<Entry<string>>, scale: real, fmt: real -> string): (r: string)
    ensures "\\node[" + TikzStateType(p) + "] (" + NameOf(mapping, p.id) + ")" <= r
    ensures Contains(r, " at (" + fmt(p.position.x * scale) + ", " + fmt(-p.position.y * scale) + ") ")
    ensures EndsWith(r, "{$ " + p.labelText + " $};\n")
  {
    var head := "\\node[" + TikzStateType(p) + "] (" + NameOf(mapping, p.id) + ")";
    var at := " at (" + fmt(p.position.x * scale) + ", " + fmt(-p.position.y * scale) + ") ";
    var tail := "{$ " + p.labelText + " $};\n";
    var r := head + at + tail;
    assert r[|head|..|head| + |at|] == at;
    assert OccursAt(r, at, |head|);
    r
  }

  /** The `\node` lines of `states`, in iteration order. */
  function Nodes(states: seq<Entry<StateProps>>, mapping: seq<Entry<string>>, scale: real, fmt: real -> string): string {
    ConcatMap(states, (e: Entry<StateProps>) => TikzStateString(e.value, mapping, scale, fmt))
  }

  /** One more state adds its line at the end. */
  lemma NodesSnoc(states: seq<Entry<StateProps>>, k: nat, mapping: seq<Entry<string>>, scale: real, fmt: real -> string)
    requires k < |states|
    ensures Nodes(states[..k + 1], mapping, scale, fmt) ==
      Nodes(states[..k], mapping, scale, fmt) + TikzStateString(states[k].value, mapping, scale, fmt)
  {
    assert states[..k + 1][..k] == states[..k];
  }

  /** `getTikzNodes`: the loop appending one line per state. */
  method GetTikzNodes(states: Record<StateProps>, mapping: Record<string>, fmt: real -> string, scale: real := 1.0)
    returns (nodes: string)
    ensures nodes == Nodes(states, mapping, scale, fmt)
  {
    nodes := "";
    var k := 0;
    while k < |states|
      invariant 0 <= k <= |states|
      invariant nodes == Nodes(states[..k], mapping, scale, fmt)
    {
      NodesSnoc(states, k, mapping, scale, fmt);
      nodes := nodes + TikzStateString(states[k].value, mapping, scale, fmt);
      k := k + 1;
    }
    assert states[..|states|] == states;
  }

  /** The `(name)` reference to a state's node. */
  function NodeRef(mapping: seq<Entry<string>>, id: string): string {
    "(" + NameOf(mapping, id) + ")"
  }

  /** `getTikzTransitionString`: a self-loop is drawn `loop above` with an
      empty target; any other edge points at the target's node. */
  function TikzTransitionString(t: TransitionProps, mapping: seq<Entry<string>>): (r: string)
    ensures t.fromID == t.toID ==>
      NodeRef(mapping, t.fromID) + " edge[loop above]" <= r && EndsWith(r, " ()")
    ensures t.fromID != t.toID ==>
      NodeRef(mapping, t.fromID) + " edge node" <= r && EndsWith(r, " " + NodeRef(mapping, t.toID))
  {
    if t.fromID == t.toID then
      var head := NodeRef(mapping, t.fromID) + " edge[loop above]";
      var body := " node {$ " + t.labelText + " $}";
      PrefixOfConcat(head, body + " ()");
      EndsWithConcat(head + body, " ()");
      assert head + (body + " ()") == head + body + " ()";
      head + body + " ()"
    else
      var head := NodeRef(mapping, t.fromID) + " edge node";
      var body := " {$ " + t.labelText + " $}";
      var target := " " + NodeRef(mapping, t.toID);
      PrefixOfConcat(head, body + target);
      EndsWithConcat(head + body, target);
      assert head + (body + target) == head + body + target;
      head + body + target
  }

  /** One newline-prefixed edge per transition, in iteration order. */
  function EdgeLines(transitions: seq<Entry<TransitionProps>>, mapping: seq<Entry<string>>): string {
    ConcatMap(transitions, (e: Entry<TransitionProps>) => "\n" + TikzTransitionString(e.value, mapping))
  }

  /** One more transition adds a newline and its edge at the end. */
  lemma EdgeLinesSnoc(transitions: seq<Entry<TransitionProps>>, k: nat, mapping: seq<Entry<string>>)
    requires k < |transitions|
    ensures EdgeLines(transitions[..k + 1], mapping) ==
      EdgeLines(transitions[..k], mapping) + ("\n" + TikzTransitionString(transitions[k].value, mapping))
  {
    assert transitions[..k + 1][..k] == transitions[..k];
  }

  /** The `\path[->] … ;` block. */
  function Paths(transitions: seq<Entry<TransitionProps>>, mapping: seq<Entry<string>>): string {
    "\\path[->]" + EdgeLines(transitions, mapping) + ";\n"
  }

  /** `getTikzPaths`: the loop appending a newline and an edge per transition. */
  method GetTikzPaths(transitions: Record<TransitionProps>, mapping: Record<string>) returns (paths: string)
    ensures paths == Paths(transitions, mapping)
    ensures "\\path[->]" <= paths && EndsWith(paths, ";\n")
  {
    paths := "\\path[->]";
    var k := 0;
    while k < |transitions|
      invariant 0 <= k <= |transitions|
      invariant paths == "\\path[->]" + EdgeLines(transitions[..k], mapping)
    {
      ghost var before := paths;
      paths := paths + "\n";
      var prop := transitions[k].value;
      var tikzString := TikzTransitionString(prop, mapping);
      paths := paths + tikzString;
      EdgeLinesSnoc(transitions, k, mapping);
      assert paths == before + ("\n" + tikzString);
      k := k + 1;
    }
    assert transitions[..|transitions|] == transitions;
    PrefixOfConcat("\\path[->]", EdgeLines(transitions, mapping) + ";\n");
    EndsWithConcat(paths, ";\n");
    paths := paths + ";\n";
  }

  const Header: string := "\\begin{tikzpicture}[shorten >=1pt, node distance=5cm, on grid, auto]\n"
  const Footer: string := "\\end{tikzpicture}"

  /** `getTikzFromAutomata`: header, node lines, path block and footer, with
      node names from `getIDMap` (by default `q0, q1, …`) and scale 1. */
  method GetTikzFromAutomata(states: Record<StateProps>, transitions: Record<TransitionProps>, fmt: real -> string,
                             option: MapOption := Rearrange, scale: real := 1.0)
    returns (tikz: string)
    ensures tikz == Header + Nodes(states, IDMap(states, option), scale, fmt) + Paths(transitions, IDMap(states, option)) + Footer
    ensures Header <= tikz && EndsWith(tikz, Footer)
  {
    var mapping := GetIDMap(states, option);
    var header := Header;
    var footer := Footer;
    var nodes := GetTikzNodes(states, mapping, fmt, scale);
    var paths := GetTikzPaths(transitions, mapping);
    tikz := header + nodes + paths + footer;
  }
}
