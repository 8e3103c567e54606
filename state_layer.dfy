/** The callbacks the state layer hands to each rendered state
    (src/components/StateLayer.tsx): drag snapping, position and
    accepting-flag patches, and deletion. Patches are what the layer passes
    to `onStatesChange`; deletion returns the new table and selection that
    it passes to `setStates` and `setSelected`. */
module StateLayer {
  import opened Records
  import opened Automaton
  import opened Regularizer

  /** `dragRegularizer`: the grid regulariser over the layer's whole table. */
  method DragRegularizer(states: Record<StateProps>, state: StateProps, x: real, y: real) returns (r: Regularized)
    ensures r == Regularize(Some(state), states, x, y)
  {
    r := GridRegularizer(Some(state), states, x, y);
  }

  /** `onPositionChange`: nothing for a rejected position, otherwise a
      one-entry patch moving the state and changing nothing else. */
  function OnPositionChange(state: StateProps, newPos: Option<Position>): (patch: Option<Record<StateProps>>)
    ensures patch.None? <==> newPos.None?
    ensures patch.Some? ==>
      |patch.value| == 1 && patch.value[0].key == state.id &&
      patch.value[0].value.position == newPos.value &&
      patch.value[0].value.(position := state.position) == state
  {
    match newPos
    case None => None
    case Some(p) => Some([Entry(state.id, state.(position := p))])
  }

  /** Moving to where the state already is leaves it as it was. */
  lemma OnPositionChangeInPlace(state: StateProps)
    ensures OnPositionChange(state, Some(state.position)) == Some([Entry(state.id, state)])
  {
  }

  /** `onDoubleClick`: a one-entry patch flipping `isAccepting` only. */
  function OnDoubleClick(state: StateProps): (patch: Record<StateProps>)
    ensures |patch| == 1 && patch[0].key == state.id
    ensures patch[0].value.isAccepting == !state.isAccepting
    ensures patch[0].value.(isAccepting := state.isAccepting) == state
  {
    [Entry(state.id, state.(isAccepting := !state.isAccepting))]
  }

  /** Double-clicking twice restores the state. */
  lemma OnDoubleClickTwice(state: StateProps)
    ensures OnDoubleClick(OnDoubleClick(state)[0].value) == [Entry(state.id, state)]
  {
  }

  /** The table `deleteState` builds: every entry whose key is not `id`, in
      the original order. */
  function Without(states: seq<Entry<StateProps>>, id: string): (r: seq<Entry<StateProps>>)
    ensures forall k :: k in Keys(r) <==> k in Keys(states) && k != id
    ensures forall e :: e in r ==> e in states
    ensures DistinctKeys(states) ==> DistinctKeys(r)
  {
    if |states| == 0 then []
    else
      var init, last := states[..|states| - 1], states[|states| - 1];
      assert Keys(states) == Keys(init) + [last.key];
      var rest := Without(init, id);
      if last.key != id then
        assert Keys(rest + [last]) == Keys(rest) + [last.key];
        assert DistinctKeys(states) ==> DistinctKeys(init) && last.key !in Keys(init);
        if DistinctKeys(states) then
          DistinctAppend(rest, last);
          rest + [last]
        else rest + [last]
      else rest
  }

  /** Reading any other key of the new table finds the old value; the
      deleted key is gone. */
  lemma WithoutGet(states: Record<StateProps>, id: string, k: string)
    ensures Get(Without(states, id), k) == if k == id then None else Get(states, k)
  {
    var r := Without(states, id);
    if k != id && k in Keys(states) {
      var i :| 0 <= i < |r| && r[i].key == k;
      assert r[i] in states;
      var j :| 0 <= j < |states| && states[j] == r[i];
      GetAt(r, i);
      GetAt(states, j);
    }
  }

  /** The new table is one entry shorter exactly when the key was present. */
  lemma {:induction false} WithoutSize(states: Record<StateProps>, id: string)
    ensures |Without(states, id)| == if id in Keys(states) then |states| - 1 else |states|
  {
    if |states| > 0 {
      var init, last := states[..|states| - 1], states[|states| - 1];
      assert Keys(states) == Keys(init) + [last.key];
      WithoutSize(init, id);
    }
  }

  /** Every key of `ks` but `id`, in order. */
  function Remove(ks: seq<string>, id: string): seq<string> {
    if |ks| == 0 then []
    else if ks[0] == id then Remove(ks[1..], id)
    else [ks[0]] + Remove(ks[1..], id)
  }

  lemma {:induction false} RemoveAppend(a: seq<string>, b: seq<string>, id: string)
    ensures Remove(a + b, id) == Remove(a, id) + Remove(b, id)
  {
    if |a| == 0 {
      assert a + b == b;
    } else {
      assert (a + b)[1..] == a[1..] + b;
      RemoveAppend(a[1..], b, id);
    }
  }

  /** The remaining entries keep their iteration order: the new table's keys
      are the old keys with `id` taken out. */
  lemma {:induction false} WithoutKeepsOrder(states: seq<Entry<StateProps>>, id: string)
    ensures Keys(Without(states, id)) == Remove(Keys(states), id)
  {
    if |states| > 0 {
      var init, last := states[..|states| - 1], states[|states| - 1];
      assert Keys(states) == Keys(init) + [last.key];
      WithoutKeepsOrder(init, id);
      RemoveAppend(Keys(init), [last.key], id);
      var rest := Without(init, id);
      assert Keys(rest + [last]) == Keys(rest) + [last.key];
      assert [last.key][1..] == [];
    }
  }

  /** `deleteState`: copy every entry but the state's own into a new table,
      then clear the selection. */
  method DeleteState(states: Record<StateProps>, state: StateProps)
    returns (remaining: Record<StateProps>, selected: Option<string>)
    ensures remaining == Without(states, state.id)
    ensures selected == None
  {
    var acc: seq<Entry<StateProps>> := [];
    var k := 0;
    while k < |states|
      invariant 0 <= k <= |states|
      invariant acc == Without(states[..k], state.id)
    {
      assert states[..k + 1][..k] == states[..k];
      if states[k].key != state.id {
        acc := acc + [states[k]];
      }
      k := k + 1;
    }
    assert states[..|states|] == states;
    remaining := acc;
    selected := None;
  }
}
