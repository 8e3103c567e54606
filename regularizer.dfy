/** Snap-to-grid placement with collision detection and the merge proposal a
    dummy state makes when it is dropped on an occupied cell
    (src/components/regularizer.ts). */
module Regularizer {
  import opened Records
  import opened JsNumber
  import opened Automaton

  /** `new RegularizerAction(action, {from, to}, x, y)`; the two entries of
      its `args` record are kept as the fields `from` and `to`. */
  datatype RegularizerAction = RegularizerAction(action: string, from: string, to: string, x: real, y: real)

  /** The three answers of the regulariser: the snapped position, `null`, or
      a merge action. */
  datatype Regularized = Placed(pos: Position) | Rejected | Merge(act: RegularizerAction)

  /** The lattice point nearest to `(x, y)`. */
  function Snap(x: real, y: real): Position {
    Position(Round(x) as real, Round(y) as real)
  }

  /** Entry `e` sits on `cell` and is not the moving state itself (a new
      state, `mover == None`, has no self to skip). */
  predicate Collides(mover: Option<StateProps>, e: Entry<StateProps>, cell: Position) {
    (mover.None? || e.value.id != mover.value.id) && e.value.position == cell
  }

  /** The first entry in iteration order that the snapped point collides with. */
  function FirstCollision(mover: Option<StateProps>, states: seq<Entry<StateProps>>, cell: Position): Option<nat> {
    FirstWhere(states, (e: Entry<StateProps>) => Collides(mover, e, cell))
  }

  /** What `gridRegularizer(mover, states, x, y)` returns. */
  function Regularize(mover: Option<StateProps>, states: seq<Entry<StateProps>>, x: real, y: real): (r: Regularized)
    ensures r.Placed? <==> forall j :: 0 <= j < |states| ==> !Collides(mover, states[j], Snap(x, y))
    ensures r.Placed? ==> r.pos == Snap(x, y) && IsInteger(r.pos.x) && IsInteger(r.pos.y)
    ensures r.Rejected? <==>
      (exists j :: 0 <= j < |states| && Collides(mover, states[j], Snap(x, y))) &&
      (mover.None? || !mover.value.isDummy)
    ensures r.Merge? <==>
      (exists j :: 0 <= j < |states| && Collides(mover, states[j], Snap(x, y))) &&
      mover.Some? && mover.value.isDummy
    ensures r.Merge? ==>
      r.act.action == "merge" && r.act.from == mover.value.id &&
      Position(r.act.x, r.act.y) == Snap(x, y) &&
      exists j :: 0 <= j < |states| && states[j].key == r.act.to &&
        Collides(mover, states[j], Snap(x, y)) &&
        forall i :: 0 <= i < j ==> !Collides(mover, states[i], Snap(x, y))
  {
    var cell := Snap(x, y);
    match FirstCollision(mover, states, cell)
    case None => Placed(cell)
    case Some(k) =>
      if mover.None? || !mover.value.isDummy then Rejected
      else Merge(RegularizerAction("merge", mover.value.id, states[k].key, cell.x, cell.y))
  }

  /** `gridRegularizer`: the `for…in` scan with its early returns. */
  method GridRegularizer(state: Option<StateProps>, states: Record<StateProps>, x: real, y: real)
    returns (r: Regularized)
    ensures r == Regularize(state, states, x, y)
  {
    var regularized := Snap(x, y);
    var i := 0;
    while i < |states|
      invariant 0 <= i <= |states|
      invariant forall j :: 0 <= j < i ==> !Collides(state, states[j], regularized)
    {
      var s := states[i].value;
      if (state.None? || s.id != state.value.id) &&
         s.position.x == regularized.x && s.position.y == regularized.y
      {
        if state.None? || !state.value.isDummy {
          return Rejected;
        } else {
          return Merge(RegularizerAction("merge", state.value.id, states[i].key, regularized.x, regularized.y));
        }
      }
      i := i + 1;
    }
    return Placed(regularized);
  }

  /** Snapping is idempotent: asking again at the snapped point gives the
      same answer, whether that answer was a position, `null` or a merge. */
  lemma SnapIsStable(mover: Option<StateProps>, states: seq<Entry<StateProps>>, x: real, y: real)
    ensures Regularize(mover, states, Round(x) as real, Round(y) as real) == Regularize(mover, states, x, y)
  {
    RoundWhole(Round(x));
    RoundWhole(Round(y));
    assert Snap(Round(x) as real, Round(y) as real) == Snap(x, y);
  }

  /** `updateStatesByAction`: the patch a merge action makes on the state
      table. When the mover's id and the target key coincide, the object
      literal's second entry overwrites the first. Any other action yields
      the empty patch. */
  function UpdateStatesByAction(state: StateProps, states: Record<StateProps>, action: RegularizerAction)
    : (patch: Record<StateProps>)
    requires action.action == "merge" ==> action.to in Keys(states)
    ensures action.action != "merge" ==> patch == []
    ensures action.action == "merge" && state.id != action.to ==>
      |patch| == 2 &&
      patch[0].key == state.id &&
      patch[0].value.merged == Some(action.to) &&
      patch[0].value.position == Position(action.x, action.y) &&
      patch[0].value.(merged := state.merged, position := state.position) == state &&
      patch[1].key == action.to &&
      patch[1].value.mergedBy &&
      patch[1].value.(mergedBy := Get(states, action.to).value.mergedBy) == Get(states, action.to).value
    ensures action.action == "merge" && state.id == action.to ==>
      patch == [Entry(action.to, Get(states, action.to).value.(mergedBy := true))]
  {
    if action.action == "merge" then
      var toID := action.to;
      var mover := state.(merged := Some(toID), position := Position(action.x, action.y));
      var target := Get(states, toID).value.(mergedBy := true);
      if state.id == toID then [Entry(toID, target)]
      else [Entry(state.id, mover), Entry(toID, target)]
    else
      []
  }

  /** Every entry is stored under its own id, as the editor keeps its table. */
  predicate KeyedById(states: seq<Entry<StateProps>>) {
    forall i :: 0 <= i < |states| ==> states[i].key == states[i].value.id
  }

  /** Dropping a dummy state on an occupied cell and applying the proposal:
      the patch has two entries, the dummy now merged into the occupant and
      placed on its cell, and the occupant flagged as a merge target. */
  lemma MergeProposalPatch(state: StateProps, states: Record<StateProps>, x: real, y: real)
    requires KeyedById(states)
    requires Regularize(Some(state), states, x, y).Merge?
    ensures var a := Regularize(Some(state), states, x, y).act;
      a.to in Keys(states) &&
      var patch := UpdateStatesByAction(state, states, a);
      |patch| == 2 &&
      patch[0] == Entry(state.id, state.(merged := Some(a.to), position := Snap(x, y))) &&
      Get(states, a.to).value.position == Snap(x, y) &&
      patch[1] == Entry(a.to, Get(states, a.to).value.(mergedBy := true))
  {
    var a := Regularize(Some(state), states, x, y).act;
    var j :| 0 <= j < |states| && states[j].key == a.to && Collides(Some(state), states[j], Snap(x, y));
    assert a.to in Keys(states) by {
      assert Keys(states)[j] == a.to;
    }
    GetAt(states, j);
  }
}
