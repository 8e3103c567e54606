/** The records of the editor's graph: states and transitions, as the
    regulariser, the state layer and the TikZ exporter read them. */
module Automaton {
  import opened Records

  /** A point in grid units. */
  datatype Position = Position(x: real, y: real)

  /** A state of the edited automaton; `merged` names the state it was folded
      into, `mergedBy` marks the target of a pending merge. */
  datatype StateProps = StateProps(
    id: string,
    position: Position,
    radius: real,
    isAccepting: bool,
    isDummy: bool,
    labelText: string,
    merged: Option<string>,
    mergedBy: bool)

  /** A labelled edge between two states (equal ends for a self-loop).
      `labelText` is the source's `label` field (`label` is a Dafny keyword). */
  datatype TransitionProps = TransitionProps(id: string, fromID: string, toID: string, labelText: string)
}
