# AutomataSketchpad editing core in Dafny

AutomataSketchpad is a browser editor for automaton-like graphs. States sit on an integer grid, and directed, labelled transitions join them. This project models the editor's pure decision logic and proves properties of it:

- **Grid regulariser** (`regularizer.dfy`). A candidate point is snapped to the nearest lattice point. The state table is then scanned in iteration order for another state on that cell. The answer is the snapped position, a rejection, or a merge action. A merge happens only when the moving state is a dummy. `updateStatesByAction` turns a merge action into a two-entry patch of the state table.
- **Transition-tool engine** (`transition_tool.dfy`). A tool is an edge template over parameter positions `0 … stateCount-1`. It is validated, then instantiated against a list of state ids. The result is `"invalid"`, `"mismatch"` or one concrete edge per template edge.
- **TikZ export** (`tikz.dfy`). Node names come from one of three options: the key itself, `q0, q1, …` in iteration order, or the key cut to `Math.round(n)` characters. The export emits one `\node` line per state and a `\path[->] … ;` block with one edge per transition (a self-loop is drawn `loop above`). The `tikzpicture` header and footer wrap them.
- **Tool import** (`tool_manager.dfy`). This covers what the tool-manager panel decides once a file is parsed. A single tool goes through guards on `name`, `stateCount` and `edges`, in that order, and then `isToolValid`. A batch is all-or-nothing and reports the first failing index. The panel's `errorMessage` state is a field of a class.
- **State layer** (`state_layer.dfy`). The callbacks each rendered state receives: drag snapping over the whole table, the position patch, the accepting-flag patch, and deletion of a state from the table together with clearing the selection.

Shared definitions:

- `records.dfy`: JavaScript `Record<string, V>` objects as entry sequences without repeated keys.
- `js_number.dfy`: `Math.round` and `Number.isInteger`.
- `strings.dfy`: decimal rendering, `slice` and substring helpers.
- `automaton.dfy`: the state and transition records.

A JavaScript object is a sequence of `Entry(key, value)` in `for…in` order. A JavaScript number is a Dafny `real`. `Math.round(r)` is `Floor(r + 1/2)`. A state id is a string, and a state carries `merged: Option<string>` and `mergedBy: bool`, as the regulariser sets them (`src/components/regularizer.ts:26-27`). The source field `label` is called `labelText`, because `label` is a Dafny keyword.

Where the code departs from the editor's intended behaviour, the model follows the code:

- `deleteState` removes any state, dummy or not. It does not remove the transitions that touch that state.
- `onDoubleClick` flips `isAccepting` on dummy states too.
- `State.tsx` declares `id: number` and has no `merged`/`mergedBy` fields. `Transition.tsx` types state ids as strings, and the regulariser adds the two fields; the model follows them.
- A successful batch import leaves an earlier error message in place. Only a successful single import clears it.
- In a batch, an element on which `isToolValid` throws (a `null` element, or `edges` that is not an array) is reported with the runtime `TypeError`, not with its index.

## Model

| member | source | states |
|---|---|---|
| JsNumber.Round | src/components/regularizer.ts:9 | `Math.round`: the result lies within half a unit of the input, halves rounding up |
| Records.FirstWhere | src/components/regularizer.ts:10-17 | a front-to-back scan with early exit finds the first match, and every earlier element fails the test; with no match, no element passes |
| Regularizer.Regularize | src/components/regularizer.ts:7-19 | placed iff no other state is on the snapped cell, and then the position is `(round x, round y)` with whole coordinates; rejected iff a collision exists and the mover is new or not a dummy; a merge iff a collision exists and the mover is a dummy, with `from` = mover id, `to` = the key of the first colliding entry, coordinates = the snapped cell; entries with the mover's own id never collide |
| Regularizer.GridRegularizer | src/components/regularizer.ts:7-19 | the `for…in` loop with early returns computes exactly `Regularize` |
| Regularizer.SnapIsStable | src/components/regularizer.ts:9-18 | snapping is idempotent: asking again at the snapped point gives the same answer, whether a position, `null` or a merge |
| Regularizer.UpdateStatesByAction | src/components/regularizer.ts:21-34 | for a merge with distinct ids: two entries, the mover with `merged = to` and position `(x, y)`, the target with `mergedBy = true`, every other field of both unchanged; when the ids coincide, one entry (the target's); any other action gives the empty patch |
| Regularizer.MergeProposalPatch | src/components/regularizer.ts:15-28 | in a table keyed by id, a merge proposed by the regulariser gives a two-entry patch: the dummy folded into the occupant of its snapped cell, and the occupant flagged |
| TransitionTools.ApplyTool | src/components/transitionTool.ts:9-21 | `"invalid"` iff the tool is invalid (checked first); `"mismatch"` iff valid and `params.length != stateCount`; otherwise the same length and order as `edges`, with `out[i] = (params[from_i], params[to_i])`, every id taken from `params` |
| TransitionTools.ApplyToolRespectsShape | src/components/transitionTool.ts:20 | a template self-loop gives a concrete self-loop; equal template edges give equal concrete edges |
| TransitionTools.ApplyToolInjective | src/components/transitionTool.ts:20 | with distinct parameters, two concrete edges are equal only if their template edges are |
| TransitionTools.IsToolValid | src/components/transitionTool.ts:9-15 | a valid tool has a positive whole `stateCount`, and each edge end is a whole number that, read as an integer, indexes a list of `stateCount` ids |
| ToolManager.JsEvery | src/components/transitionTool.ts:11-14 | `edges.every` on parsed edges passes iff every edge has whole-number `from` and `to` in `[0, stateCount)`; it throws iff the first edge that does not pass is `null`; otherwise it is false |
| ToolManager.JsIsToolValid | src/components/transitionTool.ts:9-15 | `isToolValid` on a parsed value: it passes iff the value reads as a tool (a number `stateCount`, an array of number `{from, to}` pairs) that is valid; `null` throws; it throws only on `null`, on `edges` that is not an array, or on a `null` edge |
| ToolManager.DecodeEdgesAgrees | src/components/transitionTool.ts:11-14 | `every` over a parsed array passes iff the array reads as edges that all lie in `[0, stateCount)` |
| ToolManager.JsIsToolValidEncoded | src/components/transitionTool.ts:9-15 | on a well-typed tool file, `isToolValid` does not throw, and it passes iff `stateCount` is a positive whole number and every `from`/`to` is a whole number in `[0, stateCount)` |
| ToolManager.DecodeEdges | src/components/transitionTool.ts:2 | a parsed array reads as edges iff every element is a `{from, to}` pair of numbers, and then element `i` reads as edge `i` |
| ToolManager.DecodeEncode | src/components/transitionTool.ts:2-7 | reading a written tool file gives back the tool |
| ToolManager.SingleUpload | src/components/TransitionToolManager.tsx:36-53 | `null` throws; a missing, empty or non-string `name` is refused before anything else; then a falsy or non-number `stateCount` (0 included); then a falsy `edges`; then `isToolValid`; the value is imported (unchanged) iff every step passes |
| ToolManager.ImportedIsValid | src/components/TransitionToolManager.tsx:46-48 | an imported value reads as a tool with a non-empty name that passes `isToolValid` |
| ToolManager.SingleUploadEncoded | src/components/TransitionToolManager.tsx:37-51 | a written tool file is imported iff the tool has a non-empty name and is valid |
| ToolManager.ValidateBatch | src/components/TransitionToolManager.tsx:66-72 | the loop's outcome is the batch decision: it stops at the first element that does not pass `isToolValid`, refusing by index or by a thrown `TypeError` |
| ToolManager.BatchDecisionSpec | src/components/TransitionToolManager.tsx:66-72 | the list is accepted unchanged iff every element passes `isToolValid`; otherwise nothing is accepted, an `InvalidToolAt(k)` failure names the first element that fails and a `TypeError` comes from the first element that throws, all earlier elements passing |
| ToolManager.TransitionToolManager.constructor | src/components/TransitionToolManager.tsx:27 | the panel starts with no error message |
| ToolManager.TransitionToolManager.HandleFileUpload | src/components/TransitionToolManager.tsx:29-57 | an accepted tool is imported and the error is cleared; a refused one imports nothing and sets the error |
| ToolManager.TransitionToolManager.HandleBatchUpload | src/components/TransitionToolManager.tsx:59-78 | an accepted list is imported unchanged and the error message is left as it was; a refused list imports nothing and sets the error |
| ToolManager.ExampleToolBehaviour | src/components/TransitionToolManager.tsx:12-16 | the example tool is valid, its file is accepted, applied to `["s1"]` it gives the single self-loop `("s1", "s1")`, and applied to two ids it gives `"mismatch"` |
| Tikz.TikzStateType | src/components/tikz.ts:6-8 | the style starts with `state` and contains `accepting` iff the state is accepting |
| Tikz.GetIDMap | src/components/tikz.ts:10-24 | the loop with its counter builds exactly `IDMap` |
| Tikz.IDMapKeys | src/components/tikz.ts:13 | the mapping has exactly the keys of the state table, in order, none twice |
| Tikz.IDMapIdentity | src/components/tikz.ts:14-15 | under `"identity"` each key maps to itself |
| Tikz.IDMapRearrange | src/components/tikz.ts:16-18 | under `"rearrange"` the i-th key maps to `"q" + i`, and no two keys share a name |
| Tikz.IDMapTruncate | src/components/tikz.ts:19-20 | under a number n each key maps to `key.slice(0, round(n))`, a prefix of the key |
| Strings.SlicePrefix | src/components/tikz.ts:20 | `slice(0, end)` is a prefix whose length is `end` clipped to the string, with a negative end counting from the back |
| Strings.ParseNatToString | src/components/tikz.ts:17 | the decimal rendering of the counter reads back as the counter |
| Strings.NatToStringInjective | src/components/tikz.ts:17 | different counters render as different strings |
| Tikz.TikzStateString | src/components/tikz.ts:26-28 | the line starts with `\node[<style>] (<name>)`, places the state at `(x*scale, -y*scale)` with the y axis negated, and ends with the label and `;` and a newline |
| Tikz.GetTikzNodes | src/components/tikz.ts:30-36 | the loop yields one node line per state, in iteration order |
| Strings.ConcatMapAppend | src/components/tikz.ts:30-36 | appending over two runs gives the text of one run over both, so each entry contributes its own line in place |
| Tikz.TikzTransitionString | src/components/tikz.ts:38-44 | a transition with equal ends is `(<from>) edge[loop above] …` with the empty target `()`; any other edge ends with the target's `(<name>)` |
| Tikz.GetTikzPaths | src/components/tikz.ts:46-56 | the block is `\path[->]`, then a newline and an edge per transition in iteration order, then `;` and a newline |
| Tikz.GetTikzFromAutomata | src/components/tikz.ts:58-63 | header, then nodes, then paths, then footer, with names from `getIDMap` under the given option (by default `"rearrange"`) and scale 1 by default |
| StateLayer.DragRegularizer | src/components/StateLayer.tsx:26-28 | the drag regulariser is the grid regulariser over the layer's whole current table |
| StateLayer.OnPositionChange | src/components/StateLayer.tsx:30-34 | a `null` position emits nothing; otherwise a one-entry patch `{state.id: state}` with only the position replaced |
| StateLayer.OnPositionChangeInPlace | src/components/StateLayer.tsx:32-33 | moving a state to its own position emits the state unchanged |
| StateLayer.OnDoubleClick | src/components/StateLayer.tsx:36-40 | a one-entry patch for the state with only `isAccepting` negated |
| StateLayer.OnDoubleClickTwice | src/components/StateLayer.tsx:37 | toggling twice restores the state |
| StateLayer.Without | src/components/StateLayer.tsx:43-48 | the remaining table's keys are exactly the old keys minus the state's id; each entry comes from the old table; keys stay distinct |
| StateLayer.WithoutGet | src/components/StateLayer.tsx:43-48 | every other key still reads its old value; the deleted key reads nothing |
| StateLayer.WithoutKeepsOrder | src/components/StateLayer.tsx:43-48 | the remaining entries keep their iteration order: the new keys are the old keys with the id taken out, in order |
| StateLayer.WithoutSize | src/components/StateLayer.tsx:43-48 | the table shrinks by one exactly when the id was a key |
| StateLayer.DeleteState | src/components/StateLayer.tsx:42-52 | the copying loop builds exactly `Without(states, state.id)`, and the selection becomes `null` |

## Left out

- Pan/zoom, grid drawing and the rendering components (`InfiniteBoard.tsx`, `GridLayer.tsx`, `State.tsx`, `Transition.tsx`, `TransitionLayer.tsx`, `util.ts`) are not modelled. They are floating-point view maths and DOM event plumbing.
- `StateEditor.tsx`, `TransitionEditor.tsx`, `HistoryDisplayer.tsx` and `TikzExporter.tsx` are not modelled. They hold form state, KaTeX rendering, the clipboard and timers.
- Undo/redo history, commit batching and the merge-commit rewrite of transitions are not modelled, because none of the files modelled here implements them.
- `uuidRecord.ts` (fresh ids from a random generator) is not modelled. No modelled operation creates ids.
- `FileReader`, `JSON.parse` and the file-input events are not modelled. The model starts from the parsed value. `importTool`/`importTools` are the handlers' return values.
- `callForUpdate` and the `console.log` in `updateStatesByAction` carry no data and are not modelled.
- JavaScript iterates integer-like keys first, in numeric order. The model takes a table's entry order as its iteration order, which matches for the uuid keys the editor generates.
- Numbers are exact reals. NaN, the infinities and floating-point rounding of `x * scale` are not modelled.
- Number formatting inside the TikZ template literals is the parameter `fmt`. Only the counter in `q<i>` is rendered by the model itself.
- The text of a runtime `TypeError` depends on the JavaScript engine. The model records the failure kind only, and no error message strings are rendered.
- Regularizer.UpdateStatesByAction: requires the merge target `to` to be a key of the table. With a missing target the source builds a partial record `{mergedBy: true}`, which is not a state. The regulariser only proposes keys of the table.
- Regularizer.RegularizerAction: the `args` record is held as the two fields `from` and `to`, the only entries the source ever puts in it.
- ToolManager.ValidateBatch: only a parsed array is modelled. On other values the source behaves as follows, because its loop reads `parsed.length` and `parsed[i]`:
  - `null`: reading `length` throws a `TypeError`, so the error is set and nothing is imported.
  - A number or a boolean: `length` is `undefined`, the loop runs zero times, and `importTools` receives the value itself.
  - A string: the loop walks its characters. Each is a string without `stateCount`, so a non-empty string is refused at index 0, and the empty string reaches `importTools`.
  - An object with a numeric `length` entry: its `"0"`, `"1"`, … entries are checked as if it were an array, and a missing entry throws.
  - Any other object: the loop runs zero times and `importTools` receives the object.
- ToolManager.JsonValue: an object is a map, so a key repeated in the file keeps one value (as `JSON.parse` keeps the last). Built-in properties are not modelled. The core reads one of them, the `length` of the parsed batch value (`src/components/TransitionToolManager.tsx:67`); the model reads it on arrays only, as the line for ToolManager.ValidateBatch says.
- Strings.SlicePrefix: lengths count Unicode scalar values (Dafny characters), while JavaScript's `slice` counts UTF-16 code units. A key with a character outside the Basic Multilingual Plane is longer in JavaScript, and `slice` can cut it between the two halves of a surrogate pair, which the model cannot. The keys the editor generates are ASCII uuids, for which both counts agree.
- Tikz.IDMapTruncate: it inherits the counting of Strings.SlicePrefix. For keys loaded from a file that contain characters outside the Basic Multilingual Plane, the truncated names can differ from the source's. For the editor's ASCII uuid keys they are the same.
