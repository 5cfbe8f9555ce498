# Paint canvas interaction engine, modelled in Dafny

This project models the interaction engine of a small paint application. The
application is a single React component, `PaintApp`. The user places circles,
squares and triangles on a canvas. Shapes are created in two ways: by clicking
the canvas, or by dragging a tool from the palette onto it. The user can drag
shapes to move them, double-click a shape to delete it, and import the shape
list from a JSON file. A status bar counts the shapes of each type.

The model has three modules:

- `Geometry` (`Geometry.dfy`): points, bounding boxes and the clamp
  `Math.max(0, Math.min(p, W - size))`. Coordinates are exact `real`
  numbers; the rounding of double subtraction is not modelled (see
  "## Left out").
- `Shapes` (`Shapes.dfy`): the `Shape` record and the pure transforms the
  handlers apply to the shape list. These are append, delete (a `filter` on
  the id), move (a `map` that repositions the shapes carrying the dragged id)
  and the per-type counts. It also holds the lemmas about these transforms:
  order, idempotence, staying inside the canvas, unique ids and counts.
- `Paint` (`Paint.dfy`): the class `PaintState`. Its fields are the
  component's state variables: `shapes`, `selectedTool`,
  `isDraggingFromSidebar`, `draggedTool`, `dragPreview`, `draggedShape` and
  `dragOffset`. Each event handler is one method. The inputs are parameters:
  the pointer's client coordinates, the bounding box of the element the event
  is attached to, and `now`, which stands for `Date.now()`, the source of new
  ids. `Valid()` is the class invariant. It says that the sidebar flags
  always agree with each other: a palette drag is in progress exactly when a
  tool is carried and exactly when the preview is shown. It also says that no
  grab offset is left over from a finished shape drag. Every handler keeps
  `Valid()`. Because of this invariant, a release over the canvas during a
  palette drag always creates a shape (`MouseUp`); a release anywhere else
  reaches only the document listener (`GlobalMouseUp`), which creates
  nothing.

Behaviour of the code that the model keeps as written:

- Unlike the palette drop (Code/App.js:214-215), click-to-create
  (Code/App.js:195-196) does not clamp. A click near the canvas edge makes a
  shape that sticks out of the canvas (`ClickNearCornerLeavesCanvas`).
- The palette drop clamps with the constant 50, not with the shape's size.
  Every created shape has size 50, so the two agree.
- A canvas mouse-leave runs the mouse-up handler. So a palette drag that
  crosses the canvas and leaves it drops a shape at the exit point
  (`MouseLeave`).
- `if (draggedShape)` is a JavaScript truthiness test. A shape whose id is 0
  can therefore never be moved (`DraggingShape`). Such an id can only come
  from an imported file.
- Ids come from the clock and can collide. Delete and move therefore act on
  every shape that carries the id. The lemmas that describe deleting exactly
  one shape assume unique ids (`UniqueIds`).
- Import accepts any value `JSON.parse` returns, without validation,
  including a non-array; only a parse exception (Code/App.js:313-315) leaves
  the list alone. Shapes with type strings outside the palette can enter this
  way. No per-type count in the status bar includes them, but the total
  (`shapes.length`, Code/App.js:520) does (`CountUnknown`, `StatusTally`).

On one release over the canvas, two handlers run: the canvas `onMouseUp`, and
the document `mouseup` listener, which is installed only during a palette
drag. The model fixes their order to the usual bubbling order, canvas first
(`ReleaseOverCanvas`). With this order the drop happens before the reset.

## Model

| member | source | states |
|---|---|---|
| `Geometry.Max` | Code/App.js:214 | `Math.max`: the result is at least both arguments and is one of them |
| `Geometry.Min` | Code/App.js:214 | `Math.min`: the result is at most both arguments and is one of them |
| `Geometry.Clamp` | Code/App.js:252-253 | the result is never negative; it is at most `limit - size` when the box fits; it is the raw position when that already fits; a position past the far edge rests exactly on the edge; a negative position, or a box wider than the canvas, gives 0 |
| `Geometry.ClampIdempotent` | Code/App.js:247-253 | clamping an already clamped coordinate leaves it unchanged |
| `Shapes.ClickedShape` | Code/App.js:192-199 | a click creates a shape with the given id, the selected tool, size 50 and colour `#3b82f6`, whose centre is exactly the pointer |
| `Shapes.ClickAtHundred` | Code/App.js:189-199 | a square-tool click at canvas point (100, 100) gives a square with its corner at (75, 75) |
| `Shapes.ClickNearCornerLeavesCanvas` | Code/App.js:195-196 | a click 10 units from the corner gives `x = -15`, outside the canvas on any canvas size: click-to-create does not clamp |
| `Shapes.DroppedShape` | Code/App.js:211-218 | a dropped shape carries the dragged tool, size 50 and the fixed colour; its corner is never negative; it lies inside the canvas whenever the canvas is at least 50 by 50; it equals the unclamped click shape whenever that one already fits |
| `Shapes.RemoveId` | Code/App.js:230 | no shape carrying the deleted id survives, and the list never grows |
| `Shapes.RemoveIdSubset` | Code/App.js:230 | every shape left after a delete was in the list before |
| `Shapes.RemoveIdKeepsOthers` | Code/App.js:230 | every shape whose id differs from the deleted one is still in the list |
| `Shapes.RemoveIdConcat` | Code/App.js:230 | the filter distributes over concatenation, so the kept shapes keep their relative order |
| `Shapes.RemoveIdAbsent` | Code/App.js:230 | deleting an id that no shape carries leaves the list unchanged |
| `Shapes.RemoveIdIdempotent` | Code/App.js:230 | deleting the same id twice gives the same list as deleting it once |
| `Shapes.RemoveIdSplice` | Code/App.js:230 | if the id occurs only at one place in the list, deleting it removes exactly that shape |
| `Shapes.DeleteUniqueRemovesOne` | Code/App.js:227-231 | with unique ids, a double-click on the shape at index `i` leaves exactly `s[..i] + s[i+1..]`: only that shape goes, the others and their order stay |
| `Shapes.RemoveIdKeepsUniqueIds` | Code/App.js:230 | a delete keeps ids unique |
| `Shapes.RemoveIdKeepsInCanvas` | Code/App.js:230 | a delete keeps every shape inside the canvas if all were inside before |
| `Shapes.Reposition` | Code/App.js:251-253 | a moved shape differs from the original only in `x` and `y`; each is the raw position clamped against the shape's own size; the shape lies inside the canvas whenever it fits |
| `Shapes.MoveMatching` | Code/App.js:250-255 | a move keeps length and order; a shape with another id is unchanged; a shape with the dragged id changes only in `x` and `y`, which become the clamped pointer position |
| `Shapes.MoveIdempotent` | Code/App.js:247-255 | the same move event applied twice gives the same list as once, because the position comes from the pointer and the offset, not from the previous position |
| `Shapes.MoveKeepsInCanvas` | Code/App.js:250-255 | if every shape was inside the canvas, every shape is still inside it after a move |
| `Shapes.MoveKeepsUniqueIds` | Code/App.js:250-255 | a move keeps ids unique |
| `Shapes.AppendKeepsUniqueIds` | Code/App.js:193-201 | appending a shape whose id is not yet taken keeps ids unique |
| `Shapes.CountKind` | Code/App.js:509 | a type count is at most the list length; it is zero exactly when no shape has that type |
| `Shapes.CountUnknown` | Code/App.js:509-520 | the count of shapes outside the palette types is zero exactly when every shape has a palette type |
| `Shapes.CountsPartition` | Code/App.js:509-520 | the circle, square and triangle counts plus the unknown-type count add up to the list length |
| `Shapes.CountConcat` | Code/App.js:509 | a type count is additive over concatenation |
| `Shapes.CountAppend` | Code/App.js:201 | appending a shape raises exactly its own type's count, by one |
| `Shapes.DeleteUniqueCount` | Code/App.js:227-231 | with unique ids, deleting a shape lowers exactly its own type's count, by one |
| `Shapes.CountSameKinds` | Code/App.js:509 | two lists with the same types at the same positions have the same counts |
| `Shapes.MoveKeepsCounts` | Code/App.js:250-255 | a move leaves every type count unchanged |
| `Shapes.StatusTally` | Code/App.js:505-521 | the total is the list length; the three type counts plus the unknown-type shapes add up to the total, so the three counts alone add up to it exactly when every shape has a palette type (with `CountUnknown`) |
| `Paint.PaintState.constructor` | Code/App.js:5-11 | the initial state: no shapes, circle selected, no palette drag, hidden preview at the origin, no dragged shape, zero offset; `Valid()` holds |
| `Paint.PaintState.SelectTool` | Code/App.js:429-453 | a click on a palette entry sets the selected tool and changes nothing else |
| `Paint.PaintState.SidebarDragStart` | Code/App.js:172-177 | a press on a palette entry starts a palette drag carrying that tool, with the preview visible at the pointer; shapes, the selected tool and the shape-drag fields are unchanged |
| `Paint.PaintState.SidebarDragMove` | Code/App.js:179-183 | during a palette drag only the preview moves to the pointer; otherwise nothing changes |
| `Paint.PaintState.GlobalMouseMove` | Code/App.js:268-272 | the document move listener has the same effect as the sidebar move |
| `Paint.PaintState.AddShape` | Code/App.js:185-202 | during a palette drag a click does nothing; otherwise it appends exactly the unclamped click shape at the end, earlier shapes unchanged; the drag fields are never touched |
| `Paint.PaintState.CanvasDrop` | Code/App.js:204-225 | the drop does nothing unless a palette drag carrying a tool is in progress; when it runs it appends the clamped dropped shape and resets the palette fields to idle |
| `Paint.PaintState.DeleteShape` | Code/App.js:227-231 | the shapes become the list with that id filtered out; nothing else changes |
| `Paint.PaintState.ShapeMouseDown` | Code/App.js:233-242 | a press on a shape records its id and the pointer's offset inside the shape's box; nothing else changes |
| `Paint.PaintState.MouseMove` | Code/App.js:244-257 | during a shape drag, the shapes become the list moved to pointer minus offset, clamped into the live canvas box; with no dragged shape, or a dragged id of 0 (the JavaScript truthiness test `if (draggedShape)`, modelled by `DraggingShape`), nothing changes; the drag fields are never touched |
| `Paint.PaintState.MouseUp` | Code/App.js:259-266 | during a palette drag a release is the drop, and by `Valid()` it always appends the clamped shape and ends the drag; otherwise it clears the dragged shape and the offset and leaves the shapes alone |
| `Paint.PaintState.MouseLeave` | Code/App.js:475-476 | leaving the canvas has exactly the effect of a release at the exit point |
| `Paint.PaintState.GlobalMouseUp` | Code/App.js:274-280 | the document release listener returns all five drag fields to idle and leaves the shapes and the selected tool unchanged |
| `Paint.PaintState.ReleaseOverCanvas` | Code/App.js:282-292 | one release over the canvas (canvas handler first, then the document listener if installed) appends the dropped shape exactly when a palette drag was in progress, and always leaves every drag field idle |
| `Paint.PaintState.ImportData` | Code/App.js:305-319 | with no file, or with text that does not parse, the shapes are unchanged; a parsed list replaces them wholesale, unvalidated; the drag fields are never touched |
| `Paint.PaintState.Status` | Code/App.js:505-521 | the status-bar total is the number of shapes; the three type counts never exceed it |

## Left out

- Rendering: the styles, the JSX tree, the CSS drawing of each primitive, the icons, the labels, the hover colours, the empty-canvas placeholder and the cursor. These are presentation only.
- `JSON.stringify` and `JSON.parse`, and therefore the export/import round trip. These are library calls. The export is not modelled. The import receives an already parsed result (`ImportOutcome`).
- Parsed JSON values that are not lists of `{id, type, x, y, size, color}` records with an integer `id` and numeric other fields (for example a non-array, a missing field, or a fractional id such as 1.5). The code accepts them and hands them to the renderer. The model can only hold records of that shape.
- The Blob, object URL and anchor used for download, and `FileReader`. These are browser I/O.
- `getBoundingClientRect` and `Date.now()`. They become the parameters `canvas`/`shapeBox` and `now`.
- The `useEffect` that installs and removes the document listeners. It is modelled only by the dispatch order in `ReleaseOverCanvas`: the listener is present exactly while `isDraggingFromSidebar` holds.
- React's asynchronous state batching and stale `useCallback` closures. Each handler is modelled as one atomic step on the current state.
- JavaScript numbers are doubles; the model uses exact `real` arithmetic. `Math.min` and `Math.max` are exact on doubles, but every subtraction can round: the canvas origin and the grab offset (Code/App.js:189-190, 208-209, 247-248), the centring `x - 25` (Code/App.js:195-196, 214-215) and the limits `rect.width - 50` and `rect.width - shape.size` (Code/App.js:214-215, 252-253). The bounds the model proves hold for exact arithmetic.
- The `alert` shown when the imported text does not parse (Code/App.js:314). It is a browser dialog; in the model a parse failure only leaves the shapes unchanged.
- `preventDefault` and `stopPropagation`. The model has no event objects, so the fact that a click on a shape does not reach the canvas is not represented.
