# HotSpot manager model

A Dafny model of `HotSpotManager`, the browser script that lets a user draw
numbered hotspot shapes (rectangle, square, circle, triangle) over an
uploaded image. The model has these parts:

- `HotSpot.HotSpotManager` (manager.dfy) is a class with the script's fields.
  The pointer handlers (`startDrawing`, `draw`, `stopDrawing`), the toolbar
  handlers (`enableDrawing`, the shape selector, the opacity slider, `undo`,
  `redo`), `addToHistory`, `saveShapes` and the placement part of `drawImage`
  are its methods.
- The object invariant `Valid()` covers three things:
  - the undo/redo log (`history`, `currentState`, `shapes`) is well formed;
  - the stored placement (`imageOffsetX`, `imageOffsetY`, `imageScale`) is
    the one `drawImage` computes for the current image and canvas;
  - the selected shape type is canonical: it is what parsing its own name
    gives (`Shapes.Canonical`).
- `History` (history.dfy) gives the log as a value (`LogState`). `Commit`,
  `Undo`, `Redo` and `AppendShape` are what `addToHistory`, `undo`, `redo` and
  the commit step of `stopDrawing` do to it. Each log-changing method
  (`AddToHistory`, `Undo`, `Redo`, `StopDrawing`) is specified as
  `Log() == History.F(old(Log()))`; the other methods leave the log out of
  their `modifies` frames. The log's properties are lemmas
  about these functions: invariant preservation, undo/redo round trip,
  truncation when committing after an undo, and the state after n gestures.
- `Shapes` (shapes.dfy) holds the shape record, the shape-type tag and the
  renumbering by position that every commit and every save applies.
- `Geometry` (geometry.dfy) holds the letterbox placement of `drawImage`, the
  client-to-canvas scaling of `getMousePos`, and the screen-to-image and
  image-to-screen mappings. All of it is over exact `real` arithmetic.
- `Render` (render.dfy) holds the geometry of `drawShape` as values: the
  screen rectangle, the square's signed side, the circle's centre and
  radius, the triangle's vertices, and the handle with the shape's number.

The undo pointer is modelled as the code has it. `undo` may take
`currentState` to -1, where the active list is empty. A commit made at -1
slices the log down to nothing before appending. The result is the
one-snapshot log `[renumber(s)]`, and the initial empty snapshot is gone
(`History.CommitTruncates`). The guard at script.js:295 puts an empty
snapshot back only when `history.length === 0`, which never holds:
`history` always has at least one snapshot (`History.Valid`), so the guard
does not affect a commit from -1. `History.CommitRepairsEmptyLog` shows
what the guard does on the empty log, the only state where it fires.

Inputs the browser supplies are parameters:
- the canvas's pixel size (constructor);
- the decoded image's pixel size (`LoadImage`);
- a pointer event's client coordinates (`PointerEvent`);
- the canvas's bounding box (`ClientRect`, from `getBoundingClientRect`).

Storage is the field `saved`, which holds the list `saveShapes` would write.

## Model

| member | source | states |
|---|---|---|
| Shapes.ParseType | script.js:190-265 | a selector value is one of the four kinds the switch handles exactly when it is one of their four names; any other value is kept as an "other" type with that name; the parsed type is written back as the value itself and is canonical (an "other" type never carries a known name) |
| Shapes.ParseTypeInjective | script.js:36-38 | two selector values give the same shape type exactly when they are the same string |
| Shapes.ParseOfName | script.js:124-125 | a type tag that is not an "other" spelled like a known kind reads back as itself |
| Shapes.Renumber | script.js:290-293 | the renumbered list has the input's length; the shape at position i has index i+1 and the same type, start and end as the input's |
| Shapes.RenumberFixes | script.js:290-293 | renumbering leaves a list unchanged if and only if every shape's index is already its position plus 1 |
| Shapes.RenumberIdempotent | script.js:333-336 | renumbering an already renumbered snapshot again, as saveShapes does, changes nothing |
| Shapes.RenumberSnoc | script.js:151 | renumbering the list with a shape appended renumbers the old list and gives the new shape the number after it |
| Shapes.AppendNext | script.js:148-152 | a numbered list with a shape numbered `length + 1` appended stays numbered 1..n |
| Shapes.RenumberedIndices | script.js:333-336 | the numbers saveShapes writes are exactly 1, 2, ..., n |
| Geometry.AspectOrder | script.js:70-76 | the comparison of image and canvas aspect ratios is the comparison of the cross products |
| Geometry.WidthFit | script.js:77-79 | when the image fits to the canvas width, the drawn height is the image height times the scale and is less than the canvas height |
| Geometry.HeightFit | script.js:81-83 | when the image fits to the canvas height, the drawn width is no more than the canvas width and the scale is canvas height over image height |
| Geometry.Letterbox | script.js:66-88 | for positive sizes: the scale is positive and is the smaller of the two axis ratios; the drawn size is the image size times the scale; both offsets are non-negative and one of them is 0; the image is centred on the canvas; a wider image fills the width with offsetX 0, and any other image fills the height with offsetY 0 |
| Geometry.SameAspectFills | script.js:76-84 | an image with the canvas's aspect ratio fills the canvas with both offsets 0 |
| Geometry.WideImageExample | script.js:66-88 | an 800x300 image on a 400x300 canvas is placed with offsetY 75, scale 0.5 and a 400x150 drawn size |
| Geometry.ClientToCanvas | script.js:96-105 | the position across the canvas, as a fraction of the canvas size, equals the client position across the bounding box, as a fraction of the box size, on each axis |
| Geometry.ClientCanvasRoundTrip | script.js:96-105 | client-to-canvas scaling and its inverse are mutual inverses when both sizes are positive |
| Geometry.ClientCorners | script.js:96-105 | the bounding box's top-left and bottom-right corners map to (0, 0) and to the canvas size |
| Geometry.ScreenToImage | script.js:111-112 | the image coordinate returned is the one the image-to-screen mapping sends back to the given screen coordinate |
| Geometry.ImageToScreen | script.js:165-166 | the screen coordinate returned is the one the screen-to-image mapping sends back to the given image coordinate |
| Geometry.ScreenImageDistances | script.js:165-168 | with a positive scale, a distance on screen is the image distance times the scale and an image distance is the screen distance divided by it, whatever the offset |
| Geometry.ImageToScreenMonotone | script.js:165-166 | image-to-screen keeps the order of coordinates |
| Geometry.WideImageGesture | script.js:138-140 | in the 800x300-on-400x300 placement a gesture from screen (100,100) to (200,150) runs from image (200,50) to (400,150) |
| Render.ScreenBox | script.js:165-168 | drawShape's rectangle is anchored at the shape's start point on screen, its signed extents are the image-space differences times the scale, and its far corner is the end point on screen |
| Render.ShapeBody | script.js:190-265 | each of the four known types draws its own kind of body (rectangle and square an outline anchored at the start point, the rectangle's being the whole box; circle a disc; triangle a triangle), and any other type draws no body |
| Render.SquareSide | script.js:197 | the square's side is non-negative, no larger than either extent, and equal to one of them: the smaller magnitude |
| Render.CircleRadius | script.js:203 | the circle's diameter is the smaller magnitude of the two extents |
| Render.Figure | script.js:269-284 | the handle is at the shape's start point on screen, has radius 7 whatever the scale, and shows the shape's index |
| Render.Scene | script.js:93 | drawImage draws one figure per shape, in list order |
| Render.SceneLabels | script.js:280-284 | a numbered list is drawn with handle labels 1..n |
| Render.SquareFollowsDrag | script.js:196-199 | the square starts at the start point; each drawn extent has the drag's sign on its axis and no more than the drag's length; both extents have the side's length when the drag has extent on both axes, and both are 0 otherwise |
| Render.SquareExample | script.js:197-199 | a drag 40 wide and -100 high draws the signed square (40, -40) |
| Render.CircleInscribed | script.js:202-205 | the circle's centre is the centre of the drag's box and the circle lies inside the box |
| Render.TriangleIsosceles | script.js:246-250 | the triangle has its base on the box's far horizontal edge and its apex midway along the start edge, and its fill pattern covers the box |
| Render.UnknownTypeDrawsHandleOnly | script.js:190-265 | a shape whose type the switch does not list draws no body |
| History.Initial | script.js:23-24 | the constructor's log (with the empty active list of script.js:17) is valid, with one empty snapshot selected; evaluated on it, the undo predicate gives enabled and the redo predicate gives disabled |
| History.UndoDisabled | script.js:328 | the undo button is disabled exactly when pressing it would change nothing |
| History.RedoDisabled | script.js:329 | the redo button is disabled exactly when pressing it would change nothing |
| History.ValidShapesNumbered | script.js:289-293 | in a valid log the active list is numbered 1..n |
| History.Commit | script.js:289-305 | after a commit the pointer is at the last snapshot, redo is disabled, that snapshot is the renumbered list, and the active list is unchanged |
| History.CommitTruncates | script.js:295-302 | on a valid log the repair branch does not fire: the snapshots up to the pointer are kept and the new snapshot follows; a commit from -1 leaves the single snapshot `[renumber(s)]` |
| History.CommitRepairsEmptyLog | script.js:295-298 | on an empty log at -1 the repair branch puts the empty snapshot back before the new one |
| History.Undo | script.js:307-315 | undo keeps the pointer in range and does not change the snapshots |
| History.Redo | script.js:317-325 | redo keeps the pointer in range and does not change the snapshots |
| History.UndoValid | script.js:307-314 | undo preserves the log invariant; it changes the state if and only if the undo button is enabled (pointer at or above 0), and then lowers the pointer by one |
| History.RedoValid | script.js:317-329 | redo preserves the log invariant; it changes the state if and only if the redo button is enabled (pointer below the last snapshot), and then raises the pointer by one |
| History.UndoRedoRoundTrip | script.js:307-325 | an undo that changed the state followed by a redo restores the pointer and the active shapes; so does a redo that changed the state followed by an undo |
| History.UndoReachesEmpty | script.js:308-310 | undo from the initial snapshot takes the pointer to -1 with an empty active list, and undo is then disabled |
| History.AppendShape | script.js:151-152 | the commit step of stopDrawing leaves the pointer at the last snapshot |
| History.AppendShapeValid | script.js:142-152 | a gesture commit with the new shape numbered `|shapes| + 1` keeps the log invariant, appends the shape to the active list, truncates the log after the pointer and makes the committed snapshot equal to the new active list |
| History.AppendAtEnd | script.js:300-302 | a gesture commit with nothing to redo only appends a snapshot |
| History.Gestures | script.js:135-158 | a run of finished gestures keeps the pointer in range |
| History.GesturesFromInitial | script.js:289-302 | after n gestures from the initial state the pointer is n, redo is disabled, snapshot k holds the first k shapes numbered 1..k, and the active list is all n shapes numbered 1..n |
| History.ThreeShapesScenario | script.js:332-338 | three gestures save the indices [1], [1,2], [1,2,3], and an undo after them saves [1,2] |
| History.BranchTruncation | script.js:300-302 | from the log [[], S1, S2], an undo and a new gesture give [[], S1, S3], and redo is then a no-op |
| HotSpot.HotSpotManager.constructor | script.js:12-25 | the initial fields: not armed, no gesture, rectangle selected, placement (0, 0, 1), one empty snapshot selected, opacity 1, nothing saved |
| HotSpot.HotSpotManager.EnableDrawing | script.js:48-50 | the next gesture is armed |
| HotSpot.HotSpotManager.SelectShape | script.js:36-38 | the selected type is the selector's value |
| HotSpot.HotSpotManager.SetOpacity | script.js:41-44 | the opacity is the slider value divided by 100, and the repaint leaves the placement as it was |
| HotSpot.HotSpotManager.LoadImage | script.js:61-64 | the image size is recorded and the placement becomes that image's letterbox placement |
| HotSpot.HotSpotManager.DrawImage | script.js:66-88 | the stored placement is the letterbox placement of the current image and canvas, and recomputing it from an up-to-date placement changes nothing |
| HotSpot.HotSpotManager.Painted | script.js:93 | the repaint draws one figure per active shape, in list order, under the stored placement |
| HotSpot.HotSpotManager.GetMousePos | script.js:96-105 | the event's position across the canvas, as a fraction of the canvas's pixel size, equals its position across the bounding box, as a fraction of the box size |
| HotSpot.HotSpotManager.ImagePoint | script.js:111-112 | a canvas position in image coordinates maps back to that canvas position under the current placement |
| HotSpot.HotSpotManager.StartDrawing | script.js:107-113 | when not armed nothing changes; when armed a gesture is in progress and its start is the event's position in image coordinates |
| HotSpot.HotSpotManager.Draw | script.js:115-133 | a preview is produced exactly when armed and drawing. It has the selected type, the stored start, the event's position as its end and index `|shapes| + 1`. The frame is the committed figures followed by the preview's figure. Nothing is changed |
| HotSpot.HotSpotManager.StopDrawing | script.js:135-158 | when not armed and drawing nothing changes. Otherwise one shape is appended, with the stored start, the event's position as its end and index `old |shapes| + 1`. The log is truncated after the pointer and the new active list is committed. The pointer advances by one, redo is disabled, both flags are cleared and the new list is saved |
| HotSpot.HotSpotManager.AddToHistory | script.js:289-305 | the log becomes `History.Commit` of the old log, and the active list is saved renumbered |
| HotSpot.HotSpotManager.Undo | script.js:307-315 | the log becomes `History.Undo` of the old log and the invariant holds; the new active list is saved when the pointer moved; the placement is unchanged |
| HotSpot.HotSpotManager.Redo | script.js:317-325 | the log becomes `History.Redo` of the old log and the invariant holds; the new active list is saved when the pointer moved; the placement is unchanged |
| HotSpot.HotSpotManager.SaveShapes | script.js:332-338 | the saved list is the active list renumbered by position |

## Left out

- Canvas rendering is not modelled: `clearRect`, `drawImage`, `strokeRect`, `fillRect`, `arc`, `clip`, `save`/`restore` (including the extra `restore` at the end of `drawShape`), `fillText`, and the style and alpha assignments are side effects with no result to check. `Render` keeps only the geometry those calls receive.
- The scanline arithmetic of the circle pattern and the guide-line loop of `drawPattern` are left out. They only feed drawing calls, and the circle's uses `Math.sqrt` on floating point.
- File selection, `FileReader` and image decoding are asynchronous browser I/O. `LoadImage(width, height)` stands for the image's load event.
- DOM lookups, listener wiring in `init`, the top-level instantiation and `getBoundingClientRect` are left out. The canvas size, the bounding box and the event coordinates are parameters.
- `localStorage.setItem`, `JSON.stringify` and `console.log` in `saveShapes` are left out. The model records the list that would be written, in `saved`.
- The button `disabled` assignments in `updateButtonStates` are not stored as fields. The functions `History.UndoDisabled` and `History.RedoDisabled` give what that method assigns for a log, and their contracts tie each value to whether the operation changes the log.
- The script calls `updateButtonStates` only inside `addToHistory`, `undo` and `redo` (script.js:303, 312, 322). Neither the constructor nor `init` calls it. So the two predicates match the page's buttons only after the first commit, undo or redo; before that the buttons have whatever state the page markup gives them. The model's `Undo` on the initial state stands for a click that a page whose markup disables the undo button would not allow.
- JavaScript numbers are IEEE-754 doubles, but the model uses exact reals, so rounding is not modelled.
- HotSpot.HotSpotManager.DrawImage: the model leaves the placement unchanged when the image or the canvas has a zero size, where the script stores other values:
  - With no image loaded (0 by 0) the image aspect is 0/0, so the script stores NaN in `imageOffsetX` and `imageScale`. It keeps `imageOffsetY` at 0.
  - With an image but a zero-sized canvas the script stores finite values with a zero scale. For example, a 0 by 300 canvas with an 800 by 300 image gives offsetY 150 and scale 0. The next pointer event then divides by that zero scale (script.js:111-112).
  - Until the first repaint the script keeps the initial placement (0, 0, 1), as the model does. A repaint happens through `draw`, the opacity slider, `undo`, `redo` or `stopDrawing`. Only after a repaint without geometry do the script's coordinates stop being finite, while the model keeps mapping with (0, 0, 1) or the last placement.
- HotSpot.HotSpotManager.Draw: the `drawImage` call inside `draw` reassigns the placement fields. Under the invariant it assigns the values they already hold (`DrawImage` ensures this), so the model's `Draw` changes no field.
- HotSpot.HotSpotManager.StartDrawing, Draw and StopDrawing require the canvas's bounding box to have a positive width and height. The script divides by them, and a canvas that receives pointer events is displayed with a non-empty box.
- HotSpot.HotSpotManager.SetOpacity takes the slider's value as a number. The string-to-number coercion of the range input is not modelled, and neither is its 0-100 bound.
