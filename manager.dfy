/** HotSpotManager: the object that owns the canvas session. Its fields are
    the gesture state, the image placement and the undo/redo log; each DOM
    event handler is a method. Canvas drawing calls are not modelled; a
    repaint is the placement it recomputes, and the figures it would paint
    are given by module Render. */
module HotSpot {
  import opened Shapes
  import opened Geometry
  import opened Render
  import History

  datatype Option<T> = None | Some(value: T)

  /** The client coordinates a pointer event carries. */
  datatype PointerEvent = PointerEvent(clientX: real, clientY: real)

  class HotSpotManager {
    /** The canvas's pixel size. */
    const canvasWidth: nat
    const canvasHeight: nat
    /** The loaded image's pixel size; 0 by 0 until an image has loaded. */
    var imageWidth: nat
    var imageHeight: nat

    var drawingEnabled: bool
    var isDrawing: bool
    /** The gesture's start point, in image coordinates. */
    var startX: real
    var startY: real
    var selectedShape: ShapeType
    /** The active shape list. */
    var shapes: seq<Shape>

    var imageOffsetX: real
    var imageOffsetY: real
    var imageScale: real

    var history: seq<seq<Shape>>
    var currentState: int
    var opacity: real
    /** The list last written to the 'savedShapes' storage entry by this
        session, if any. */
    var saved: Option<seq<Shape>>

    /** The undo/redo fields as one value. */
    function Log(): History.LogState
      reads this
    {
      History.LogState(history, currentState, shapes)
    }

    /** Both the canvas and the image have a non-zero size, so a placement can
        be computed. */
    predicate HasGeometry()
      reads this
    {
      imageWidth > 0 && imageHeight > 0 && canvasWidth > 0 && canvasHeight > 0
    }

    /** The placement drawImage computes for the current image and canvas. */
    function CurrentPlacement(): Placement
      reads this
      requires HasGeometry()
    {
      Letterbox(imageWidth as real, imageHeight as real, canvasWidth as real, canvasHeight as real)
    }

    /** The stored placement has a positive scale and, once there is
        geometry, is the one drawImage computes for it. */
    predicate PlacementCurrent()
      reads this
    {
      imageScale > 0.0 &&
      (HasGeometry() ==>
        imageOffsetX == CurrentPlacement().offsetX &&
        imageOffsetY == CurrentPlacement().offsetY &&
        imageScale == CurrentPlacement().scale)
    }

    ghost predicate Valid()
      reads this
    {
      History.Valid(Log()) && PlacementCurrent() && Canonical(selectedShape)
    }

    /** The constructor's field values; attaching the DOM listeners (init)
        is not modelled. */
    constructor (canvasWidth: nat, canvasHeight: nat)
      ensures Valid()
      ensures this.canvasWidth == canvasWidth && this.canvasHeight == canvasHeight
      ensures imageWidth == 0 && imageHeight == 0
      ensures !drawingEnabled && !isDrawing && startX == 0.0 && startY == 0.0
      ensures selectedShape == Rectangle
      ensures imageOffsetX == 0.0 && imageOffsetY == 0.0 && imageScale == 1.0
      ensures Log() == History.Initial() && opacity == 1.0 && saved == None
    {
      this.canvasWidth := canvasWidth;
      this.canvasHeight := canvasHeight;
      imageWidth, imageHeight := 0, 0;
      drawingEnabled := false;
      isDrawing := false;
      startX, startY := 0.0, 0.0;
      selectedShape := Rectangle;
      shapes := [];
      imageOffsetX, imageOffsetY, imageScale := 0.0, 0.0, 1.0;
      history := [[]];
      currentState := 0;
      opacity := 1.0;
      saved := None;
    }

    /** The "add hotspot" button: arm the next gesture. */
    method EnableDrawing()
      requires Valid()
      modifies this`drawingEnabled
      ensures Valid() && drawingEnabled
    {
      drawingEnabled := true;
    }

    /** The shape selector's change handler. */
    method SelectShape(value: string)
      requires Valid()
      modifies this`selectedShape
      ensures Valid() && selectedShape == ParseType(value)
    {
      selectedShape := ParseType(value);
    }

    /** The opacity slider's input handler: a value from 0 to 100 becomes an
        alpha from 0 to 1, and the canvas is repainted. */
    method SetOpacity(value: real)
      requires Valid()
      modifies this`opacity, this`imageOffsetX, this`imageOffsetY, this`imageScale
      ensures Valid() && opacity * 100.0 == value
      ensures imageOffsetX == old(imageOffsetX) && imageOffsetY == old(imageOffsetY) && imageScale == old(imageScale)
    {
      opacity := value / 100.0;
      DrawImage();
    }

    /** The image's load event: an image of the given pixel size is now the
        one drawn, and the canvas is repainted with its placement. */
    method LoadImage(width: nat, height: nat)
      requires Valid()
      modifies this`imageWidth, this`imageHeight, this`imageOffsetX, this`imageOffsetY, this`imageScale
      ensures Valid() && imageWidth == width && imageHeight == height
      ensures !HasGeometry() ==>
                imageOffsetX == old(imageOffsetX) && imageOffsetY == old(imageOffsetY) && imageScale == old(imageScale)
    {
      imageWidth, imageHeight := width, height;
      DrawImage();
    }

    /** The placement part of drawImage. Without geometry the source stores
        NaN (no image loaded) or a zero scale (a zero-sized canvas); the model
        leaves the placement as it was. */
    method DrawImage()
      requires imageScale > 0.0
      modifies this`imageOffsetX, this`imageOffsetY, this`imageScale
      ensures PlacementCurrent()
      ensures old(PlacementCurrent()) || !HasGeometry() ==>
                imageOffsetX == old(imageOffsetX) && imageOffsetY == old(imageOffsetY) && imageScale == old(imageScale)
    {
      if HasGeometry() {
        var p := CurrentPlacement();
        imageOffsetX := p.offsetX;
        imageOffsetY := p.offsetY;
        imageScale := p.scale;
      }
    }

    /** The figures drawImage paints over the image: the active shapes. */
    function Painted(): (g: seq<Glyph>)
      reads this
      requires imageScale > 0.0
      ensures |g| == |shapes|
      ensures forall i :: 0 <= i < |shapes| ==> g[i] == Figure(shapes[i], imageOffsetX, imageOffsetY, imageScale)
    {
      Scene(shapes, imageOffsetX, imageOffsetY, imageScale)
    }

    /** getMousePos: the event's position in canvas pixels, given the
        canvas's bounding box. */
    function GetMousePos(e: PointerEvent, rect: ClientRect): (pos: Point)
      reads this
      requires rect.width > 0.0 && rect.height > 0.0
      ensures pos.x * rect.width == (e.clientX - rect.left) * canvasWidth as real
      ensures pos.y * rect.height == (e.clientY - rect.top) * canvasHeight as real
    {
      ClientToCanvas(e.clientX, e.clientY, rect, canvasWidth as real, canvasHeight as real)
    }

    /** A canvas position in image coordinates under the current placement. */
    function ImagePoint(pos: Point): (p: Point)
      reads this
      requires imageScale > 0.0
      ensures ImageToScreen(p.x, imageOffsetX, imageScale) == pos.x
      ensures ImageToScreen(p.y, imageOffsetY, imageScale) == pos.y
    {
      Point(ScreenToImage(pos.x, imageOffsetX, imageScale), ScreenToImage(pos.y, imageOffsetY, imageScale))
    }

    /** pointerdown: when armed, a gesture starts at the event's position in
        image coordinates; otherwise the event is ignored. */
    method StartDrawing(e: PointerEvent, rect: ClientRect)
      requires Valid() && rect.width > 0.0 && rect.height > 0.0
      modifies this`isDrawing, this`startX, this`startY
      ensures Valid()
      ensures !old(drawingEnabled) ==>
                isDrawing == old(isDrawing) && startX == old(startX) && startY == old(startY)
      ensures old(drawingEnabled) ==>
                isDrawing && Point(startX, startY) == ImagePoint(GetMousePos(e, rect))
    {
      if !drawingEnabled {
        return;
      }
      var pos := GetMousePos(e, rect);
      isDrawing := true;
      startX := ScreenToImage(pos.x, imageOffsetX, imageScale);
      startY := ScreenToImage(pos.y, imageOffsetY, imageScale);
    }

    /** pointermove: during an armed gesture, the provisional shape from the
        start point to the event's position, numbered after the active
        shapes, and the frame repainted with it on top. Nothing is stored:
        the repaint recomputes the placement already held (see DrawImage). */
    method Draw(e: PointerEvent, rect: ClientRect) returns (preview: Option<Shape>, frame: seq<Glyph>)
      requires Valid() && rect.width > 0.0 && rect.height > 0.0
      ensures preview.Some? <==> drawingEnabled && isDrawing
      ensures preview.None? ==> frame == []
      ensures preview.Some? ==>
                var p := preview.value;
                var pos := GetMousePos(e, rect);
                p.kind == selectedShape && p.startX == startX && p.startY == startY &&
                ImageToScreen(p.endX, imageOffsetX, imageScale) == pos.x &&
                ImageToScreen(p.endY, imageOffsetY, imageScale) == pos.y &&
                p.index == |shapes| + 1 &&
                frame == Painted() + [Figure(p, imageOffsetX, imageOffsetY, imageScale)]
    {
      if !drawingEnabled || !isDrawing {
        return None, [];
      }
      var pos := GetMousePos(e, rect);
      var endX := ScreenToImage(pos.x, imageOffsetX, imageScale);
      var endY := ScreenToImage(pos.y, imageOffsetY, imageScale);
      var shape := Shape(selectedShape, startX, startY, endX, endY, |shapes| + 1);
      preview := Some(shape);
      frame := Painted() + [Figure(shape, imageOffsetX, imageOffsetY, imageScale)];
    }

    /** pointerup: during an armed gesture, the finished shape is committed
        to the log together with the active shapes, becomes the last active
        shape, and drawing is disarmed; otherwise the event is ignored. */
    method StopDrawing(e: PointerEvent, rect: ClientRect)
      requires Valid() && rect.width > 0.0 && rect.height > 0.0
      modifies this`history, this`currentState, this`shapes, this`isDrawing, this`drawingEnabled, this`saved
      modifies this`imageOffsetX, this`imageOffsetY, this`imageScale
      ensures Valid()
      ensures !(old(drawingEnabled) && old(isDrawing)) ==> unchanged(this)
      ensures old(drawingEnabled) && old(isDrawing) ==>
                var end := old(ImagePoint(GetMousePos(e, rect)));
                var x := Shape(old(selectedShape), old(startX), old(startY), end.x, end.y, |old(shapes)| + 1);
                Log() == History.AppendShape(old(Log()), x) &&
                shapes == old(shapes) + [x] &&
                history == old(history)[..old(currentState) + 1] + [shapes] &&
                currentState == old(currentState) + 1 &&
                History.RedoDisabled(Log()) &&
                !drawingEnabled && !isDrawing && saved == Some(shapes)
      ensures imageOffsetX == old(imageOffsetX) && imageOffsetY == old(imageOffsetY) && imageScale == old(imageScale)
    {
      if !drawingEnabled || !isDrawing {
        return;
      }
      var pos := GetMousePos(e, rect);
      var endX := ScreenToImage(pos.x, imageOffsetX, imageScale);
      var endY := ScreenToImage(pos.y, imageOffsetY, imageScale);
      var newShape := Shape(selectedShape, startX, startY, endX, endY, |shapes| + 1);
      ghost var before := Log();
      History.AppendShapeValid(before, newShape);

      AddToHistory(shapes + [newShape]);
      shapes := shapes + [newShape];
      assert Log() == History.AppendShape(before, newShape);

      isDrawing := false;
      drawingEnabled := false;
      DrawImage();
      SaveShapes();
      RenumberFixes(shapes);
    }

    /** addToHistory: commit a renumbered copy of the list and save the active
        shapes. The button states it refreshes are History.UndoDisabled and
        History.RedoDisabled of the new log. */
    method AddToHistory(s: seq<Shape>)
      requires History.PointerInRange(Log())
      modifies this`history, this`currentState, this`saved
      ensures Log() == History.Commit(old(Log()), s)
      ensures saved == Some(Renumber(shapes))
    {
      var shapesWithIndices := Renumber(s);
      if currentState == -1 && |history| == 0 {
        history := history + [[]];
        currentState := currentState + 1;
      }
      history := history[..currentState + 1];
      history := history + [shapesWithIndices];
      currentState := currentState + 1;
      SaveShapes();
    }

    /** undo: step the pointer back while it is not -1, select that snapshot,
        repaint and save. */
    method Undo()
      requires Valid()
      modifies this`currentState, this`shapes, this`saved, this`imageOffsetX, this`imageOffsetY, this`imageScale
      ensures Valid()
      ensures Log() == History.Undo(old(Log()))
      ensures old(currentState) >= 0 ==> saved == Some(shapes)
      ensures old(currentState) < 0 ==> saved == old(saved)
      ensures imageOffsetX == old(imageOffsetX) && imageOffsetY == old(imageOffsetY) && imageScale == old(imageScale)
    {
      History.UndoValid(Log());
      if currentState >= 0 {
        currentState := currentState - 1;
        shapes := if currentState >= 0 then history[currentState] else [];
        DrawImage();
        SaveShapes();
        History.ValidShapesNumbered(Log());
        RenumberFixes(shapes);
      }
    }

    /** redo: step the pointer forward while it is not at the last snapshot,
        select that snapshot, repaint and save. */
    method Redo()
      requires Valid()
      modifies this`currentState, this`shapes, this`saved, this`imageOffsetX, this`imageOffsetY, this`imageScale
      ensures Valid()
      ensures Log() == History.Redo(old(Log()))
      ensures old(currentState) < |history| - 1 ==> saved == Some(shapes)
      ensures old(currentState) >= |history| - 1 ==> saved == old(saved)
      ensures imageOffsetX == old(imageOffsetX) && imageOffsetY == old(imageOffsetY) && imageScale == old(imageScale)
    {
      History.RedoValid(Log());
      if currentState < |history| - 1 {
        currentState := currentState + 1;
        shapes := history[currentState];
        DrawImage();
        SaveShapes();
        History.ValidShapesNumbered(Log());
        RenumberFixes(shapes);
      }
    }

    /** saveShapes: the list written to storage is the active list,
        renumbered by position. */
    method SaveShapes()
      modifies this`saved
      ensures saved == Some(Renumber(shapes))
    {
      saved := Some(Renumber(shapes));
    }
  }
}
