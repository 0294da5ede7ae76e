/** The geometry of drawShape, as values instead of canvas calls: the
    screen rectangle a shape spans, the outline its type draws, and the
    numbered handle every shape gets. */
module Render {
  import opened Shapes
  import opened Geometry

  /** The radius, in canvas pixels, of the handle drawn at a shape's start. */
  const HandleRadius: real := 7.0

  /** A screen rectangle anchored at (x, y); width and height are negative
      when the gesture went left or up. */
  datatype Box = Box(x: real, y: real, width: real, height: real)

  /** What drawShape strokes and fills for a shape's type.
      Outline: strokeRect and fill pattern over the same signed rectangle.
      Disc: the circle arc, with the pattern clipped to it.
      Tri: the triangle path, with the pattern over the whole box clipped to it.
      NoBody: a type the switch does not know; nothing but the handle. */
  datatype Body =
    | Outline(rect: Box)
    | Disc(centerX: real, centerY: real, radius: real)
    | Tri(bottomLeft: Point, apex: Point, bottomRight: Point, pattern: Box)
    | NoBody

  /** One drawn shape: its body and its handle, labelled with the shape's index. */
  datatype Glyph = Glyph(body: Body, handle: Point, handleRadius: real, number: int)

  function Abs(x: real): real { if x < 0.0 then -x else x }

  /** Math.sign on a real number. */
  function Sign(x: real): real { if x > 0.0 then 1.0 else if x < 0.0 then -1.0 else 0.0 }

  /** The rectangle drawShape computes from the shape's image coordinates and
      the current placement: anchored at the start point's screen position,
      its far corner is the end point's screen position. */
  function ScreenBox(s: Shape, offsetX: real, offsetY: real, scale: real): (b: Box)
    requires scale > 0.0
    ensures b.x == ImageToScreen(s.startX, offsetX, scale) && b.y == ImageToScreen(s.startY, offsetY, scale)
    ensures b.width == (s.endX - s.startX) * scale && b.height == (s.endY - s.startY) * scale
    ensures b.x + b.width == ImageToScreen(s.endX, offsetX, scale)
    ensures b.y + b.height == ImageToScreen(s.endY, offsetY, scale)
  {
    Box(ImageToScreen(s.startX, offsetX, scale), ImageToScreen(s.startY, offsetY, scale),
        (s.endX - s.startX) * scale, (s.endY - s.startY) * scale)
  }

  /** The side of the square drawn for a drag of this width and height: the
      shorter of the two extents. */
  function SquareSide(width: real, height: real): (side: real)
    ensures 0.0 <= side && side <= Abs(width) && side <= Abs(height)
    ensures side == Abs(width) || side == Abs(height)
  {
    Min(Abs(width), Abs(height))
  }

  /** The radius of the circle drawn for a drag: half the shorter extent. */
  function CircleRadius(width: real, height: real): (radius: real)
    ensures 0.0 <= radius && radius + radius <= Abs(width) && radius + radius <= Abs(height)
    ensures radius + radius == Abs(width) || radius + radius == Abs(height)
  {
    Min(Abs(width), Abs(height)) / 2.0
  }

  /** The switch in drawShape, on the shape's screen rectangle: each known
      type draws its own kind of body, rectangles and squares from the start
      point, and any other type draws none. */
  function ShapeBody(kind: ShapeType, b: Box): (body: Body)
    ensures body.Outline? <==> kind == Rectangle || kind == Square
    ensures body.Disc? <==> kind == Circle
    ensures body.Tri? <==> kind == Triangle
    ensures body.NoBody? <==> kind.Other?
    ensures body.Outline? ==> body.rect.x == b.x && body.rect.y == b.y
    ensures kind == Rectangle ==> body.rect == b
  {
    match kind
    case Rectangle => Outline(b)
    case Square =>
      var side := SquareSide(b.width, b.height);
      Outline(Box(b.x, b.y, side * Sign(b.width), side * Sign(b.height)))
    case Circle =>
      Disc(b.x + b.width / 2.0, b.y + b.height / 2.0, CircleRadius(b.width, b.height))
    case Triangle =>
      Tri(Point(b.x, b.y + b.height), Point(b.x + b.width / 2.0, b.y), Point(b.x + b.width, b.y + b.height), b)
    case Other(_) => NoBody
  }

  /** drawShape for one shape: its body, and the handle at its start point. */
  function Figure(s: Shape, offsetX: real, offsetY: real, scale: real): (g: Glyph)
    requires scale > 0.0
    ensures g.handle == Point(ImageToScreen(s.startX, offsetX, scale), ImageToScreen(s.startY, offsetY, scale))
    ensures g.handleRadius == HandleRadius && g.number == s.index
    ensures g.body == ShapeBody(s.kind, ScreenBox(s, offsetX, offsetY, scale))
  {
    var b := ScreenBox(s, offsetX, offsetY, scale);
    Glyph(ShapeBody(s.kind, b), Point(b.x, b.y), HandleRadius, s.index)
  }

  /** The shapes drawImage paints over the image, in list order. */
  function Scene(shapes: seq<Shape>, offsetX: real, offsetY: real, scale: real): (g: seq<Glyph>)
    requires scale > 0.0
    ensures |g| == |shapes|
    ensures forall i :: 0 <= i < |shapes| ==> g[i] == Figure(shapes[i], offsetX, offsetY, scale)
  {
    seq(|shapes|, i requires 0 <= i < |shapes| => Figure(shapes[i], offsetX, offsetY, scale))
  }

  /** A numbered list is painted with the handle labels 1..n. */
  lemma SceneLabels(shapes: seq<Shape>, offsetX: real, offsetY: real, scale: real)
    requires scale > 0.0 && NumberedFrom1(shapes)
    ensures forall i :: 0 <= i < |shapes| ==> Scene(shapes, offsetX, offsetY, scale)[i].number == i + 1
  {
  }

  /** The square keeps the drag's direction on each axis, has equal sides
      when the drag has extent on both axes, and lies inside the drag's box. */
  lemma SquareFollowsDrag(b: Box)
    ensures ShapeBody(Square, b).Outline? && ShapeBody(Square, b).rect.x == b.x && ShapeBody(Square, b).rect.y == b.y
    ensures var r := ShapeBody(Square, b).rect;
            r.width * b.width >= 0.0 && r.height * b.height >= 0.0 &&
            Abs(r.width) <= Abs(b.width) && Abs(r.height) <= Abs(b.height) &&
            (b.width != 0.0 && b.height != 0.0 ==> Abs(r.width) == Abs(r.height) == SquareSide(b.width, b.height)) &&
            (b.width == 0.0 || b.height == 0.0 ==> r.width == 0.0 && r.height == 0.0)
  {
    var side := SquareSide(b.width, b.height);
    assert side * Sign(b.width) * b.width == side * Abs(b.width);
    assert side * Sign(b.height) * b.height == side * Abs(b.height);
  }

  /** A drag 40 wide and 100 up draws the square (40, -40) from its start. */
  lemma SquareExample(x: real, y: real)
    ensures ShapeBody(Square, Box(x, y, 40.0, -100.0)) == Outline(Box(x, y, 40.0, -40.0))
  {
  }

  /** The circle is centred in the drag's box and fits inside it. */
  lemma CircleInscribed(b: Box)
    ensures var d := ShapeBody(Circle, b);
            d.Disc? && d.centerX + d.centerX == b.x + (b.x + b.width) &&
            d.centerY + d.centerY == b.y + (b.y + b.height) &&
            Min(b.x, b.x + b.width) <= d.centerX - d.radius &&
            d.centerX + d.radius <= Min(b.x, b.x + b.width) + Abs(b.width) &&
            Min(b.y, b.y + b.height) <= d.centerY - d.radius &&
            d.centerY + d.radius <= Min(b.y, b.y + b.height) + Abs(b.height)
  {
  }

  /** The triangle is isosceles: its base is the box's far horizontal edge
      and its apex is the middle of the start edge. */
  lemma TriangleIsosceles(b: Box)
    ensures var t := ShapeBody(Triangle, b);
            t.Tri? && t.pattern == b &&
            t.bottomLeft == Point(b.x, b.y + b.height) && t.bottomRight == Point(b.x + b.width, b.y + b.height) &&
            t.apex.y == b.y && t.apex.x - t.bottomLeft.x == t.bottomRight.x - t.apex.x
  {
  }

  /** A type the switch does not list draws only its handle. */
  lemma UnknownTypeDrawsHandleOnly(s: Shape, offsetX: real, offsetY: real, scale: real)
    requires scale > 0.0 && s.kind.Other?
    ensures Figure(s, offsetX, offsetY, scale).body == NoBody
  {
  }
}
