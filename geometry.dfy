/** Coordinate arithmetic of the hotspot manager over exact reals: the
    letterbox placement of the image on the canvas, the scaling of client
    (CSS) pointer coordinates to canvas pixels, and the mapping between
    canvas pixels and image pixels. */
module Geometry {

  datatype Point = Point(x: real, y: real)

  /** Where drawImage puts the image: its top-left corner on the canvas, the
      factor from image pixels to canvas pixels, and the drawn size. */
  datatype Placement = Placement(offsetX: real, offsetY: real, scale: real, drawWidth: real, drawHeight: real)

  /** The canvas's bounding box in client coordinates. */
  datatype ClientRect = ClientRect(left: real, top: real, width: real, height: real)

  function Min(a: real, b: real): real { if a <= b then a else b }

  /** Aspect ratios compare as the cross products do. */
  lemma AspectOrder(iw: real, ih: real, cw: real, ch: real)
    requires iw > 0.0 && ih > 0.0 && cw > 0.0 && ch > 0.0
    ensures iw / ih > cw / ch <==> iw * ch > cw * ih
  {
    assert iw / ih * (ih * ch) == iw * ch;
    assert cw / ch * (ih * ch) == cw * ih;
    assert ih * ch > 0.0;
  }

  /** Fitting to the canvas width: the drawn height is no more than the canvas
      height, and it is the image height times the scale. */
  lemma WidthFit(iw: real, ih: real, cw: real, ch: real)
    requires iw > 0.0 && ih > 0.0 && cw > 0.0 && ch > 0.0
    requires iw * ch > cw * ih
    ensures cw / (iw / ih) == ih * (cw / iw)
    ensures ih * (cw / iw) < ch
    ensures cw / iw < ch / ih
  {
    var s := cw / iw;
    assert s * iw == cw;
    assert iw / ih * ih == iw;
    assert ih * s * (iw / ih) == cw;
    assert ih * s * iw == cw * ih;
    assert ih * s * iw < iw * ch;
    assert ch / ih * ih == ch;
  }

  /** Fitting to the canvas height: the drawn width is no more than the canvas
      width, and the scale is the canvas height over the image height. */
  lemma HeightFit(iw: real, ih: real, cw: real, ch: real)
    requires iw > 0.0 && ih > 0.0 && cw > 0.0 && ch > 0.0
    requires iw * ch <= cw * ih
    ensures ch * (iw / ih) / iw == ch / ih
    ensures ch * (iw / ih) <= cw
    ensures ch / ih <= cw / iw
  {
    var s := ch / ih;
    assert s * ih == ch;
    assert ch * (iw / ih) == s * iw;
    assert s * iw * ih == iw * ch;
    assert s * iw * ih <= cw * ih;
    assert cw / iw * iw == cw;
  }

  /** The placement arithmetic of drawImage. The image keeps its aspect ratio,
      fills one canvas axis and is centred on the other. */
  function Letterbox(imageWidth: real, imageHeight: real, canvasWidth: real, canvasHeight: real): (p: Placement)
    requires imageWidth > 0.0 && imageHeight > 0.0 && canvasWidth > 0.0 && canvasHeight > 0.0
    ensures p.scale > 0.0 && p.offsetX >= 0.0 && p.offsetY >= 0.0
    ensures p.offsetX == 0.0 || p.offsetY == 0.0
    ensures p.drawWidth == imageWidth * p.scale && p.drawHeight == imageHeight * p.scale
    ensures p.offsetX + p.drawWidth + p.offsetX == canvasWidth
    ensures p.offsetY + p.drawHeight + p.offsetY == canvasHeight
    ensures p.scale == Min(canvasWidth / imageWidth, canvasHeight / imageHeight)
    ensures imageWidth / imageHeight > canvasWidth / canvasHeight ==>
              p.drawWidth == canvasWidth && p.offsetX == 0.0
    ensures imageWidth / imageHeight <= canvasWidth / canvasHeight ==>
              p.drawHeight == canvasHeight && p.offsetY == 0.0
  {
    var imageAspect := imageWidth / imageHeight;
    var canvasAspect := canvasWidth / canvasHeight;
    AspectOrder(imageWidth, imageHeight, canvasWidth, canvasHeight);
    if imageAspect > canvasAspect then
      var drawWidth := canvasWidth;
      var drawHeight := canvasWidth / imageAspect;
      WidthFit(imageWidth, imageHeight, canvasWidth, canvasHeight);
      Placement(0.0, (canvasHeight - drawHeight) / 2.0, drawWidth / imageWidth, drawWidth, drawHeight)
    else
      var drawHeight := canvasHeight;
      var drawWidth := canvasHeight * imageAspect;
      HeightFit(imageWidth, imageHeight, canvasWidth, canvasHeight);
      Placement((canvasWidth - drawWidth) / 2.0, 0.0, drawWidth / imageWidth, drawWidth, drawHeight)
  }

  /** An image with the canvas's own aspect ratio is not letterboxed. */
  lemma SameAspectFills(imageWidth: real, imageHeight: real, canvasWidth: real, canvasHeight: real)
    requires imageWidth > 0.0 && imageHeight > 0.0 && canvasWidth > 0.0 && canvasHeight > 0.0
    requires imageWidth * canvasHeight == canvasWidth * imageHeight
    ensures var p := Letterbox(imageWidth, imageHeight, canvasWidth, canvasHeight);
            p.offsetX == 0.0 && p.offsetY == 0.0 &&
            p.drawWidth == canvasWidth && p.drawHeight == canvasHeight
  {
    AspectOrder(imageWidth, imageHeight, canvasWidth, canvasHeight);
    var p := Letterbox(imageWidth, imageHeight, canvasWidth, canvasHeight);
    assert p.drawWidth == imageWidth * (canvasHeight / imageHeight);
    assert canvasHeight / imageHeight * imageHeight == canvasHeight;
    assert imageWidth * (canvasHeight / imageHeight) * imageHeight == canvasWidth * imageHeight;
  }

  /** A 400 by 300 canvas showing an 800 by 300 image: fitted to the width at
      half size, 75 pixels of band above and below. */
  lemma WideImageExample()
    ensures Letterbox(800.0, 300.0, 400.0, 300.0) == Placement(0.0, 75.0, 0.5, 400.0, 150.0)
  {
    AspectOrder(800.0, 300.0, 400.0, 300.0);
  }

  /** getMousePos: a client coordinate relative to the bounding box, scaled by
      the ratio of canvas pixels to CSS pixels on each axis. */
  function ClientToCanvas(clientX: real, clientY: real, rect: ClientRect, canvasWidth: real, canvasHeight: real): (pos: Point)
    requires rect.width > 0.0 && rect.height > 0.0
    ensures pos.x * rect.width == (clientX - rect.left) * canvasWidth
    ensures pos.y * rect.height == (clientY - rect.top) * canvasHeight
  {
    var scaleX := canvasWidth / rect.width;
    var scaleY := canvasHeight / rect.height;
    Point((clientX - rect.left) * scaleX, (clientY - rect.top) * scaleY)
  }

  /** The inverse of getMousePos: where a canvas pixel is shown on screen. */
  function CanvasToClient(pos: Point, rect: ClientRect, canvasWidth: real, canvasHeight: real): Point
    requires canvasWidth > 0.0 && canvasHeight > 0.0
  {
    Point(rect.left + pos.x * rect.width / canvasWidth, rect.top + pos.y * rect.height / canvasHeight)
  }

  /** Scaling a client point to the canvas and back gives the point again,
      and so does the other order. */
  lemma ClientCanvasRoundTrip(clientX: real, clientY: real, pos: Point, rect: ClientRect,
                              canvasWidth: real, canvasHeight: real)
    requires rect.width > 0.0 && rect.height > 0.0 && canvasWidth > 0.0 && canvasHeight > 0.0
    ensures CanvasToClient(ClientToCanvas(clientX, clientY, rect, canvasWidth, canvasHeight),
                           rect, canvasWidth, canvasHeight) == Point(clientX, clientY)
    ensures ClientToCanvas(CanvasToClient(pos, rect, canvasWidth, canvasHeight).x,
                           CanvasToClient(pos, rect, canvasWidth, canvasHeight).y,
                           rect, canvasWidth, canvasHeight) == pos
  {
  }

  /** The corners of the bounding box land on the corners of the canvas. */
  lemma ClientCorners(rect: ClientRect, canvasWidth: real, canvasHeight: real)
    requires rect.width > 0.0 && rect.height > 0.0
    ensures ClientToCanvas(rect.left, rect.top, rect, canvasWidth, canvasHeight) == Point(0.0, 0.0)
    ensures ClientToCanvas(rect.left + rect.width, rect.top + rect.height, rect, canvasWidth, canvasHeight)
         == Point(canvasWidth, canvasHeight)
  {
  }

  /** Screen (canvas pixel) coordinate to image coordinate on one axis, as in
      startDrawing, draw and stopDrawing. */
  function ScreenToImage(q: real, offset: real, scale: real): (p: real)
    requires scale > 0.0
    ensures p * scale + offset == q
  {
    (q - offset) / scale
  }

  /** Image coordinate to screen coordinate on one axis, as in drawShape. */
  function ImageToScreen(p: real, offset: real, scale: real): (q: real)
    requires scale > 0.0
    ensures (q - offset) / scale == p
  {
    p * scale + offset
  }

  /** Distances scale uniformly: a screen distance is the image distance
      times the scale, whatever the offset, and the other way round. */
  lemma {:induction false} ScreenImageDistances(p1: real, p2: real, q1: real, q2: real, offset: real, scale: real)
    requires scale > 0.0
    ensures ImageToScreen(p2, offset, scale) - ImageToScreen(p1, offset, scale) == (p2 - p1) * scale
    ensures (ScreenToImage(q2, offset, scale) - ScreenToImage(q1, offset, scale)) * scale == q2 - q1
  {
  }

  /** A larger image coordinate is drawn further right (or down): the
      mapping keeps the order of points. */
  lemma ImageToScreenMonotone(p1: real, p2: real, offset: real, scale: real)
    requires scale > 0.0 && p1 < p2
    ensures ImageToScreen(p1, offset, scale) < ImageToScreen(p2, offset, scale)
  {
  }

  /** In the 400 by 300 canvas showing an 800 by 300 image, a gesture from
      screen (100, 100) to (200, 150) runs from image (200, 50) to (400, 150). */
  lemma WideImageGesture()
    ensures var p := Letterbox(800.0, 300.0, 400.0, 300.0);
            ScreenToImage(100.0, p.offsetX, p.scale) == 200.0 &&
            ScreenToImage(100.0, p.offsetY, p.scale) == 50.0 &&
            ScreenToImage(200.0, p.offsetX, p.scale) == 400.0 &&
            ScreenToImage(150.0, p.offsetY, p.scale) == 150.0
  {
    WideImageExample();
  }
}
