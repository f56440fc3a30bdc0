/** Core Graphics geometry as the iOS plugin uses it (ios/VisionCameraOcr.swift):
    `getFrame` for MLKit rectangles and `convert` from Vision's normalised,
    bottom-left-origin boxes to pixel coordinates. CGFloat is an exact real. */
module IosGeometry {
  import opened Bridge

  datatype Point = Point(x: real, y: real)
  datatype Size = Size(width: real, height: real)

  /** A CGRect. Its accessors are those of the standardised rectangle, as
      Core Graphics defines them: a negative stored width or height still
      gives a non-negative `Width()`/`Height()`. */
  datatype Rect = Rect(origin: Point, size: Size) {
    function Width(): real { Abs(size.width) }
    function Height(): real { Abs(size.height) }
    function MinX(): real { Min(origin.x, origin.x + size.width) }
    function MaxX(): real { Max(origin.x, origin.x + size.width) }
    function MidX(): real { origin.x + size.width / 2.0 }
    function MinY(): real { Min(origin.y, origin.y + size.height) }
    function MaxY(): real { Max(origin.y, origin.y + size.height) }
    function MidY(): real { origin.y + size.height / 2.0 }
  }

  function Abs(r: real): real { if r < 0.0 then -r else r }
  function Min(a: real, b: real): real { if a <= b then a else b }
  function Max(a: real, b: real): real { if a <= b then b else a }

  /** Swift's `ceil`, through `Floor`: the least integer not below `r`. */
  function Ceil(r: real): (c: int)
    ensures r <= c as real < r + 1.0
  {
    -((-r).Floor)
  }

  /** The key set of every `frame` map. */
  const FrameKeys: set<string> := {"x", "y", "width", "height", "boundingCenterX", "boundingCenterY"}

  /** `getFrame`: the six-field frame of an MLKit rectangle. Its `x` and `y`
      work out to half the centre, corrected by how far the size is from
      the next whole number. */
  function GetFrame(frameRect: Rect): (r: Value)
    ensures r.Obj? && r.fields.Keys == FrameKeys
    ensures r.fields["width"] == Num(frameRect.Width()) && r.fields["height"] == Num(frameRect.Height())
    ensures r.fields["boundingCenterX"] == Num((frameRect.MinX() + frameRect.MaxX()) / 2.0)
    ensures r.fields["boundingCenterY"] == Num((frameRect.MinY() + frameRect.MaxY()) / 2.0)
    ensures r.fields["x"] == Num(frameRect.MidX() / 2.0 + (Ceil(frameRect.Width()) as real - frameRect.Width()) / 2.0)
    ensures r.fields["y"] == Num(frameRect.MidY() / 2.0 - Ceil(frameRect.Height()) as real / 2.0 + frameRect.MinY())
  {
    var offsetX := (frameRect.MidX() - Ceil(frameRect.Width()) as real) / 2.0;
    var offsetY := (frameRect.MidY() - Ceil(frameRect.Height()) as real) / 2.0;
    var x := frameRect.MaxX() + offsetX;
    var y := frameRect.MinY() + offsetY;
    Obj(map[
      "x" := Num(frameRect.MidX() + (frameRect.MidX() - x)),
      "y" := Num(frameRect.MidY() + (y - frameRect.MidY())),
      "width" := Num(frameRect.Width()),
      "height" := Num(frameRect.Height()),
      "boundingCenterX" := Num(frameRect.MidX()),
      "boundingCenterY" := Num(frameRect.MidY())
    ])
  }

  /** The affine map from Vision's normalised space (origin bottom left, unit
      square) onto `bounds` in pixel space (origin top left): scale, then
      flip vertically. */
  function ToPixel(p: Point, bounds: Rect): Point {
    Point(p.x * bounds.Width() + bounds.MinX(), (1.0 - p.y) * bounds.Height() + bounds.MinY())
  }

  /** The map `convert` returns. Its top-left corner is the image of the box's
      (left, top) corner and its far corner that of the opposite one: the
      box is scaled and flipped, not merely scaled. */
  function PixelData(boundingBox: Rect, bounds: Rect): (data: map<string, real>)
    ensures data.Keys == {"x", "y", "width", "height"}
    ensures Point(data["x"], data["y"])
         == ToPixel(Point(boundingBox.origin.x, boundingBox.MaxY()), bounds)
    ensures Point(data["x"] + data["width"], data["y"] + data["height"])
         == ToPixel(Point(boundingBox.origin.x + boundingBox.size.width, boundingBox.MaxY() - boundingBox.size.height), bounds)
  {
    var w, h := bounds.Width(), bounds.Height();
    var y := (1.0 - boundingBox.MaxY()) * h + bounds.MinY();
    assert y + boundingBox.size.height * h == (1.0 - (boundingBox.MaxY() - boundingBox.size.height)) * h + bounds.MinY();
    assert boundingBox.origin.x * w + boundingBox.size.width * w == (boundingBox.origin.x + boundingBox.size.width) * w;
    map[
      "x" := boundingBox.origin.x * w + bounds.MinX(),
      "y" := y,
      "width" := boundingBox.size.width * w,
      "height" := boundingBox.size.height * h
    ]
  }

  /** `convert`: rewrites a copy of the box field by field. */
  method Convert(boundingBox: Rect, bounds: Rect) returns (data: map<string, real>)
    ensures data == PixelData(boundingBox, bounds)
  {
    var imageWidth := bounds.Width();
    var imageHeight := bounds.Height();
    var rect := boundingBox;
    rect := rect.(origin := rect.origin.(x := rect.origin.x * imageWidth));
    rect := rect.(origin := rect.origin.(x := rect.origin.x + bounds.MinX()));
    assert rect.MaxY() == boundingBox.MaxY();
    rect := rect.(origin := rect.origin.(y := (1.0 - rect.MaxY()) * imageHeight + bounds.MinY()));
    rect := rect.(size := rect.size.(width := rect.size.width * imageWidth));
    rect := rect.(size := rect.size.(height := rect.size.height * imageHeight));
    data := map["x" := rect.origin.x, "y" := rect.origin.y, "width" := rect.size.width, "height" := rect.size.height];
    assert rect == Rect(Point(boundingBox.origin.x * imageWidth + bounds.MinX(), (1.0 - boundingBox.MaxY()) * imageHeight + bounds.MinY()),
                        Size(boundingBox.size.width * imageWidth, boundingBox.size.height * imageHeight));
    var expected := PixelData(boundingBox, bounds);
    assert data.Keys == expected.Keys;
    assert forall k | k in data :: data[k] == expected[k];
  }

  /** With a box of non-negative size, the flipped box keeps the box's bottom
      edge at pixel row `(1 - by) * H` below the top of the bounds. */
  lemma ConvertFlipsVertically(boundingBox: Rect, bounds: Rect)
    requires boundingBox.size.height >= 0.0
    ensures var d := PixelData(boundingBox, bounds);
      d["y"] + d["height"] == (1.0 - boundingBox.origin.y) * bounds.Height() + bounds.MinY()
      && d["y"] == (1.0 - (boundingBox.origin.y + boundingBox.size.height)) * bounds.Height() + bounds.MinY()
  {
    var d := PixelData(boundingBox, bounds);
    assert boundingBox.MaxY() == boundingBox.origin.y + boundingBox.size.height;
  }

  /** `ToPixel` turns the normalised space upside down: higher in Vision's
      space is nearer the top of the image. */
  lemma {:induction false} ToPixelReversesVerticalOrder(p: Point, q: Point, bounds: Rect)
    requires p.y <= q.y
    ensures ToPixel(q, bounds).y <= ToPixel(p, bounds).y
  {
    var h := bounds.Height();
    assert h >= 0.0;
    assert (1.0 - q.y) * h <= (1.0 - p.y) * h by {
      assert (1.0 - p.y) * h - (1.0 - q.y) * h == (q.y - p.y) * h;
    }
  }

  /** A normalised box inside the unit square lands inside `bounds`, with a
      non-negative pixel size. */
  lemma ConvertStaysInBounds(boundingBox: Rect, bounds: Rect)
    requires 0.0 <= boundingBox.origin.x && 0.0 <= boundingBox.size.width
    requires boundingBox.origin.x + boundingBox.size.width <= 1.0
    requires 0.0 <= boundingBox.origin.y && 0.0 <= boundingBox.size.height
    requires boundingBox.origin.y + boundingBox.size.height <= 1.0
    ensures var d := PixelData(boundingBox, bounds);
      && 0.0 <= d["width"] && 0.0 <= d["height"]
      && bounds.MinX() <= d["x"] && d["x"] + d["width"] <= bounds.MinX() + bounds.Width()
      && bounds.MinY() <= d["y"] && d["y"] + d["height"] <= bounds.MinY() + bounds.Height()
  {
    var d := PixelData(boundingBox, bounds);
    var left, bottom, bw, bh := boundingBox.origin.x, boundingBox.origin.y, boundingBox.size.width, boundingBox.size.height;
    var w, h := bounds.Width(), bounds.Height();
    assert 0.0 <= w && 0.0 <= h;
    NonNegativeProduct(left, w);
    NonNegativeProduct(bw, w);
    NonNegativeProduct(bh, h);
    NonNegativeProduct(1.0 - (left + bw), w);
    NonNegativeProduct(1.0 - (bottom + bh), h);
    NonNegativeProduct(bottom, h);
    assert boundingBox.MaxY() == bottom + bh;
    ConvertFlipsVertically(boundingBox, bounds);
  }

  lemma NonNegativeProduct(a: real, b: real)
    requires 0.0 <= a && 0.0 <= b
    ensures 0.0 <= a * b
  {
  }
}
