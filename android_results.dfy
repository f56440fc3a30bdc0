/** The Android builders that turn MLKit's `Text` into React Native maps and
    arrays (android/src/main/java/com/visioncameraocr/OCRFrameProcessorPlugin.kt).
    A `WritableNativeMap` is an `Obj`, a `WritableNativeArray` an `Arr`; an
    array or map put as Kotlin `null` is `Null`. */
module AndroidResults {
  import opened Bridge

  /** android.graphics.Point. */
  datatype Point = Point(x: int, y: int)

  /** android.graphics.Rect, with the accessors the plugin reads. */
  datatype Rect = Rect(left: int, top: int, right: int, bottom: int) {
    function Width(): int { right - left }
    function Height(): int { bottom - top }
    /** `(left + right) >> 1`: an arithmetic shift rounds down, as Dafny's
        division by a positive number does. */
    function CenterX(): int { (left + right) / 2 }
    function CenterY(): int { (top + bottom) / 2 }
    /** `(left + right) * 0.5f`. */
    function ExactCenterX(): real { (left + right) as real * 0.5 }
    function ExactCenterY(): real { (top + bottom) as real * 0.5 }
  }

  datatype Element = Element(text: string, cornerPoints: Option<seq<Point>>, boundingBox: Option<Rect>)

  datatype Line = Line(
    text: string, recognizedLanguage: string, cornerPoints: Option<seq<Point>>,
    boundingBox: Option<Rect>, elements: seq<Element>, confidence: real, angle: real)

  datatype Block = Block(
    text: string, recognizedLanguage: string, cornerPoints: Option<seq<Point>>,
    boundingBox: Option<Rect>, lines: seq<Line>)

  const FrameKeys: set<string> := {"x", "y", "width", "height", "boundingCenterX", "boundingCenterY"}

  /** `getRecognizedLanguages`: MLKit reports one language per block or line,
      and the array always holds exactly that string. */
  function GetRecognizedLanguages(recognizedLanguage: string): (r: Value)
    ensures r.Arr? && |r.items| == 1 && r.items[0] == Str(recognizedLanguage)
  {
    Arr([Str(recognizedLanguage)])
  }

  function PointMap(p: Point): Value {
    Obj(map["x" := Int(p.x), "y" := Int(p.y)])
  }

  function CornerPointMaps(points: seq<Point>): seq<Value> {
    seq(|points|, i requires 0 <= i < |points| => PointMap(points[i]))
  }

  /** Reads one `{x, y}` map back into a point. */
  function ReadPoint(v: Value): Option<Point> {
    if v.Obj? && "x" in v.fields && "y" in v.fields && v.fields["x"].Int? && v.fields["y"].Int?
    then Some(Point(v.fields["x"].i, v.fields["y"].i))
    else None
  }

  /** Reads a `cornerPoints` array back; fails if any entry is not a point. */
  function ReadCornerPoints(values: seq<Value>): Option<seq<Point>> {
    if values == [] then Some([])
    else
      match ReadPoint(values[0])
      case None => None
      case Some(p) =>
        match ReadCornerPoints(values[1..])
        case None => None
        case Some(ps) => Some([p] + ps)
  }

  /** `getCornerPoints` loses nothing: reading its array back gives every
      point, in order, with its coordinates unchanged. */
  lemma {:induction false} CornerPointsRoundTrip(points: seq<Point>)
    ensures ReadCornerPoints(CornerPointMaps(points)) == Some(points)
  {
    if points != [] {
      assert CornerPointMaps(points)[1..] == CornerPointMaps(points[1..]);
      CornerPointsRoundTrip(points[1..]);
      assert [points[0]] + points[1..] == points;
    }
  }

  /** `getCornerPoints`: one integer `{x, y}` map per point, in order. */
  method GetCornerPoints(points: seq<Point>) returns (cornerPoints: seq<Value>)
    ensures cornerPoints == CornerPointMaps(points)
  {
    cornerPoints := [];
    var i := 0;
    while i < |points|
      invariant 0 <= i <= |points| && |cornerPoints| == i
      invariant forall j :: 0 <= j < i ==> cornerPoints[j] == PointMap(points[j])
    {
      var pointMap: map<string, Value> := map[];
      pointMap := pointMap["x" := Int(points[i].x)];
      pointMap := pointMap["y" := Int(points[i].y)];
      cornerPoints := cornerPoints + [Obj(pointMap)];
      i := i + 1;
    }
  }

  /** `block.cornerPoints?.let { getCornerPoints(it) }`, as put into a map. */
  function CornerPointsValue(cornerPoints: Option<seq<Point>>): Value {
    if cornerPoints.Some? then Arr(CornerPointMaps(cornerPoints.value)) else Null
  }

  /** Halving an integer and rounding down is the floor of the exact half. */
  lemma HalfFloor(n: int)
    ensures (n as real / 2.0).Floor == n / 2
  {
    var q := n / 2;
    assert n == 2 * q + n % 2;
    assert n as real / 2.0 == q as real + (n % 2) as real / 2.0;
  }

  /** `getFrame`: nothing for a missing box; otherwise the six fields: the
      exact centre as `x` and `y`, the width and height, and the integer
      centre, which is the exact centre rounded down. */
  function GetFrame(boundingBox: Option<Rect>): (r: Value)
    ensures r.Obj?
    ensures boundingBox.None? ==> r.fields == map[]
    ensures boundingBox.Some? ==> var b := boundingBox.value;
      && r.fields.Keys == FrameKeys
      && r.fields["width"] == Int(b.right - b.left) && r.fields["height"] == Int(b.bottom - b.top)
      && r.fields["x"] == Num((b.left + b.right) as real / 2.0)
      && r.fields["y"] == Num((b.top + b.bottom) as real / 2.0)
      && r.fields["boundingCenterX"] == Int(((b.left + b.right) as real / 2.0).Floor)
      && r.fields["boundingCenterY"] == Int(((b.top + b.bottom) as real / 2.0).Floor)
      && r.fields["x"].Num? && r.fields["boundingCenterX"].Int?
      && r.fields["boundingCenterX"].i as real <= r.fields["x"].r < r.fields["boundingCenterX"].i as real + 1.0
      && r.fields["y"].Num? && r.fields["boundingCenterY"].Int?
      && r.fields["boundingCenterY"].i as real <= r.fields["y"].r < r.fields["boundingCenterY"].i as real + 1.0
  {
    var frame: map<string, Value> := map[];
    if boundingBox.None? then Obj(frame)
    else
      var b := boundingBox.value;
      HalfFloor(b.left + b.right);
      HalfFloor(b.top + b.bottom);
      Obj(frame[
        "x" := Num(b.ExactCenterX())][
        "y" := Num(b.ExactCenterY())][
        "width" := Int(b.Width())][
        "height" := Int(b.Height())][
        "boundingCenterX" := Int(b.CenterX())][
        "boundingCenterY" := Int(b.CenterY())])
  }

  /** `getElementArray` builds each element's map but never pushes it: the
      array it returns is always empty. */
  method GetElementArray(elements: seq<Element>) returns (elementArray: seq<Value>)
    ensures elementArray == []
  {
    elementArray := [];
    var i := 0;
    while i < |elements|
      invariant 0 <= i <= |elements|
    {
      var element := elements[i];
      var elementMap: map<string, Value> := map[];
      elementMap := elementMap["text" := Str(element.text)];
      var cornerPoints := Null;
      if element.cornerPoints.Some? {
        var points := GetCornerPoints(element.cornerPoints.value);
        cornerPoints := Arr(points);
      }
      elementMap := elementMap["cornerPoints" := cornerPoints];
      elementMap := elementMap["frame" := GetFrame(element.boundingBox)];
      i := i + 1;
    }
  }

  /** The map `getLineArray` pushes for one line. */
  function LineMap(l: Line): (v: Value)
    ensures v.Obj?
    ensures v.fields.Keys == {"text", "recognizedLanguages", "cornerPoints", "frame", "elements", "confidence", "angle"}
    ensures v.fields["text"] == Str(l.text)
    ensures v.fields["elements"] == Arr([])
    ensures v.fields["confidence"] == Num(l.confidence) && v.fields["angle"] == Num(l.angle)
  {
    Obj(map[
      "text" := Str(l.text),
      "recognizedLanguages" := GetRecognizedLanguages(l.recognizedLanguage),
      "cornerPoints" := CornerPointsValue(l.cornerPoints),
      "frame" := GetFrame(l.boundingBox),
      "elements" := Arr([]),
      "confidence" := Num(l.confidence),
      "angle" := Num(l.angle)
    ])
  }

  function LineMaps(lines: seq<Line>): seq<Value> {
    seq(|lines|, i requires 0 <= i < |lines| => LineMap(lines[i]))
  }

  /** The map `getBlockArray` pushes for one block: no `confidence` and no
      `angle`, unlike a line. */
  function BlockMap(b: Block): (v: Value)
    ensures v.Obj?
    ensures v.fields.Keys == {"text", "recognizedLanguages", "cornerPoints", "frame", "lines"}
    ensures v.fields["text"] == Str(b.text)
    ensures v.fields["lines"].Arr? && |v.fields["lines"].items| == |b.lines|
    ensures forall i :: 0 <= i < |b.lines| ==> v.fields["lines"].items[i] == LineMap(b.lines[i])
  {
    Obj(map[
      "text" := Str(b.text),
      "recognizedLanguages" := GetRecognizedLanguages(b.recognizedLanguage),
      "cornerPoints" := CornerPointsValue(b.cornerPoints),
      "frame" := GetFrame(b.boundingBox),
      "lines" := Arr(LineMaps(b.lines))
    ])
  }

  function BlockMaps(blocks: seq<Block>): seq<Value> {
    seq(|blocks|, i requires 0 <= i < |blocks| => BlockMap(blocks[i]))
  }

  /** `getLineArray`: one map per line, in order. */
  method GetLineArray(lines: seq<Line>) returns (lineArray: seq<Value>)
    ensures lineArray == LineMaps(lines)
  {
    lineArray := [];
    var i := 0;
    while i < |lines|
      invariant 0 <= i <= |lines| && |lineArray| == i
      invariant forall j :: 0 <= j < i ==> lineArray[j] == LineMap(lines[j])
    {
      var line := lines[i];
      var lineMap: map<string, Value> := map[];
      lineMap := lineMap["text" := Str(line.text)];
      lineMap := lineMap["recognizedLanguages" := GetRecognizedLanguages(line.recognizedLanguage)];
      var cornerPoints := Null;
      if line.cornerPoints.Some? {
        var points := GetCornerPoints(line.cornerPoints.value);
        cornerPoints := Arr(points);
      }
      lineMap := lineMap["cornerPoints" := cornerPoints];
      lineMap := lineMap["frame" := GetFrame(line.boundingBox)];
      var elements := GetElementArray(line.elements);
      lineMap := lineMap["elements" := Arr(elements)];
      lineMap := lineMap["confidence" := Num(line.confidence)];
      lineMap := lineMap["angle" := Num(line.angle)];
      lineArray := lineArray + [Obj(lineMap)];
      i := i + 1;
    }
  }

  /** `getBlockArray`: one map per block, in order. */
  method GetBlockArray(blocks: seq<Block>) returns (blockArray: seq<Value>)
    ensures blockArray == BlockMaps(blocks)
  {
    blockArray := [];
    var i := 0;
    while i < |blocks|
      invariant 0 <= i <= |blocks| && |blockArray| == i
      invariant forall j :: 0 <= j < i ==> blockArray[j] == BlockMap(blocks[j])
    {
      var block := blocks[i];
      var blockMap: map<string, Value> := map[];
      blockMap := blockMap["text" := Str(block.text)];
      blockMap := blockMap["recognizedLanguages" := GetRecognizedLanguages(block.recognizedLanguage)];
      var cornerPoints := Null;
      if block.cornerPoints.Some? {
        var points := GetCornerPoints(block.cornerPoints.value);
        cornerPoints := Arr(points);
      }
      blockMap := blockMap["cornerPoints" := cornerPoints];
      blockMap := blockMap["frame" := GetFrame(block.boundingBox)];
      var lines := GetLineArray(block.lines);
      blockMap := blockMap["lines" := Arr(lines)];
      blockArray := blockArray + [Obj(blockMap)];
      i := i + 1;
    }
  }
}
