/** The iOS builders that turn MLKit's text blocks, lines and elements into
    result maps (ios/VisionCameraOcr.swift). MLKit's objects are values here. */
module IosMlKitResults {
  import opened Bridge
  import opened IosGeometry

  /** An NSValue in `cornerPoints`; only a boxed CGPoint converts. */
  datatype NSValue = CGPointValue(point: Point) | OtherValue

  datatype RecognizedLanguage = RecognizedLanguage(languageCode: Option<string>)

  datatype TextElement = TextElement(text: string, cornerPoints: seq<NSValue>, frame: Rect)

  datatype TextLine = TextLine(
    text: string, recognizedLanguages: seq<RecognizedLanguage>, cornerPoints: seq<NSValue>,
    frame: Rect, elements: seq<TextElement>)

  datatype TextBlock = TextBlock(
    text: string, recognizedLanguages: seq<RecognizedLanguage>, cornerPoints: seq<NSValue>,
    frame: Rect, lines: seq<TextLine>)

  /** `cornerPoint as? CGPoint`. */
  function AsPoint(v: NSValue): Option<Point> {
    if v.CGPointValue? then Some(v.point) else None
  }

  function LanguageCodes(languages: seq<RecognizedLanguage>): seq<Option<string>> {
    seq(|languages|, i requires 0 <= i < |languages| => languages[i].languageCode)
  }

  function AsPoints(values: seq<NSValue>): seq<Option<Point>> {
    seq(|values|, i requires 0 <= i < |values| => AsPoint(values[i]))
  }

  function PointMap(p: Point): Value {
    Obj(map["x" := Num(p.x), "y" := Num(p.y)])
  }

  /** Reads a corner-point map back; the inverse of `PointMap`. */
  function ReadPoint(v: Value): Option<Point> {
    if v.Obj? && "x" in v.fields && "y" in v.fields && v.fields["x"].Num? && v.fields["y"].Num?
    then Some(Point(v.fields["x"].r, v.fields["y"].r))
    else None
  }

  /** The `cornerPoints` array: one `{x, y}` map per point of the
      convertible prefix. */
  function CornerPointMaps(values: seq<NSValue>): seq<Value> {
    var points := PrefixUntilNone(AsPoints(values));
    seq(|points|, i requires 0 <= i < |points| => PointMap(points[i]))
  }

  /** `getRecognizedLanguages`: stops at the first language without a code. */
  method GetRecognizedLanguages(languages: seq<RecognizedLanguage>) returns (languageArray: seq<string>)
    ensures languageArray == PrefixUntilNone(LanguageCodes(languages))
  {
    languageArray := [];
    var i := 0;
    while i < |languages|
      invariant 0 <= i <= |languages| && |languageArray| == i
      invariant forall j :: 0 <= j < i ==> languages[j].languageCode == Some(languageArray[j])
    {
      if languages[i].languageCode.None? {
        break;
      }
      languageArray := languageArray + [languages[i].languageCode.value];
      i := i + 1;
    }
    PrefixUntilNoneUnique(LanguageCodes(languages), languageArray);
  }

  /** `getCornerPoints`: stops at the first value that is not a CGPoint. */
  method GetCornerPoints(cornerPoints: seq<NSValue>) returns (cornerPointArray: seq<Value>)
    ensures cornerPointArray == CornerPointMaps(cornerPoints)
  {
    cornerPointArray := [];
    ghost var points: seq<Point> := [];
    var i := 0;
    while i < |cornerPoints|
      invariant 0 <= i <= |cornerPoints| && |points| == i && |cornerPointArray| == i
      invariant forall j :: 0 <= j < i ==> AsPoint(cornerPoints[j]) == Some(points[j])
      invariant forall j :: 0 <= j < i ==> cornerPointArray[j] == PointMap(points[j])
    {
      if !cornerPoints[i].CGPointValue? {
        break;
      }
      var point := cornerPoints[i].point;
      cornerPointArray := cornerPointArray + [Obj(map["x" := Num(point.x), "y" := Num(point.y)])];
      points := points + [point];
      i := i + 1;
    }
    PrefixUntilNoneUnique(AsPoints(cornerPoints), points);
  }

  /** Every corner point that reaches the array is the one MLKit gave, in the
      same position. */
  lemma CornerPointsRoundTrip(values: seq<NSValue>, i: int)
    requires 0 <= i < |CornerPointMaps(values)|
    ensures ReadPoint(CornerPointMaps(values)[i]) == AsPoint(values[i])
  {
  }

  /** The map `getElementArray` builds for one element. */
  function ElementMap(e: TextElement): (v: Value)
    ensures v.Obj? && v.fields.Keys == {"text", "cornerPoints", "frame"}
    ensures v.fields["text"] == Str(e.text)
  {
    Obj(map[
      "text" := Str(e.text),
      "cornerPoints" := Arr(CornerPointMaps(e.cornerPoints)),
      "frame" := GetFrame(e.frame)
    ])
  }

  function ElementMaps(elements: seq<TextElement>): seq<Value> {
    seq(|elements|, i requires 0 <= i < |elements| => ElementMap(elements[i]))
  }

  /** The map `getLineArray` builds for one line. */
  function LineMap(l: TextLine): (v: Value)
    ensures v.Obj? && v.fields.Keys == {"text", "recognizedLanguages", "cornerPoints", "frame", "elements"}
    ensures v.fields["text"] == Str(l.text)
    ensures v.fields["elements"].Arr? && |v.fields["elements"].items| == |l.elements|
    ensures forall i :: 0 <= i < |l.elements| ==> v.fields["elements"].items[i] == ElementMap(l.elements[i])
  {
    Obj(map[
      "text" := Str(l.text),
      "recognizedLanguages" := Arr(StringValues(PrefixUntilNone(LanguageCodes(l.recognizedLanguages)))),
      "cornerPoints" := Arr(CornerPointMaps(l.cornerPoints)),
      "frame" := GetFrame(l.frame),
      "elements" := Arr(ElementMaps(l.elements))
    ])
  }

  function LineMaps(lines: seq<TextLine>): seq<Value> {
    seq(|lines|, i requires 0 <= i < |lines| => LineMap(lines[i]))
  }

  /** The map `getBlockArray` builds for one block. */
  function BlockMap(b: TextBlock): (v: Value)
    ensures v.Obj? && v.fields.Keys == {"text", "recognizedLanguages", "cornerPoints", "frame", "lines"}
    ensures v.fields["text"] == Str(b.text)
    ensures v.fields["lines"].Arr? && |v.fields["lines"].items| == |b.lines|
    ensures forall i :: 0 <= i < |b.lines| ==> v.fields["lines"].items[i] == LineMap(b.lines[i])
  {
    Obj(map[
      "text" := Str(b.text),
      "recognizedLanguages" := Arr(StringValues(PrefixUntilNone(LanguageCodes(b.recognizedLanguages)))),
      "cornerPoints" := Arr(CornerPointMaps(b.cornerPoints)),
      "frame" := GetFrame(b.frame),
      "lines" := Arr(LineMaps(b.lines))
    ])
  }

  function StringValues(ss: seq<string>): seq<Value> {
    seq(|ss|, i requires 0 <= i < |ss| => Str(ss[i]))
  }

  /** `getElementArray`: one map per element, in order. */
  method GetElementArray(elements: seq<TextElement>) returns (elementArray: seq<Value>)
    ensures |elementArray| == |elements|
    ensures forall i :: 0 <= i < |elements| ==> elementArray[i] == ElementMap(elements[i])
  {
    elementArray := [];
    var i := 0;
    while i < |elements|
      invariant 0 <= i <= |elements| && |elementArray| == i
      invariant forall j :: 0 <= j < i ==> elementArray[j] == ElementMap(elements[j])
    {
      var element := elements[i];
      var cornerPoints := GetCornerPoints(element.cornerPoints);
      elementArray := elementArray + [Obj(map[
        "text" := Str(element.text),
        "cornerPoints" := Arr(cornerPoints),
        "frame" := GetFrame(element.frame)
      ])];
      i := i + 1;
    }
  }

  /** `getLineArray`: one map per line, in order. */
  method GetLineArray(lines: seq<TextLine>) returns (lineArray: seq<Value>)
    ensures |lineArray| == |lines|
    ensures forall i :: 0 <= i < |lines| ==> lineArray[i] == LineMap(lines[i])
  {
    lineArray := [];
    var i := 0;
    while i < |lines|
      invariant 0 <= i <= |lines| && |lineArray| == i
      invariant forall j :: 0 <= j < i ==> lineArray[j] == LineMap(lines[j])
    {
      var line := lines[i];
      var languages := GetRecognizedLanguages(line.recognizedLanguages);
      var cornerPoints := GetCornerPoints(line.cornerPoints);
      var elements := GetElementArray(line.elements);
      assert elements == ElementMaps(line.elements);
      lineArray := lineArray + [Obj(map[
        "text" := Str(line.text),
        "recognizedLanguages" := Arr(StringValues(languages)),
        "cornerPoints" := Arr(cornerPoints),
        "frame" := GetFrame(line.frame),
        "elements" := Arr(elements)
      ])];
      i := i + 1;
    }
  }

  /** `getBlockArray`: one map per block, in order. */
  method GetBlockArray(blocks: seq<TextBlock>) returns (blockArray: seq<Value>)
    ensures |blockArray| == |blocks|
    ensures forall i :: 0 <= i < |blocks| ==> blockArray[i] == BlockMap(blocks[i])
  {
    blockArray := [];
    var i := 0;
    while i < |blocks|
      invariant 0 <= i <= |blocks| && |blockArray| == i
      invariant forall j :: 0 <= j < i ==> blockArray[j] == BlockMap(blocks[j])
    {
      var block := blocks[i];
      var languages := GetRecognizedLanguages(block.recognizedLanguages);
      var cornerPoints := GetCornerPoints(block.cornerPoints);
      var lines := GetLineArray(block.lines);
      assert lines == LineMaps(block.lines);
      blockArray := blockArray + [Obj(map[
        "text" := Str(block.text),
        "recognizedLanguages" := Arr(StringValues(languages)),
        "cornerPoints" := Arr(cornerPoints),
        "frame" := GetFrame(block.frame),
        "lines" := Arr(lines)
      ])];
      i := i + 1;
    }
  }
}
