/** `handleTextRecognitionResults` (ios/VisionCameraOcr.swift): flattens Vision's
    text observations into `{"result": {"text", "blocks"}}`, one block per
    observation that has a candidate, plus a trailing text-only block. */
module IosVisionResults {
  import opened Bridge
  import opened IosGeometry

  /** A VNRecognizedTextObservation: its best candidate string, if any, and its
      bounding box in normalised, bottom-left-origin coordinates. */
  datatype Observation = Observation(topCandidate: Option<string>, boundingBox: Rect)

  /** `request.results`: either a list of text observations or something the
      `as? [VNRecognizedTextObservation]` cast refuses (nil included). */
  datatype RequestResults = Observations(observations: seq<Observation>) | NotObservations

  /** An observation the loop keeps: its candidate string and its box. */
  datatype Recognized = Recognized(text: string, boundingBox: Rect)

  /** The observations the loop does not `continue` past, in order. */
  function Kept(observations: seq<Observation>): (kept: seq<Recognized>)
    ensures |kept| <= |observations|
  {
    if observations == [] then []
    else
      var o := observations[0];
      (if o.topCandidate.Some? then [Recognized(o.topCandidate.value, o.boundingBox)] else [])
      + Kept(observations[1..])
  }

  /** Filtering distributes over concatenation, so the kept observations keep
      their relative order. */
  lemma {:induction false} KeptAppend(a: seq<Observation>, b: seq<Observation>)
    ensures Kept(a + b) == Kept(a) + Kept(b)
  {
    if a == [] {
      assert a + b == b;
    } else {
      assert (a + b)[0] == a[0];
      assert (a + b)[1..] == a[1..] + b;
      KeptAppend(a[1..], b);
      var head := if a[0].topCandidate.Some? then [Recognized(a[0].topCandidate.value, a[0].boundingBox)] else [];
      calc {
        Kept(a + b);
        head + Kept(a[1..] + b);
        head + (Kept(a[1..]) + Kept(b));
        (head + Kept(a[1..])) + Kept(b);
        Kept(a) + Kept(b);
      }
    }
  }

  /** When every observation has a candidate, nothing is skipped. */
  lemma {:induction false} KeptAll(observations: seq<Observation>)
    requires forall i :: 0 <= i < |observations| ==> observations[i].topCandidate.Some?
    ensures |Kept(observations)| == |observations|
    ensures forall i :: 0 <= i < |observations| ==>
      Kept(observations)[i] == Recognized(observations[i].topCandidate.value, observations[i].boundingBox)
  {
    if observations != [] {
      KeptAll(observations[1..]);
    }
  }

  /** When no observation has a candidate, every one is skipped. */
  lemma {:induction false} KeptNone(observations: seq<Observation>)
    requires forall i :: 0 <= i < |observations| ==> observations[i].topCandidate.None?
    ensures Kept(observations) == []
  {
    if observations != [] {
      KeptNone(observations[1..]);
    }
  }

  function Texts(kept: seq<Recognized>): seq<string> {
    seq(|kept|, i requires 0 <= i < |kept| => kept[i].text)
  }

  /** `joined(separator: "\n")`. */
  function Join(lines: seq<string>): string {
    if |lines| == 0 then ""
    else if |lines| == 1 then lines[0]
    else lines[0] + "\n" + Join(lines[1..])
  }

  /** Splitting at every newline; the reader's inverse of `Join`. */
  function SplitLines(s: string): (lines: seq<string>)
    ensures |lines| >= 1
  {
    if s == [] then [""]
    else if s[0] == '\n' then [""] + SplitLines(s[1..])
    else
      var rest := SplitLines(s[1..]);
      [[s[0]] + rest[0]] + rest[1..]
  }

  lemma {:induction false} SplitLinesOfLine(s: string)
    requires '\n' !in s
    ensures SplitLines(s) == [s]
  {
    if s != [] {
      assert s[0] != '\n' && '\n' !in s[1..];
      SplitLinesOfLine(s[1..]);
      assert [s[0]] + s[1..] == s;
    }
  }

  lemma {:induction false} SplitLinesAfterLine(line: string, rest: string)
    requires '\n' !in line
    ensures SplitLines(line + "\n" + rest) == [line] + SplitLines(rest)
  {
    if line == [] {
      assert line + "\n" + rest == "\n" + rest;
    } else {
      var whole := line + "\n" + rest;
      assert whole[0] == line[0] != '\n';
      assert whole[1..] == line[1..] + "\n" + rest;
      assert '\n' !in line[1..];
      SplitLinesAfterLine(line[1..], rest);
      var r := SplitLines(whole[1..]);
      assert r[0] == line[1..] && r[1..] == SplitLines(rest);
      assert [line[0]] + line[1..] == line;
    }
  }

  /** The `text` field loses nothing: as long as no candidate string holds a
      newline, splitting it at newlines gives back the kept strings. */
  lemma {:induction false} SplitLinesJoin(lines: seq<string>)
    requires |lines| >= 1
    requires forall i :: 0 <= i < |lines| ==> '\n' !in lines[i]
    ensures SplitLines(Join(lines)) == lines
  {
    if |lines| == 1 {
      SplitLinesOfLine(lines[0]);
    } else {
      SplitLinesAfterLine(lines[0], Join(lines[1..]));
      SplitLinesJoin(lines[1..]);
    }
  }

  function CornerPoint(x: real, y: real): Value {
    Obj(map["x" := Num(x), "y" := Num(y)])
  }

  /** The block built for one kept observation, from its text and the pixel
      box `convert` returned. Its schema is stated by `VisionBlockSchema`. */
  function VisionBlock(text: string, data: map<string, real>): Value
    requires data.Keys == {"x", "y", "width", "height"}
  {
    var height, width, top, left := data["height"], data["width"], data["y"], data["x"];
    var right, bottom := left + width, top + height;
    var cornerPoints := Arr([
      Obj(map["x" := Num(left), "y" := Num(top)]),
      Obj(map["x" := Num(right), "y" := Num(top)]),
      Obj(map["x" := Num(right), "y" := Num(bottom)]),
      Obj(map["x" := Num(left), "y" := Num(bottom)])
    ]);
    var boundingCenterX := width / 2.0 + left;
    var boundingCenterY := height / 2.0 + top;
    var frame := Obj(map[
      "x" := Num(boundingCenterX / 2.0),
      "y" := Num(boundingCenterY / 2.0 - height / 2.0 + top),
      "width" := Num(width),
      "height" := Num(height),
      "boundingCenterX" := Num(boundingCenterX),
      "boundingCenterY" := Num(boundingCenterY)
    ]);
    Obj(map[
      "text" := Str(text),
      "recognizedLanguages" := Arr([Str("")]),
      "cornerPoints" := cornerPoints,
      "frame" := frame,
      "lines" := Arr([Obj(map["text" := Str(text), "frame" := frame, "cornerPoints" := cornerPoints])])
    ])
  }

  /** A block has exactly the five keys, copies the candidate text, carries
      the four corners of the pixel box clockwise from its top-left corner, a
      frame centred on the box, and one line repeating its text, frame and
      corners. */
  lemma VisionBlockSchema(text: string, data: map<string, real>)
    requires data.Keys == {"x", "y", "width", "height"}
    ensures var v := VisionBlock(text, data);
      && v.Obj? && v.fields.Keys == {"text", "recognizedLanguages", "cornerPoints", "frame", "lines"}
      && v.fields["text"] == Str(text)
      && v.fields["recognizedLanguages"] == Arr([Str("")])
      && v.fields["lines"] == Arr([Obj(map[
           "text" := v.fields["text"], "frame" := v.fields["frame"], "cornerPoints" := v.fields["cornerPoints"]])])
    ensures var left, top := data["x"], data["y"];
      var right, bottom := left + data["width"], top + data["height"];
      VisionBlock(text, data).fields["cornerPoints"]
      == Arr([CornerPoint(left, top), CornerPoint(right, top), CornerPoint(right, bottom), CornerPoint(left, bottom)])
    ensures var f := VisionBlock(text, data).fields["frame"];
      && f.Obj? && f.fields.Keys == FrameKeys
      && f.fields["width"] == Num(data["width"]) && f.fields["height"] == Num(data["height"])
      && f.fields["boundingCenterX"] == Num((data["x"] + (data["x"] + data["width"])) / 2.0)
      && f.fields["boundingCenterY"] == Num((data["y"] + (data["y"] + data["height"])) / 2.0)
      && f.fields["x"] == Num(f.fields["boundingCenterX"].r / 2.0)
      && f.fields["y"] == Num(f.fields["boundingCenterY"].r / 2.0 - data["height"] / 2.0 + data["y"])
  {
  }

  /** The rectangle `CGRect(origin: .zero, size: imageSize)`. */
  function ImageBounds(imageSize: Size): Rect {
    Rect(Point(0.0, 0.0), imageSize)
  }

  function RecognizedBlock(k: Recognized, imageSize: Size): Value {
    VisionBlock(k.text, PixelData(k.boundingBox, ImageBounds(imageSize)))
  }

  function RecognizedBlocks(kept: seq<Recognized>, imageSize: Size): seq<Value> {
    seq(|kept|, i requires 0 <= i < |kept| => RecognizedBlock(kept[i], imageSize))
  }

  /** What the handler returns for a list of observations. */
  function ResultValue(observations: seq<Observation>, imageSize: Size): (v: Value)
    ensures v.Obj? && v.fields.Keys == {"result"}
    ensures var res := v.fields["result"];
      && res.Obj? && res.fields.Keys == {"text", "blocks"}
      && res.fields["text"] == Str(Join(Texts(Kept(observations))))
      && res.fields["blocks"].Arr?
      && |res.fields["blocks"].items| == |Kept(observations)| + 1
      && res.fields["blocks"].items[|Kept(observations)|] == Obj(map["text" := res.fields["text"]])
      && forall i :: 0 <= i < |Kept(observations)| ==>
           res.fields["blocks"].items[i] == RecognizedBlock(Kept(observations)[i], imageSize)
  {
    var kept := Kept(observations);
    var text := Join(Texts(kept));
    Obj(map["result" := Obj(map[
      "text" := Str(text),
      "blocks" := Arr(RecognizedBlocks(kept, imageSize) + [Obj(map["text" := Str(text)])])
    ])])
  }

  lemma ResultValueUnfolds(observations: seq<Observation>, imageSize: Size, stringBlocks: seq<string>, textBlocks: seq<Value>)
    requires stringBlocks == Texts(Kept(observations))
    requires textBlocks == RecognizedBlocks(Kept(observations), imageSize)
    ensures var text := Join(stringBlocks);
      ResultValue(observations, imageSize)
      == Obj(map["result" := Obj(map["text" := Str(text), "blocks" := Arr(textBlocks + [Obj(map["text" := Str(text)])])])])
  {
  }

  /** The body of the loop for a kept observation: the block map built
      from its candidate string and the pixel box `convert` returned. */
  method TextBlockOf(topCandidate: string, data: map<string, real>) returns (textBlock: map<string, Value>)
    requires data.Keys == {"x", "y", "width", "height"}
    ensures Obj(textBlock) == VisionBlock(topCandidate, data)
  {
    var height, width, top, left := data["height"], data["width"], data["y"], data["x"];
    var right, bottom := left + width, top + height;
    var cornerPoints := Arr([
      Obj(map["x" := Num(left), "y" := Num(top)]),
      Obj(map["x" := Num(right), "y" := Num(top)]),
      Obj(map["x" := Num(right), "y" := Num(bottom)]),
      Obj(map["x" := Num(left), "y" := Num(bottom)])
    ]);
    var frameWidth, frameHeight := width, height;
    var frameBoundingCenterX := frameWidth / 2.0 + left;
    var frameBoundingCenterY := frameHeight / 2.0 + top;
    var frameX := frameBoundingCenterX / 2.0;
    var frameY := frameBoundingCenterY / 2.0 - frameHeight / 2.0 + top;
    var frame := Obj(map[
      "x" := Num(frameX),
      "y" := Num(frameY),
      "width" := Num(frameWidth),
      "height" := Num(frameHeight),
      "boundingCenterX" := Num(frameBoundingCenterX),
      "boundingCenterY" := Num(frameBoundingCenterY)
    ]);
    textBlock := map[];
    textBlock := textBlock["text" := Str(topCandidate)];
    textBlock := textBlock["recognizedLanguages" := Arr([Str("")])];
    textBlock := textBlock["cornerPoints" := cornerPoints];
    textBlock := textBlock["frame" := frame];
    var lineObject: map<string, Value> := map[];
    lineObject := lineObject["text" := textBlock["text"]];
    lineObject := lineObject["frame" := textBlock["frame"]];
    lineObject := lineObject["cornerPoints" := textBlock["cornerPoints"]];
    lineObject := lineObject["frame" := textBlock["frame"]];
    assert lineObject == map["text" := Str(topCandidate), "frame" := frame, "cornerPoints" := cornerPoints];
    textBlock := textBlock["lines" := Arr([Obj(lineObject)])];
  }

  /** `handleTextRecognitionResults`. */
  method HandleTextRecognitionResults(results: RequestResults, imageSize: Size) returns (r: Option<Value>)
    ensures results.NotObservations? ==> r == None
    ensures results.Observations? ==> r == Some(ResultValue(results.observations, imageSize))
  {
    if results.NotObservations? {
      return None;
    }
    var observations := results.observations;
    var stringBlocks: seq<string> := [];
    var textBlocks: seq<Value> := [];
    ghost var kept: seq<Recognized> := [];
    var i := 0;
    while i < |observations|
      invariant 0 <= i <= |observations|
      invariant kept == Kept(observations[..i])
      invariant |stringBlocks| == |textBlocks| == |kept|
      invariant forall j :: 0 <= j < |kept| ==> stringBlocks[j] == kept[j].text
      invariant forall j :: 0 <= j < |kept| ==> textBlocks[j] == RecognizedBlock(kept[j], imageSize)
    {
      var observation := observations[i];
      assert observations[..i + 1] == observations[..i] + [observation];
      KeptAppend(observations[..i], [observation]);
      if observation.topCandidate.None? {
        assert Kept([observation]) == [];
        i := i + 1;
        continue;
      }
      var topCandidate := observation.topCandidate.value;
      stringBlocks := stringBlocks + [topCandidate];
      var data := Convert(observation.boundingBox, ImageBounds(imageSize));
      var textBlock := TextBlockOf(topCandidate, data);
      ghost var recognized := Recognized(topCandidate, observation.boundingBox);
      assert Kept([observation]) == [recognized];
      textBlocks := textBlocks + [Obj(textBlock)];
      kept := kept + [recognized];
      i := i + 1;
    }
    assert observations[..i] == observations;
    var text := Join(stringBlocks);
    assert stringBlocks == Texts(kept);
    assert textBlocks == RecognizedBlocks(kept, imageSize);
    ResultValueUnfolds(observations, imageSize, stringBlocks, textBlocks);
    textBlocks := textBlocks + [Obj(map["text" := Str(text)])];
    r := Some(Obj(map["result" := Obj(map["text" := Str(text), "blocks" := Arr(textBlocks)])]));
  }

  /** The corners of a block are the corners of the observation's box carried
      through the vertical flip onto the image: corner 0 is the image of the
      box's top-left corner, corner 2 that of its bottom-right corner. */
  lemma RecognizedBlockCorners(k: Recognized, imageSize: Size)
    requires k.boundingBox.size.height >= 0.0
    ensures var b, bounds := k.boundingBox, ImageBounds(imageSize);
      var topLeft := ToPixel(Point(b.origin.x, b.origin.y + b.size.height), bounds);
      var bottomRight := ToPixel(Point(b.origin.x + b.size.width, b.origin.y), bounds);
      var corners := RecognizedBlock(k, imageSize).fields["cornerPoints"].items;
      && corners[0] == CornerPoint(topLeft.x, topLeft.y)
      && corners[2] == CornerPoint(bottomRight.x, bottomRight.y)
  {
    var b, bounds := k.boundingBox, ImageBounds(imageSize);
    assert b.MaxY() == b.origin.y + b.size.height;
    var data := PixelData(b, bounds);
    assert b.MaxY() - b.size.height == b.origin.y;
  }

  /** For a pixel box of non-negative, whole-number size the Vision path and
      MLKit's `getFrame` agree on every frame field. */
  lemma VisionFrameMatchesGetFrame(text: string, data: map<string, real>)
    requires data.Keys == {"x", "y", "width", "height"}
    requires 0.0 <= data["width"] && 0.0 <= data["height"]
    requires Ceil(data["width"]) as real == data["width"]
    requires Ceil(data["height"]) as real == data["height"]
    ensures VisionBlock(text, data).fields["frame"]
         == GetFrame(Rect(Point(data["x"], data["y"]), Size(data["width"], data["height"])))
  {
    var rect := Rect(Point(data["x"], data["y"]), Size(data["width"], data["height"]));
    var f, g := VisionBlock(text, data).fields["frame"], GetFrame(rect);
    assert rect.Width() == data["width"] && rect.Height() == data["height"];
    assert rect.MinY() == data["y"];
    assert f.fields.Keys == g.fields.Keys;
    assert forall k | k in f.fields :: f.fields[k] == g.fields[k];
  }
}
