/** The branch structure of the Android frame-processor `callback`
    (android/src/main/java/com/visioncameraocr/OCRFrameProcessorPlugin.kt). The
    camera frame, the bitmap conversion, the OpenCV scores and MLKit's
    recognition are inputs; only what the callback does with them is modelled. */
module AndroidCallback {
  import opened Bridge
  import opened AndroidResults

  /** What scoring a bitmap yields: the two OpenCV scores, or an exception
      from either scorer. `calculateBrightnessScore` lets its exceptions
      escape and `calculateSharpnessScore` rethrows them. */
  datatype Scoring = Scored(brightness: real, sharpness: real) | ScoringThrew

  /** What `convertImageProxyToBitmap` yields, followed by scoring when it
      yields a bitmap.
      - `NullBitmap`: it returned null. It does so only when its own read of
        `imageProxy.image` is null, so this case is reachable only when that
        read disagrees with the callback's earlier `frame.image` read.
      - `ConversionThrew`: an exception escaped the JPEG round trip or the
        rotation, as a null decoded bitmap or a non-positive size causes.
      - `Converted`: a bitmap, and what scoring it yields. */
  datatype Conversion = NullBitmap | ConversionThrew | Converted(scoring: Scoring)

  /** What recognising the bitmap yields.
      - `SubmissionThrew`: `InputImage.fromBitmap` or `recognizer.process`
        threw. Both run before the `try`.
      - `RecognitionFailed`: `Tasks.await` threw inside the `try`.
      - `Recognized`: MLKit's `Text`. */
  datatype Recognition = Recognized(text: string, blocks: seq<Block>) | RecognitionFailed | SubmissionThrew

  /** How the callback ends: it returns a value (Kotlin `null` is `None`) or
      an exception escapes it. */
  datatype Outcome = Returns(value: Option<Value>) | Throws

  /** `callback`. `mediaImagePresent` is `frame.image != null`. Conversion and
      scoring run outside the `try`, so their exceptions escape; only a
      failure of `Tasks.await` is turned into null. */
  function Callback(mediaImagePresent: bool, bitmap: Conversion, recognition: Recognition): (r: Outcome)
    ensures !mediaImagePresent ==> r == Returns(Some(Obj(map["result" := Obj(map[])])))
    ensures mediaImagePresent && bitmap.NullBitmap? ==> r == Returns(None)
    ensures mediaImagePresent && bitmap == Converted(ScoringThrew) ==> r == Throws
    ensures mediaImagePresent && bitmap.Converted? && bitmap.scoring.Scored? && recognition.RecognitionFailed? ==> r == Returns(None)
    ensures r == Throws <==>
      && mediaImagePresent
      && (|| bitmap.ConversionThrew?
          || bitmap == Converted(ScoringThrew)
          || (bitmap.Converted? && bitmap.scoring.Scored? && recognition.SubmissionThrew?))
    ensures mediaImagePresent && bitmap.Converted? && bitmap.scoring.Scored? && recognition.Recognized? ==>
      r == Returns(Some(Obj(map["result" := Obj(map[
           "text" := Str(recognition.text),
           "blocks" := Arr(BlockMaps(recognition.blocks)),
           "brightness" := Num(bitmap.scoring.brightness),
           "sharpness" := Num(bitmap.scoring.sharpness)])])))
  {
    var result: map<string, Value> := map[];
    if !mediaImagePresent then
      Returns(Some(Obj(map["result" := Obj(result)])))
    else if bitmap.NullBitmap? then
      Returns(None)
    else if bitmap.ConversionThrew? || bitmap.scoring.ScoringThrew? then
      Throws
    else if recognition.SubmissionThrew? then
      Throws
    else if recognition.RecognitionFailed? then
      Returns(None)
    else
      var scores := bitmap.scoring;
      var filled := result["text" := Str(recognition.text)]["blocks" := Arr(BlockMaps(recognition.blocks))]
                          ["brightness" := Num(scores.brightness)]["sharpness" := Num(scores.sharpness)];
      Returns(Some(Obj(map["result" := Obj(filled)])))
  }

  /** A returned result carries `brightness` and `sharpness` exactly when
      recognition succeeded, and then carries exactly the four keys. */
  lemma ScoresOnlyWithRecognition(mediaImagePresent: bool, bitmap: Conversion, recognition: Recognition)
    requires Callback(mediaImagePresent, bitmap, recognition).Returns?
    requires Callback(mediaImagePresent, bitmap, recognition).value.Some?
    ensures var result := Callback(mediaImagePresent, bitmap, recognition).value.value.fields["result"].fields;
      && ("brightness" in result <==> recognition.Recognized? && mediaImagePresent)
      && ("sharpness" in result <==> recognition.Recognized? && mediaImagePresent)
      && (mediaImagePresent ==> result.Keys == {"text", "blocks", "brightness", "sharpness"})
      && (!mediaImagePresent ==> result.Keys == {})
  {
  }

  /** The callback returns null exactly when there is an image and either the
      bitmap is null or `Tasks.await` fails after the bitmap was scored. */
  lemma NullExactly(mediaImagePresent: bool, bitmap: Conversion, recognition: Recognition)
    ensures Callback(mediaImagePresent, bitmap, recognition) == Returns(None)
        <==> mediaImagePresent
             && (bitmap.NullBitmap? || (bitmap.Converted? && bitmap.scoring.Scored? && recognition.RecognitionFailed?))
  {
  }
}
