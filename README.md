# vision-camera-ocr result building, in Dafny

A verified model of the part of the vision-camera-ocr frame-processor plugin
that decides what JavaScript receives for a camera frame. It covers three
pieces:

- **iOS result serialisation and geometry** (`ios/VisionCameraOcr.swift`):
  - the MLKit block, line and element builders, and the language and
    corner-point loops that stop at the first failure. In the source, only
    commented-out code in `callback` (lines 240-245) calls these builders,
    so no live path reaches them;
  - `getFrame`;
  - `handleTextRecognitionResults`, which flattens Vision's text observations
    into `{"result": {"text", "blocks"}}`;
  - `convert`, which maps a normalised, bottom-left-origin box onto pixels
    with a vertical flip.
- **iOS orientation selection**: the EXIF orientation code (TIFF 6.0,
  section 8, tag 0x0112) chosen from the device orientation, and
  `isDeviceInLandscapeWhenFaceUp`.
- **Android result building**
  (`android/src/main/java/com/visioncameraocr/OCRFrameProcessorPlugin.kt`):
  - the `WritableNativeMap`/`WritableNativeArray` builders;
  - the packing of the three YUV planes into one NV21 byte array;
  - the branch structure of `callback`.

Host maps and arrays are one datatype, `Bridge.Value`. Swift's
`[String: Any]` and Android's `WritableNativeMap` become `Obj`, and arrays
become `Arr`. This lets the model state exact key sets. CGFloat, Float and
Double are exact `real`s. CGRect accessors follow Core Graphics'
standardised rectangle: `width` is the absolute stored width, `minX` the
smaller edge, `midX` the centre.

What the code works on step by step is imperative here:

- The builder loops and `handleTextRecognitionResults` are methods with
  loops. Each is proved equal to a specification function, and the schema
  properties are proved about that function.
- `convert` rewrites a local rectangle field by field.
- NV21 packing allocates an array and fills it with three `ByteBuffer.get`
  copies. The `ByteBuffer` class has a read position.

The orientation switch, `isDeviceInLandscapeWhenFaceUp`, both `getFrame`s and
the Android `callback` are expression-only, so they are functions.

## Model

| member | source | states |
|---|---|---|
| `Bridge.PrefixUntilNone` | ios/VisionCameraOcr.swift:108-136 | the entries a break-at-first-failure loop collects: a prefix of the input, each entry the unwrapped input at its position, and the input at the first uncollected position is missing |
| `Bridge.PrefixUntilNoneUnique` | ios/VisionCameraOcr.swift:108-136 | those three properties determine the collected prefix uniquely |
| `IosMlKitResults.GetRecognizedLanguages` | ios/VisionCameraOcr.swift:108-121 | the codes in input order up to, and excluding, the first language with no code; later codes are dropped |
| `IosMlKitResults.GetCornerPoints` | ios/VisionCameraOcr.swift:123-136 | one `{x, y}` map per value of the longest prefix that converts to CGPoint, in order |
| `IosMlKitResults.CornerPointsRoundTrip` | ios/VisionCameraOcr.swift:127-133 | reading a corner-point map back gives exactly the point at that position of the input |
| `IosMlKitResults.ElementMap` | ios/VisionCameraOcr.swift:97-103 | an element map has exactly the keys text, cornerPoints, frame, and the text is copied unchanged |
| `IosMlKitResults.LineMap` | ios/VisionCameraOcr.swift:80-88 | a line map has exactly the five keys, copies the text, and its elements array holds, in order, exactly the element map of each element |
| `IosMlKitResults.BlockMap` | ios/VisionCameraOcr.swift:63-71 | a block map has exactly the five keys, copies the text, and its lines array holds, in order, exactly the line map of each line |
| `IosMlKitResults.GetElementArray` | ios/VisionCameraOcr.swift:93-106 | exactly one element map per element, in input order |
| `IosMlKitResults.GetLineArray` | ios/VisionCameraOcr.swift:76-91 | exactly one line map per line, in input order |
| `IosMlKitResults.GetBlockArray` | ios/VisionCameraOcr.swift:59-74 | exactly one block map per block, in input order |
| `IosGeometry.Ceil` | ios/VisionCameraOcr.swift:140-141 | `ceil` through `Floor`: the least integer not below its argument |
| `IosGeometry.GetFrame` | ios/VisionCameraOcr.swift:138-154 | exactly the six frame keys; width and height are the standardised size; the bounding centre is the midpoint of the edges; `x` is half the horizontal centre plus half the rounding-up of the width, and `y` is half the vertical centre minus half the rounded-up height plus the top |
| `IosGeometry.PixelData` | ios/VisionCameraOcr.swift:376-394 | the converted map has exactly the keys x, y, width, height; its (x, y) is the flipped image of the box's (left, maxY) corner, and its far corner is the image of the opposite corner |
| `IosGeometry.Convert` | ios/VisionCameraOcr.swift:376-394 | the field-by-field rewrite of the box yields exactly that map |
| `IosGeometry.ConvertFlipsVertically` | ios/VisionCameraOcr.swift:384-390 | for a box of non-negative height, y = (1 - (by + bh)) * H + minY and y + height = (1 - by) * H + minY |
| `IosGeometry.ToPixelReversesVerticalOrder` | ios/VisionCameraOcr.swift:386 | the flip reverses vertical order: a point higher in Vision's space maps nearer the top of the image |
| `IosGeometry.ConvertStaysInBounds` | ios/VisionCameraOcr.swift:376-394 | a box inside the unit square converts to a pixel box of non-negative size inside the bounds |
| `IosOrientation.ExifOrientation` | ios/VisionCameraOcr.swift:168-185 | the code is always 1 or 3; it is 3 exactly for portraitUpsideDown, landscapeLeft and landscapeRight, or for faceUp and faceDown when the landscape flag holds |
| `IosOrientation.IsDeviceInLandscapeWhenFaceUp` | ios/VisionCameraOcr.swift:396-411 | face up with a known interface orientation: that orientation's landscape flag; otherwise true exactly for landscapeLeft and landscapeRight |
| `IosOrientation.CallbackExifOrientation` | ios/VisionCameraOcr.swift:165-185 | the code the callback applies, assuming its two reads of the device orientation agree: always 1 or 3, and 3 exactly for portraitUpsideDown, landscapeLeft and landscapeRight, or face up when a window reports a landscape interface orientation |
| `IosOrientation.FaceDownIsNeverRotated` | ios/VisionCameraOcr.swift:179-180 | when both reads of the device orientation give faceDown, the frame always gets code 1 |
| `IosOrientation.FaceUpFollowsInterface` | ios/VisionCameraOcr.swift:177-178 | face up, the frame gets code 3 exactly when a window reports a landscape interface orientation |
| `IosOrientation.OnlyFaceUpReadsInterface` | ios/VisionCameraOcr.swift:396-411 | in every orientation but faceUp, the interface orientation does not affect the code |
| `IosVisionResults.Kept` | ios/VisionCameraOcr.swift:302-303 | skipping observations without a top candidate never adds entries |
| `IosVisionResults.KeptAppend` | ios/VisionCameraOcr.swift:302-306 | skipping distributes over concatenation, so kept observations stay in input order |
| `IosVisionResults.KeptAll` | ios/VisionCameraOcr.swift:302-303 | when every observation has a candidate, each one is kept in its place |
| `IosVisionResults.KeptNone` | ios/VisionCameraOcr.swift:302-303 | when no observation has a candidate, none is kept |
| `IosVisionResults.SplitLinesJoin` | ios/VisionCameraOcr.swift:365-368 | given at least one kept string and none containing a newline, splitting the joined `text` at newlines gives the kept strings back |
| `IosVisionResults.VisionBlockSchema` | ios/VisionCameraOcr.swift:313-351 | a block has exactly five keys, the candidate text, recognizedLanguages `[""]`, corners (left,top), (right,top), (right,bottom), (left,bottom) with right = left + width and bottom = top + height, a frame with boundingCenterX = width/2 + left, boundingCenterY = height/2 + top, x = boundingCenterX/2, y = boundingCenterY/2 - height/2 + top, and exactly one line that repeats its text, frame and cornerPoints |
| `IosVisionResults.TextBlockOf` | ios/VisionCameraOcr.swift:313-351 | the loop body's map updates build exactly that block |
| `IosVisionResults.ResultValue` | ios/VisionCameraOcr.swift:365-371 | the result has exactly the key result, holding exactly text and blocks; text is the kept strings joined by newlines; blocks has one more entry than there are kept observations, the last being only `{"text": text}` and the others the kept observations' blocks in order |
| `IosVisionResults.HandleTextRecognitionResults` | ios/VisionCameraOcr.swift:297-373 | nil when the results are not an observation list; otherwise exactly the result above |
| `IosVisionResults.RecognizedBlockCorners` | ios/VisionCameraOcr.swift:309-330 | for a box of non-negative height, a block's first corner is the flipped image of the observation's top-left corner, and its third corner that of its bottom-right corner |
| `IosVisionResults.VisionFrameMatchesGetFrame` | ios/VisionCameraOcr.swift:331-344 | for a pixel box of non-negative whole-number size, the Vision frame equals MLKit's `getFrame` of the same rectangle |
| `AndroidResults.GetRecognizedLanguages` | android/src/main/java/com/visioncameraocr/OCRFrameProcessorPlugin.kt:98-102 | always a one-element array holding exactly the given string |
| `AndroidResults.GetCornerPoints` | android/src/main/java/com/visioncameraocr/OCRFrameProcessorPlugin.kt:104-114 | one integer `{x, y}` map per point, in input order |
| `AndroidResults.CornerPointsRoundTrip` | android/src/main/java/com/visioncameraocr/OCRFrameProcessorPlugin.kt:104-114 | reading the corner-point array back gives every point, in order, with unchanged coordinates |
| `AndroidResults.GetFrame` | android/src/main/java/com/visioncameraocr/OCRFrameProcessorPlugin.kt:116-128 | an empty map for a null box; otherwise exactly the six frame keys, x = (left + right) / 2 and y = (top + bottom) / 2 exactly, width = right - left, height = bottom - top, and boundingCenterX and boundingCenterY are the floors of x and y |
| `AndroidResults.GetElementArray` | android/src/main/java/com/visioncameraocr/OCRFrameProcessorPlugin.kt:85-96 | always the empty array, because the element maps are built but never pushed |
| `AndroidResults.LineMap` | android/src/main/java/com/visioncameraocr/OCRFrameProcessorPlugin.kt:69-80 | a line map has exactly seven keys, including confidence and angle; it copies the text, and its elements are always empty |
| `AndroidResults.BlockMap` | android/src/main/java/com/visioncameraocr/OCRFrameProcessorPlugin.kt:52-61 | a block map has exactly five keys (no confidence or angle), copies the text, and its lines array holds, in order, exactly the line map of each line |
| `AndroidResults.GetLineArray` | android/src/main/java/com/visioncameraocr/OCRFrameProcessorPlugin.kt:66-83 | exactly one line map per line, in input order |
| `AndroidResults.GetBlockArray` | android/src/main/java/com/visioncameraocr/OCRFrameProcessorPlugin.kt:49-64 | exactly one block map per block, in input order |
| `AndroidNv21.ByteBuffer.Get` | android/src/main/java/com/visioncameraocr/OCRFrameProcessorPlugin.kt:205-207 | copies the next `length` bytes to the offset, leaves the rest of the array unchanged, and advances the position by `length` |
| `AndroidNv21.PackNv21` | android/src/main/java/com/visioncameraocr/OCRFrameProcessorPlugin.kt:194-207 | a fresh array whose contents are the Y plane's, then the V plane's, then the U plane's remaining bytes; all three planes keep their content and are left drained |
| `AndroidNv21.Nv21Regions` | android/src/main/java/com/visioncameraocr/OCRFrameProcessorPlugin.kt:204-207 | length ySize + uSize + vSize; [0, ySize) is Y, [ySize, ySize + vSize) is V, and the rest is U, each in order |
| `AndroidNv21.SplitNv21Layout` | android/src/main/java/com/visioncameraocr/OCRFrameProcessorPlugin.kt:204-207 | cutting the packed array at ySize and ySize + vSize gives back the three planes |
| `AndroidCallback.Callback` | android/src/main/java/com/visioncameraocr/OCRFrameProcessorPlugin.kt:156-192 | no media image gives `{"result": {}}`; a null bitmap gives null; an exception escapes exactly when the bitmap conversion throws, either scorer throws, or `InputImage.fromBitmap` or `recognizer.process` throws; a failure of `Tasks.await` gives null; an image, a scored bitmap and successful recognition give exactly `{"result": {text, blocks, brightness, sharpness}}` |
| `AndroidCallback.ScoresOnlyWithRecognition` | android/src/main/java/com/visioncameraocr/OCRFrameProcessorPlugin.kt:174-181 | a returned result has brightness and sharpness exactly when recognition succeeded, and then exactly the four keys |
| `AndroidCallback.NullExactly` | android/src/main/java/com/visioncameraocr/OCRFrameProcessorPlugin.kt:165-186 | the callback returns null exactly when there is an image and the bitmap is null, or when the bitmap was scored and `Tasks.await` failed |

## Left out

- Brightness and sharpness scoring (`calculateBrightnessScore`, `calculateSharpnessScore`, OpenCV): wrappers over `cvtColor`, `Laplacian` and `meanStdDev`, in floating point. Their results are opaque reals in `AndroidCallback.Scoring`. An exception from either scorer is `ScoringThrew`.
- The second half of `convertImageProxyToBitmap`: JPEG compression and decoding, and bitmap rotation. These are foreign graphics APIs, so their outcome is an input of `Callback`: a bitmap, null, or an exception (`AndroidCallback.Conversion`). Which inputs make them throw is not modelled. The iOS CIImage, CGImage and UIImage conversions are left out for the same reason. Only the EXIF code chosen for `oriented(forExifOrientation:)` is modelled.
- The text engines: MLKit `recognizer.process` and `Tasks.await`, Vision's `VNRecognizeTextRequest` and `perform`, and `DispatchQueue.global().sync`. Their outputs are abstract inputs: observations, MLKit values, and `Recognition`.
- `recognizeTextInImage` and the iOS `callback`'s return of the completion value. This is completion-handler plumbing around the external engine. It force-unwraps the handler's result only after its own guard has checked that the results are observations.
- Device state: `UIDevice.current.orientation` and the first window's interface orientation are parameters. `IosOrientation.CallbackExifOrientation` assumes that the switch and `isDeviceInLandscapeWhenFaceUp` read the same device orientation.
- Static initialisation of OpenCV, the unused static `textRecognizer`, and all `print` and `Log` calls.
- Commented-out code in both files.
- The `FrameData`, `Point`, `BlockData` and `Block` Codable values built in the Vision loop. They are discarded.
- IEEE rounding: all geometry is over exact reals. Android's `exactCenterX` multiplies by `0.5f` in single precision, which the model treats as exact.
- 32-bit integer overflow in Android's `Rect` arithmetic (`left + right`, `right - left`) and in the NV21 array size. These are image coordinates and sizes, and the model's integers are unbounded.
- Plane strides: the packing copies each plane's remaining bytes as they are, as the source does. The model does not say whether the result is well-formed NV21 for padded planes.
- `AndroidNv21.PackNv21`: requires the three plane buffers to be distinct objects, as a camera image's planes are. `ByteBuffer.Get` requires what `ByteBuffer.get` checks at run time, and the packing always meets it, so `BufferUnderflowException` is not modelled.
- Map key order: Swift dictionaries and `WritableNativeMap` are unordered, and so are the model's maps. Writing `frame` twice into the Vision line object is therefore the same as writing it once.
