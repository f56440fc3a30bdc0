/** How the iOS callback picks the EXIF orientation it applies to a frame
    before recognition (ios/VisionCameraOcr.swift). The device and interface
    orientations, which the source reads from UIKit, are parameters here. */
module IosOrientation {
  import opened Bridge

  /** UIDeviceOrientation. `Unrecognised` stands for a raw value the switch
      does not name, which falls to its `default` case. */
  datatype DeviceOrientation =
    | Unknown | Portrait | PortraitUpsideDown | LandscapeLeft | LandscapeRight | FaceUp | FaceDown
    | Unrecognised

  /** UIInterfaceOrientation. */
  datatype InterfaceOrientation =
    | InterfaceUnknown | InterfacePortrait | InterfacePortraitUpsideDown
    | InterfaceLandscapeLeft | InterfaceLandscapeRight
  {
    predicate IsLandscape() { this == InterfaceLandscapeLeft || this == InterfaceLandscapeRight }
  }

  /** Values of the TIFF/Exif Orientation tag (0x0112, section 8 of TIFF 6.0):
      1 is row 0 at the top and column 0 at the left, 3 the same image turned
      through 180 degrees. */
  const ExifUpright: int := 1
  const ExifRotated180: int := 3

  /** `isDeviceInLandscapeWhenFaceUp`: a device lying face up takes its
      answer from the first window's interface orientation when there is
      one; otherwise only the two landscape device orientations count. */
  function IsDeviceInLandscapeWhenFaceUp(orientation: DeviceOrientation, interfaceOrientation: Option<InterfaceOrientation>): (b: bool)
    ensures orientation == FaceUp && interfaceOrientation.Some? ==> (b <==> interfaceOrientation.value.IsLandscape())
    ensures !(orientation == FaceUp && interfaceOrientation.Some?) ==> (b <==> orientation == LandscapeLeft || orientation == LandscapeRight)
  {
    if orientation == FaceUp && interfaceOrientation.Some? then
      interfaceOrientation.value.IsLandscape()
    else
      orientation == LandscapeLeft || orientation == LandscapeRight
  }

  /** The `switch curDeviceOrientation` in the callback: the EXIF code the
      frame is re-oriented with. */
  function ExifOrientation(orientation: DeviceOrientation, isLandscape: bool): (code: int)
    ensures code == ExifUpright || code == ExifRotated180
    ensures code == ExifRotated180 <==>
      || orientation in {PortraitUpsideDown, LandscapeLeft, LandscapeRight}
      || (orientation in {FaceUp, FaceDown} && isLandscape)
  {
    match orientation
    case PortraitUpsideDown => ExifRotated180
    case LandscapeLeft => ExifRotated180
    case LandscapeRight => ExifRotated180
    case Portrait => ExifUpright
    case FaceUp => if isLandscape then ExifRotated180 else ExifUpright
    case FaceDown => if isLandscape then ExifRotated180 else ExifUpright
    case Unknown => ExifUpright
    case Unrecognised => ExifUpright
  }

  /** The code the callback applies when both reads of the device orientation
      see the same value: the frame is turned for the upside-down and landscape
      orientations, and face up only when a window reports a landscape
      interface. */
  function CallbackExifOrientation(orientation: DeviceOrientation, interfaceOrientation: Option<InterfaceOrientation>): (code: int)
    ensures code == ExifUpright || code == ExifRotated180
    ensures code == ExifRotated180 <==>
      || orientation in {PortraitUpsideDown, LandscapeLeft, LandscapeRight}
      || (orientation == FaceUp && interfaceOrientation.Some? && interfaceOrientation.value.IsLandscape())
  {
    ExifOrientation(orientation, IsDeviceInLandscapeWhenFaceUp(orientation, interfaceOrientation))
  }

  /** Face down, the landscape flag is always false, so the `isLandscape ? 3 : 1`
      of that case always yields 1. */
  lemma FaceDownIsNeverRotated(interfaceOrientation: Option<InterfaceOrientation>)
    ensures CallbackExifOrientation(FaceDown, interfaceOrientation) == ExifUpright
  {
  }

  /** Face up, the frame is turned exactly when a window reports a landscape
      interface orientation. */
  lemma FaceUpFollowsInterface(interfaceOrientation: Option<InterfaceOrientation>)
    ensures CallbackExifOrientation(FaceUp, interfaceOrientation) == ExifRotated180
        <==> interfaceOrientation.Some? && interfaceOrientation.value.IsLandscape()
  {
  }

  /** In every other orientation the interface orientation plays no part. */
  lemma OnlyFaceUpReadsInterface(orientation: DeviceOrientation, a: Option<InterfaceOrientation>, b: Option<InterfaceOrientation>)
    requires orientation != FaceUp
    ensures CallbackExifOrientation(orientation, a) == CallbackExifOrientation(orientation, b)
  {
  }
}
