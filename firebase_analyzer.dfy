/**
 * The Firebase ML Kit frame analyzer: it converts the frame's rotation to
 * Firebase's rotation code, wraps the frame's image and hands it to the
 * barcode detector; the barcodes found go to the callback unchanged.
 *
 * Firebase is a closed library. Whether it was initialized and what its
 * detector answers are parameters; the answer arrives asynchronously in the
 * source and is part of the outcome here.
 */
module FirebaseAnalysis {
  import opened CameraTypes

  // FirebaseVisionImageMetadata rotation codes
  const ROTATION_0 := 0
  const ROTATION_90 := 1
  const ROTATION_180 := 2
  const ROTATION_270 := 3

  /** rotationDegreesToFirebaseRotation: None stands for the IllegalArgumentException thrown for other angles. */
  function RotationDegreesToFirebaseRotation(rotationDegrees: int): (r: Option<int>)
    ensures r.Some? <==> rotationDegrees in {0, 90, 180, 270}
    ensures r.Some? ==> ROTATION_0 <= r.value <= ROTATION_270 && 90 * r.value == rotationDegrees
  {
    if rotationDegrees == 0 then Some(ROTATION_0)
    else if rotationDegrees == 90 then Some(ROTATION_90)
    else if rotationDegrees == 180 then Some(ROTATION_180)
    else if rotationDegrees == 270 then Some(ROTATION_270)
    else None
  }

  /** Every Firebase rotation code comes from exactly one angle: the conversion is onto and one-to-one. */
  lemma RotationConversionInverts(code: int)
    requires ROTATION_0 <= code <= ROTATION_270
    ensures RotationDegreesToFirebaseRotation(90 * code) == Some(code)
  {
  }

  /** A barcode reported by the detector. */
  datatype Barcode = Barcode(rawValue: Option<string>)

  /** How one analyze call ends. */
  datatype Outcome =
    | Delivered(barcodes: seq<Barcode>)   // the callback received these
    | FailureLogged                       // the detector failed; only a log line
    | IllegalStateCaught                  // Firebase was not initialized; caught and printed
    | IllegalArgumentEscaped              // unsupported angle; escapes analyze
    | NullPointerEscaped                  // the frame had no image; escapes analyze

  /**
   * analyze: the detector is reached only when Firebase is initialized, the
   * angle is supported and the frame has an image; only the
   * IllegalStateException is caught. `detect` answers with the barcodes
   * found, or None when detection fails.
   */
  function Analyze(firebaseReady: bool, frame: ImageProxy, rotationDegrees: int,
                   detect: (Image, int) -> Option<seq<Barcode>>): (r: Outcome)
    ensures !firebaseReady ==> r == IllegalStateCaught
    ensures firebaseReady && rotationDegrees !in {0, 90, 180, 270} ==> r == IllegalArgumentEscaped
    ensures firebaseReady && rotationDegrees in {0, 90, 180, 270} && frame.image.None? ==> r == NullPointerEscaped
    ensures r.Delivered? || r == FailureLogged <==>
              firebaseReady && rotationDegrees in {0, 90, 180, 270} && frame.image.Some?
    ensures r.Delivered? ==>
              detect(frame.image.value, rotationDegrees / 90) == Some(r.barcodes)
    ensures firebaseReady && rotationDegrees in {0, 90, 180, 270} && frame.image.Some? ==>
              r == match detect(frame.image.value, rotationDegrees / 90)
                   case Some(barcodes) => Delivered(barcodes)
                   case None => FailureLogged
  {
    if !firebaseReady then IllegalStateCaught
    else
      match RotationDegreesToFirebaseRotation(rotationDegrees)
      case None => IllegalArgumentEscaped
      case Some(rotation) =>
        match frame.image
        case None => NullPointerEscaped
        case Some(img) =>
          match detect(img, rotation)
          case Some(barcodes) => Delivered(barcodes)
          case None => FailureLogged
  }

  /** Angles such as 360 and -90 are not accepted; the exception leaves analyze. */
  lemma UnsupportedAnglesEscape(firebaseReady: bool, frame: ImageProxy, detect: (Image, int) -> Option<seq<Barcode>>)
    requires firebaseReady
    ensures Analyze(firebaseReady, frame, 360, detect) == IllegalArgumentEscaped
    ensures Analyze(firebaseReady, frame, -90, detect) == IllegalArgumentEscaped
  {
  }
}
