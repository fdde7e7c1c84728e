/**
 * Values shared by the camera widgets: an Option type for Kotlin's nullable
 * values, the status enums, the reader configuration, the Android constants
 * the widgets compare against, and the frames handed to the analyzers.
 */
module CameraTypes {

  /** A Kotlin nullable value: `None` is `null`. */
  datatype Option<+T> = None | Some(value: T) {
    /** Kotlin's elvis operator `this ?: default`. */
    function GetOr(default: T): T {
      match this
      case Some(v) => v
      case None => default
    }
  }

  /** Outcome reported for one analysed frame. */
  datatype BarCodeStatus = Success | NotFoundException | ChecksumException | FormatException

  /** Outcome reported by the still-image capture widget. */
  datatype ImageCodeStatus =
    | CaptureSuccess
    | CaptureFailure
    | PermissionCameraFailure
    | PermissionStorageFailure
    | CameraInitSuccess

  datatype LensFacing = FRONT | BACK

  datatype ImageReaderMode = ACQUIRE_LATEST_IMAGE | ACQUIRE_NEXT_IMAGE

  /** The widgets' configuration; `lensFacing` is a free-form string. */
  datatype BarCodeCameraConfiguration = BarCodeCameraConfiguration(lensFacing: string, readerMode: ImageReaderMode)

  /** The configuration used when the caller passes none. */
  const DEFAULT_CONFIGURATION := BarCodeCameraConfiguration("FRONT", ACQUIRE_LATEST_IMAGE)

  /**
   * Lens selection shared by both widgets: the front lens exactly when the
   * configured string is "FRONT" (any other string, in any case, means back).
   */
  function LensFacingFor(conf: BarCodeCameraConfiguration): (lens: LensFacing)
    ensures lens == FRONT <==> conf.lensFacing == "FRONT"
    ensures lens == BACK <==> conf.lensFacing != "FRONT"
  {
    if conf.lensFacing == "FRONT" then FRONT else BACK
  }

  /** A widget initialised without a configuration uses the front lens. */
  lemma DefaultConfigurationUsesFrontLens()
    ensures LensFacingFor(DEFAULT_CONFIGURATION) == FRONT
  {
  }

  // Permission request codes and the grant results Android reports.
  const PERMISSIONS_REQUEST_CAMERA := 101
  const PERMISSIONS_REQUEST_READ_WRITE_STORAGE := 102
  const PERMISSION_GRANTED := 0
  const PERMISSION_DENIED := -1

  datatype Permission = WRITE_EXTERNAL_STORAGE | CAMERA

  /** The storage-and-camera request asks for storage first, camera second. */
  const STORAGE_CAMERA_PERMISSIONS: seq<Permission> := [WRITE_EXTERNAL_STORAGE, CAMERA]

  // Android ImageFormat codes of the three accepted YUV layouts.
  const YUV_420_888 := 0x23
  const YUV_422_888 := 0x27
  const YUV_444_888 := 0x28

  /** A camera image: its format code and the bytes of each plane buffer. */
  datatype Image = Image(format: int, planes: seq<seq<bv8>>)

  /** One frame handed to an analyzer; `image` is null when the frame was already closed. */
  datatype ImageProxy = ImageProxy(image: Option<Image>, width: nat, height: nat)

  /** The analyzers accept only a three-plane YUV image. */
  predicate IsYuvThreePlane(img: Image): (ok: bool)
    ensures ok ==> |img.planes| == 3
    ensures ok ==> img.format in {YUV_420_888, YUV_422_888, YUV_444_888}
    ensures |img.planes| == 3 && img.format in {YUV_420_888, YUV_422_888, YUV_444_888} ==> ok
  {
    (img.format == YUV_420_888 || img.format == YUV_422_888 || img.format == YUV_444_888)
    && |img.planes| == 3
  }
}
