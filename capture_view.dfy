/**
 * The still-image capture view: it picks the lens from the configuration,
 * starts the camera only when both storage and camera permission are held
 * (asking for both otherwise), takes pictures on request, and hands the
 * saved picture back after undoing its EXIF orientation.
 *
 * Permission checks, the user's answers and the EXIF orientation read from
 * the saved file are parameters. Bitmap work is a list of operations.
 */
module ImageCapture {
  import opened CameraTypes

  /** What onRequestPermissionsResult does for one answer. */
  datatype PermissionAction =
    | StartCamera
    | ReportInitFailure(isAlwaysDenied: bool, status: ImageCodeStatus)
    | NoAction

  /**
   * The storage-and-camera dispatch. Only the storage request code with at
   * least two results acts: both granted starts the camera; otherwise a
   * denied storage answer (index 0) is reported before a denied camera
   * answer (index 1), each "always denied" when its rationale is not shown.
   */
  function StoragePermissionAction(requestCode: int, grantResults: seq<int>,
                                   showStorageRationale: bool, showCameraRationale: bool): (a: PermissionAction)
    ensures a == StartCamera <==>
              requestCode == PERMISSIONS_REQUEST_READ_WRITE_STORAGE && |grantResults| > 1 &&
              grantResults[0] == PERMISSION_GRANTED && grantResults[1] == PERMISSION_GRANTED
    ensures a.ReportInitFailure? && a.status == PermissionStorageFailure <==>
              requestCode == PERMISSIONS_REQUEST_READ_WRITE_STORAGE && |grantResults| > 1 &&
              grantResults[0] == PERMISSION_DENIED
    ensures a.ReportInitFailure? && a.status == PermissionCameraFailure <==>
              requestCode == PERMISSIONS_REQUEST_READ_WRITE_STORAGE && |grantResults| > 1 &&
              grantResults[0] != PERMISSION_DENIED && grantResults[1] == PERMISSION_DENIED
    ensures a.ReportInitFailure? ==> a.status == PermissionStorageFailure || a.status == PermissionCameraFailure
    ensures a.ReportInitFailure? && a.status == PermissionStorageFailure ==> a.isAlwaysDenied == !showStorageRationale
    ensures a.ReportInitFailure? && a.status == PermissionCameraFailure ==> a.isAlwaysDenied == !showCameraRationale
  {
    if requestCode != PERMISSIONS_REQUEST_READ_WRITE_STORAGE || |grantResults| <= 1 then NoAction
    else if grantResults[0] == PERMISSION_GRANTED && grantResults[1] == PERMISSION_GRANTED then StartCamera
    else if grantResults[0] == PERMISSION_DENIED then ReportInitFailure(!showStorageRationale, PermissionStorageFailure)
    else if grantResults[1] == PERMISSION_DENIED then ReportInitFailure(!showCameraRationale, PermissionCameraFailure)
    else NoAction
  }

  /** A different request code, or fewer than two answers, does nothing. */
  lemma ShortAnswersDoNothing(requestCode: int, grantResults: seq<int>, showStorage: bool, showCamera: bool)
    requires requestCode != PERMISSIONS_REQUEST_READ_WRITE_STORAGE || |grantResults| <= 1
    ensures StoragePermissionAction(requestCode, grantResults, showStorage, showCamera) == NoAction
  {
  }

  /** The init-failure status that names a denied permission. */
  function FailureStatusFor(p: Permission): (status: ImageCodeStatus)
    ensures status == PermissionStorageFailure <==> p == WRITE_EXTERNAL_STORAGE
    ensures status == PermissionCameraFailure <==> p == CAMERA
  {
    match p
    case WRITE_EXTERNAL_STORAGE => PermissionStorageFailure
    case CAMERA => PermissionCameraFailure
  }

  /**
   * The answers line up with the request: the first answer (in request order)
   * that is a denial is reported, with the status naming the permission asked
   * for at that index and that permission's own rationale flag.
   */
  lemma AnswersFollowRequestOrder(requestCode: int, grantResults: seq<int>,
                                  showStorage: bool, showCamera: bool, i: int)
    requires requestCode == PERMISSIONS_REQUEST_READ_WRITE_STORAGE && |grantResults| > 1
    requires 0 <= i < |STORAGE_CAMERA_PERMISSIONS| && grantResults[i] == PERMISSION_DENIED
    requires forall j :: 0 <= j < i ==> grantResults[j] != PERMISSION_DENIED
    ensures var p := STORAGE_CAMERA_PERMISSIONS[i];
            StoragePermissionAction(requestCode, grantResults, showStorage, showCamera) ==
            ReportInitFailure(!(if p == WRITE_EXTERNAL_STORAGE then showStorage else showCamera), FailureStatusFor(p))
  {
    if i == 1 {
      assert grantResults[0] != PERMISSION_DENIED;
    }
  }

  // androidx ExifInterface orientation tags
  const ORIENTATION_NORMAL := 1
  const ORIENTATION_FLIP_HORIZONTAL := 2
  const ORIENTATION_ROTATE_180 := 3
  const ORIENTATION_FLIP_VERTICAL := 4
  const ORIENTATION_TRANSPOSE := 5
  const ORIENTATION_ROTATE_90 := 6
  const ORIENTATION_TRANSVERSE := 7
  const ORIENTATION_ROTATE_270 := 8

  /** One Bitmap.createBitmap with a matrix: a clockwise rotation, or a horizontal mirror. */
  datatype BitmapOp = Rotate(degrees: int) | FlipHorizontal

  /** rotateImage: rotate, then always mirror. */
  function RotateImage(degree: int): (ops: seq<BitmapOp>)
    ensures ops == [Rotate(degree)] + FlipImage()
  {
    [Rotate(degree), FlipHorizontal]
  }

  /** flipImage: mirror horizontally. */
  function FlipImage(): (ops: seq<BitmapOp>)
    ensures |ops| == 1 && ops[0].FlipHorizontal?
  {
    [FlipHorizontal]
  }

  /** rotateImageIfRequired: the operations applied to the saved picture for its EXIF orientation. */
  function RotateImageIfRequired(orientation: int): (ops: seq<BitmapOp>)
    ensures ops == [] <==>
              orientation !in {ORIENTATION_ROTATE_90, ORIENTATION_ROTATE_180, ORIENTATION_ROTATE_270,
                               ORIENTATION_FLIP_VERTICAL, ORIENTATION_FLIP_HORIZONTAL}
    ensures ops != [] ==> ops[|ops| - 1] == FlipHorizontal
    ensures orientation == ORIENTATION_FLIP_HORIZONTAL ==> ops == [FlipHorizontal]
    ensures orientation == ORIENTATION_ROTATE_90 ==> ops == [Rotate(90), FlipHorizontal]
    ensures orientation == ORIENTATION_ROTATE_180 || orientation == ORIENTATION_FLIP_VERTICAL ==>
              ops == [Rotate(180), FlipHorizontal]
    ensures orientation == ORIENTATION_ROTATE_270 ==> ops == [Rotate(270), FlipHorizontal]
  {
    if orientation == ORIENTATION_ROTATE_90 then RotateImage(90)
    else if orientation == ORIENTATION_ROTATE_180 then RotateImage(180)
    else if orientation == ORIENTATION_ROTATE_270 then RotateImage(270)
    else if orientation == ORIENTATION_FLIP_VERTICAL then RotateImage(180)
    else if orientation == ORIENTATION_FLIP_HORIZONTAL then FlipImage()
    else []
  }

  /**
   * Where an image ends up relative to the captured one: first mirrored (or
   * not), then turned clockwise by `quarterTurns` quarter turns.
   */
  datatype Placement = Placement(quarterTurns: int, mirrored: bool)

  const Identity := Placement(0, false)

  predicate WellFormed(p: Placement) {
    0 <= p.quarterTurns < 4
  }

  /** The placement after one more operation (right angles only, as rotateImage is called). */
  function Then(p: Placement, op: BitmapOp): (q: Placement)
    requires WellFormed(p)
    ensures WellFormed(q)
    ensures op.FlipHorizontal? ==> q.mirrored != p.mirrored
    ensures op.Rotate? ==> q.mirrored == p.mirrored
  {
    match op
    case Rotate(d) => Placement((p.quarterTurns + d / 90) % 4, p.mirrored)
    // a mirror after a turn by k is a turn by -k after a mirror
    case FlipHorizontal => Placement((4 - p.quarterTurns) % 4, !p.mirrored)
  }

  /** The net placement of a list of operations applied in order. */
  function Net(ops: seq<BitmapOp>): (p: Placement)
    ensures WellFormed(p)
  {
    if ops == [] then Identity else Then(Net(ops[..|ops| - 1]), ops[|ops| - 1])
  }

  /** Every picture that is rotated for its orientation comes out mirrored as well. */
  lemma RotatedPicturesAreMirrored(orientation: int)
    requires orientation in {ORIENTATION_ROTATE_90, ORIENTATION_ROTATE_180, ORIENTATION_ROTATE_270}
    ensures Net(RotateImageIfRequired(orientation)).mirrored
    ensures Net(RotateImageIfRequired(orientation)).quarterTurns == (4 - QuarterTurnsOf(orientation)) % 4
  {
    var ops := RotateImageIfRequired(orientation);
    assert ops[..1] == [ops[0]];
    assert ops[..1][..0] == [];
  }

  /** The quarter turns the EXIF rotate tags ask for. */
  function QuarterTurnsOf(orientation: int): int {
    if orientation == ORIENTATION_ROTATE_90 then 1
    else if orientation == ORIENTATION_ROTATE_180 then 2
    else if orientation == ORIENTATION_ROTATE_270 then 3
    else 0
  }

  /** A ROTATE_180 picture and a FLIP_VERTICAL picture are treated identically: both end up a vertical mirror. */
  lemma HalfTurnMatchesVerticalFlip()
    ensures Net(RotateImageIfRequired(ORIENTATION_ROTATE_180)) == Net(RotateImageIfRequired(ORIENTATION_FLIP_VERTICAL))
    ensures Net(RotateImageIfRequired(ORIENTATION_FLIP_VERTICAL)) == Placement(2, true)
  {
    var ops := RotateImageIfRequired(ORIENTATION_FLIP_VERTICAL);
    assert ops[..1] == [Rotate(180)];
    assert ops[..1][..0] == [];
  }

  /** Any other orientation, NORMAL and TRANSPOSE/TRANSVERSE included, leaves the picture as it is. */
  lemma OtherOrientationsKeepPicture(orientation: int)
    requires orientation !in {ORIENTATION_ROTATE_90, ORIENTATION_ROTATE_180, ORIENTATION_ROTATE_270,
                              ORIENTATION_FLIP_VERTICAL, ORIENTATION_FLIP_HORIZONTAL}
    ensures Net(RotateImageIfRequired(orientation)) == Identity
  {
  }

  /** The observable calls the view makes. */
  datatype CaptureEvent =
    | PermissionRequested(requestCode: int, permissions: seq<Permission>)
    | Bound
    | InitSuccessReported(status: ImageCodeStatus)
    | InitFailureReported(isAlwaysDenied: bool, status: ImageCodeStatus)
    | PictureTaken(isReversedHorizontal: bool)
    | CaptureSucceeded(ops: seq<BitmapOp>, status: ImageCodeStatus)
    | CaptureFailed(message: string, status: ImageCodeStatus)

  class ImageCaptureView {
    var lensFacing: Option<LensFacing>
    var config: Option<BarCodeCameraConfiguration>
    /** Whether the capture use case exists (it is built by startCamera). */
    var hasImageCapture: bool
    var hasListener: bool
    ghost var events: seq<CaptureEvent>

    /** onInitSuccess is only ever reported right after the use cases were bound. */
    ghost predicate Valid()
      reads this
    {
      forall i :: 0 <= i < |events| && events[i].InitSuccessReported? ==> 0 < i && events[i - 1] == Bound
    }

    constructor ()
      ensures Valid()
      ensures lensFacing.None? && config.None? && !hasImageCapture && !hasListener && events == []
    {
      lensFacing := None;
      config := None;
      hasImageCapture := false;
      hasListener := false;
      events := [];
    }

    /** Setting or clearing imageCaptureListener. */
    method SetListener(present: bool)
      requires Valid()
      modifies this
      ensures Valid()
      ensures hasListener == present
      ensures lensFacing == old(lensFacing) && config == old(config) && hasImageCapture == old(hasImageCapture)
      ensures events == old(events)
    {
      hasListener := present;
    }

    /** startCamera: build the use cases, bind them, then report the successful init. */
    method StartCameraNow()
      requires Valid()
      modifies this
      ensures Valid()
      ensures hasImageCapture
      ensures events == old(events) + [Bound] +
                (if hasListener then [InitSuccessReported(CameraInitSuccess)] else [])
      ensures lensFacing == old(lensFacing) && config == old(config) && hasListener == old(hasListener)
    {
      hasImageCapture := true;
      events := events + [Bound];
      if hasListener {
        events := events + [InitSuccessReported(CameraInitSuccess)];
      }
    }

    /** initCamera: choose the lens, keep the configuration, then start or ask for both permissions. */
    method InitCamera(conf: BarCodeCameraConfiguration, cameraGranted: bool, storageGranted: bool)
      requires Valid()
      modifies this
      ensures Valid()
      ensures lensFacing == Some(LensFacingFor(conf)) && config == Some(conf) && hasListener == old(hasListener)
      ensures cameraGranted && storageGranted ==>
                hasImageCapture &&
                events == old(events) + [Bound] + (if hasListener then [InitSuccessReported(CameraInitSuccess)] else [])
      ensures !(cameraGranted && storageGranted) ==>
                hasImageCapture == old(hasImageCapture) &&
                events == old(events) + [PermissionRequested(PERMISSIONS_REQUEST_READ_WRITE_STORAGE, STORAGE_CAMERA_PERMISSIONS)]
    {
      lensFacing := Some(LensFacingFor(conf));
      config := Some(conf);
      if cameraGranted && storageGranted {
        StartCameraNow();
      } else {
        events := events + [PermissionRequested(PERMISSIONS_REQUEST_READ_WRITE_STORAGE, STORAGE_CAMERA_PERMISSIONS)];
      }
    }

    /** onRequestPermissionsResult, following StoragePermissionAction. */
    method OnRequestPermissionsResult(grantResults: seq<int>, requestCode: int,
                                      showStorageRationale: bool, showCameraRationale: bool)
      requires Valid()
      modifies this
      ensures Valid()
      ensures lensFacing == old(lensFacing) && config == old(config) && hasListener == old(hasListener)
      ensures match StoragePermissionAction(requestCode, grantResults, showStorageRationale, showCameraRationale)
              case StartCamera =>
                hasImageCapture &&
                events == old(events) + [Bound] + (if hasListener then [InitSuccessReported(CameraInitSuccess)] else [])
              case ReportInitFailure(always, status) =>
                hasImageCapture == old(hasImageCapture) &&
                events == old(events) + (if hasListener then [InitFailureReported(always, status)] else [])
              case NoAction =>
                hasImageCapture == old(hasImageCapture) && events == old(events)
    {
      match StoragePermissionAction(requestCode, grantResults, showStorageRationale, showCameraRationale)
      case StartCamera =>
        StartCameraNow();
      case ReportInitFailure(always, status) =>
        if hasListener {
          events := events + [InitFailureReported(always, status)];
        }
      case NoAction =>
    }

    /**
     * captureImage: with both permissions and a capture use case, take one
     * picture, mirrored exactly when the front lens is in use; without the
     * permissions, report a camera-permission failure that is not "always denied".
     */
    method CaptureImage(cameraGranted: bool, storageGranted: bool)
      requires Valid()
      modifies this
      ensures Valid()
      ensures lensFacing == old(lensFacing) && config == old(config) && hasListener == old(hasListener)
      ensures hasImageCapture == old(hasImageCapture)
      ensures cameraGranted && storageGranted ==>
                events == old(events) + (if hasImageCapture then [PictureTaken(lensFacing == Some(FRONT))] else [])
      ensures !(cameraGranted && storageGranted) ==>
                events == old(events) + (if hasListener then [InitFailureReported(false, PermissionCameraFailure)] else [])
    {
      if cameraGranted && storageGranted {
        if hasImageCapture {
          events := events + [PictureTaken(lensFacing == Some(FRONT))];
        }
      } else if hasListener {
        events := events + [InitFailureReported(false, PermissionCameraFailure)];
      }
    }

    /** The saved-picture callback: undo the EXIF orientation and report the result. */
    method OnImageSaved(orientation: int)
      requires Valid()
      modifies this
      ensures Valid()
      ensures lensFacing == old(lensFacing) && config == old(config) && hasListener == old(hasListener)
      ensures hasImageCapture == old(hasImageCapture)
      ensures events == old(events) +
                (if hasListener then [CaptureSucceeded(RotateImageIfRequired(orientation), CaptureSuccess)] else [])
    {
      var ops := RotateImageIfRequired(orientation);
      if hasListener {
        events := events + [CaptureSucceeded(ops, CaptureSuccess)];
      }
    }

    /** The capture-error callback: report the message as a capture failure. */
    method OnError(message: string)
      requires Valid()
      modifies this
      ensures Valid()
      ensures lensFacing == old(lensFacing) && config == old(config) && hasListener == old(hasListener)
      ensures hasImageCapture == old(hasImageCapture)
      ensures events == old(events) + (if hasListener then [CaptureFailed(message, CaptureFailure)] else [])
    {
      if hasListener {
        events := events + [CaptureFailed(message, CaptureFailure)];
      }
    }
  }
}
