/**
 * The bar-code reader view: it picks the lens from the configuration, starts
 * the camera once camera permission is granted (asking for it otherwise),
 * and forwards the first code the ZBar analyzer finds to its listener. A
 * latch, cleared by every initCamera, makes that happen at most once.
 *
 * Permission checks and the user's answers are parameters; binding to the
 * lifecycle is the event `CameraStarted`.
 */
module BarCodeReader {
  import opened CameraTypes

  /** What onRequestPermissionsResult does for one answer. */
  datatype PermissionAction = StartCamera | ReportInitFailure(isAlwaysDenied: bool) | NoAction

  /**
   * The camera-permission dispatch: only the camera request code with at
   * least one result acts; a grant starts the camera, a denial reports an
   * init failure that is "always denied" when no rationale is to be shown,
   * and any other result value does nothing.
   */
  function CameraPermissionAction(requestCode: int, grantResults: seq<int>, showRationale: bool): (a: PermissionAction)
    ensures a == StartCamera <==>
              requestCode == PERMISSIONS_REQUEST_CAMERA && |grantResults| > 0 && grantResults[0] == PERMISSION_GRANTED
    ensures a.ReportInitFailure? <==>
              requestCode == PERMISSIONS_REQUEST_CAMERA && |grantResults| > 0 && grantResults[0] == PERMISSION_DENIED
    ensures a.ReportInitFailure? ==> a.isAlwaysDenied == !showRationale
  {
    if requestCode != PERMISSIONS_REQUEST_CAMERA || |grantResults| == 0 then NoAction
    else if grantResults[0] == PERMISSION_GRANTED then StartCamera
    else if grantResults[0] == PERMISSION_DENIED then ReportInitFailure(!showRationale)
    else NoAction
  }

  /** Any request code but the camera one, and an empty answer, do nothing. */
  lemma OtherAnswersDoNothing(requestCode: int, grantResults: seq<int>, showRationale: bool)
    requires requestCode != PERMISSIONS_REQUEST_CAMERA || grantResults == []
    ensures CameraPermissionAction(requestCode, grantResults, showRationale) == NoAction
  {
  }

  /**
   * The codes passed to onSuccess when the ZBar callback fires once for each
   * of `codes` in turn, starting with the latch at `latched`.
   */
  function LatchDeliveries(latched: bool, codes: seq<string>): seq<string>
    decreases |codes|
  {
    if codes == [] then []
    else (if latched then [] else [codes[0]]) + LatchDeliveries(true, codes[1..])
  }

  /** Whatever arrives, only the first code after a reset gets through, and none once latched. */
  lemma {:induction false} LatchDeliversFirstOnly(latched: bool, codes: seq<string>)
    ensures LatchDeliveries(latched, codes) == if latched || codes == [] then [] else [codes[0]]
    decreases |codes|
  {
    if codes != [] {
      LatchDeliversFirstOnly(true, codes[1..]);
    }
  }

  /** The observable calls the view makes. */
  datatype ReaderEvent =
    | CameraStarted
    | PermissionRequested(requestCode: int, permissions: seq<Permission>)
    | SuccessReported(code: string, status: BarCodeStatus)
    | InitFailureReported(isAlwaysDenied: bool)

  class BarCodeReaderView {
    var isSuccess: bool
    var lensFacing: Option<LensFacing>
    var config: Option<BarCodeCameraConfiguration>
    /** The preview use case, by its torch state; None before the camera starts. */
    var preview: Option<bool>
    var hasListener: bool
    ghost var events: seq<ReaderEvent>
    /** Codes the ZBar analyzer reported since the last initCamera. */
    ghost var arrivals: seq<string>
    /** Codes handed to onSuccess since the last initCamera. */
    ghost var delivered: seq<string>

    /**
     * The latch is set exactly when a code has arrived, and what was delivered
     * is what the latch lets through from the run of arrivals (nothing, when
     * no listener was set as the first code arrived).
     */
    ghost predicate Valid()
      reads this
    {
      isSuccess == (arrivals != []) &&
      (delivered == [] || delivered == LatchDeliveries(false, arrivals))
    }

    constructor ()
      ensures Valid()
      ensures !isSuccess && lensFacing.None? && config.None? && preview.None? && !hasListener
      ensures events == [] && arrivals == [] && delivered == []
    {
      isSuccess := false;
      lensFacing := None;
      config := None;
      preview := None;
      hasListener := false;
      events := [];
      arrivals := [];
      delivered := [];
    }

    /** Setting or clearing barCodeReaderListener. */
    method SetListener(present: bool)
      modifies this
      ensures hasListener == present
      ensures isSuccess == old(isSuccess) && lensFacing == old(lensFacing) && config == old(config)
      ensures preview == old(preview) && events == old(events)
      ensures arrivals == old(arrivals) && delivered == old(delivered)
    {
      hasListener := present;
    }

    /** startCamera: rebuild the use cases, with a new preview whose torch is off, and bind them. */
    method StartCameraNow()
      modifies this
      ensures preview == Some(false) && events == old(events) + [CameraStarted]
      ensures isSuccess == old(isSuccess) && lensFacing == old(lensFacing) && config == old(config)
      ensures hasListener == old(hasListener) && arrivals == old(arrivals) && delivered == old(delivered)
    {
      preview := Some(false);
      events := events + [CameraStarted];
    }

    /** initCamera: clear the latch, choose the lens, keep the configuration, then start or ask. */
    method InitCamera(conf: BarCodeCameraConfiguration, cameraGranted: bool)
      modifies this
      ensures Valid()
      ensures !isSuccess && arrivals == [] && delivered == []
      ensures lensFacing == Some(LensFacingFor(conf)) && config == Some(conf) && hasListener == old(hasListener)
      ensures cameraGranted ==> preview == Some(false) && events == old(events) + [CameraStarted]
      ensures !cameraGranted ==>
                preview == old(preview) &&
                events == old(events) + [PermissionRequested(PERMISSIONS_REQUEST_CAMERA, [CAMERA])]
    {
      isSuccess := false;
      arrivals := [];
      delivered := [];
      lensFacing := Some(LensFacingFor(conf));
      config := Some(conf);
      if cameraGranted {
        StartCameraNow();
      } else {
        events := events + [PermissionRequested(PERMISSIONS_REQUEST_CAMERA, [CAMERA])];
      }
    }

    /** The ZBar callback: forward the code while the latch is open, then close it. */
    method OnZBarResult(code: string)
      requires Valid()
      modifies this
      ensures Valid()
      ensures isSuccess && arrivals == old(arrivals) + [code]
      ensures |delivered| <= 1
      ensures delivered == old(delivered) + (if hasListener then LatchDeliveries(old(isSuccess), [code]) else [])
      ensures events == old(events) +
                (if hasListener && !old(isSuccess) then [SuccessReported(code, Success)] else [])
      ensures lensFacing == old(lensFacing) && config == old(config) && preview == old(preview)
      ensures hasListener == old(hasListener)
    {
      LatchDeliversFirstOnly(isSuccess, [code]);
      LatchDeliversFirstOnly(false, arrivals);
      LatchDeliversFirstOnly(false, arrivals + [code]);
      arrivals := arrivals + [code];
      if !isSuccess {
        if hasListener {
          events := events + [SuccessReported(code, Success)];
          delivered := delivered + [code];
        }
        isSuccess := true;
      }
    }

    /** enableTorch: only a started preview changes. */
    method EnableTorch(enable: bool)
      modifies this
      ensures preview == if old(preview).Some? then Some(enable) else None
      ensures isSuccess == old(isSuccess) && lensFacing == old(lensFacing) && config == old(config)
      ensures hasListener == old(hasListener) && events == old(events)
      ensures arrivals == old(arrivals) && delivered == old(delivered)
    {
      if preview.Some? {
        preview := Some(enable);
      }
    }

    /** isTorchOn: the preview's torch state, false when there is no preview. */
    function IsTorchOn(): (on: bool)
      reads this
      ensures preview.None? ==> !on
      ensures preview.Some? ==> on == preview.value
    {
      preview.GetOr(false)
    }

    /** onRequestPermissionsResult, following CameraPermissionAction. */
    method OnRequestPermissionsResult(grantResults: seq<int>, requestCode: int, showCameraRationale: bool)
      modifies this
      ensures isSuccess == old(isSuccess) && lensFacing == old(lensFacing) && config == old(config)
      ensures hasListener == old(hasListener) && arrivals == old(arrivals) && delivered == old(delivered)
      ensures match CameraPermissionAction(requestCode, grantResults, showCameraRationale)
              case StartCamera => preview == Some(false) && events == old(events) + [CameraStarted]
              case ReportInitFailure(always) =>
                preview == old(preview) &&
                events == old(events) + (if hasListener then [InitFailureReported(always)] else [])
              case NoAction => preview == old(preview) && events == old(events)
    {
      match CameraPermissionAction(requestCode, grantResults, showCameraRationale)
      case StartCamera =>
        StartCameraNow();
      case ReportInitFailure(always) =>
        if hasListener {
          events := events + [InitFailureReported(always)];
        }
      case NoAction =>
    }
  }
}
