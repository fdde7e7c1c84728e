/**
 * The ZXing frame analyzer: for each frame with a three-plane YUV image it
 * copies the luminance plane, rotates it, hands it to the decoder and tells
 * every registered listener the outcome, then resets the decoder.
 *
 * The ZXing decoder is a closed library; it is the function parameter
 * `decoder`, which sees the rotated plane.
 */
module BarCodeAnalysis {
  import opened CameraTypes
  import opened FrameRotation

  /** What the ZXing reader does with one binarized plane. */
  datatype Decoded = Decoded(text: string) | NotFound | ChecksumError | FormatError

  /** The arguments of one listener call (the result points are not modelled). */
  datatype Report = Report(
    qrCode: Option<string>,
    qrStatus: BarCodeStatus,
    resultImageWidth: Option<int>,
    resultImageHeight: Option<int>,
    rotationDegrees: int)

  /** A listener registered with onFrameAnalyzed, by identity. */
  type ListenerId = nat

  /** Observable effects of the analyzer, in order. */
  datatype Event = Notified(listener: ListenerId, report: Report) | ReaderReset

  /** The report for a frame whose image is not three-plane YUV. */
  function UnsupportedFrameReport(rotationDegrees: int): (r: Report)
    ensures r.qrStatus == FormatException && r.qrCode.None?
    ensures r.resultImageWidth.None? && r.resultImageHeight.None?
    ensures r.rotationDegrees == rotationDegrees
  {
    Report(None, FormatException, None, None, rotationDegrees)
  }

  /** The report for a decoded frame: the text with the rotated dimensions, or the failure's status with nulls. */
  function DecodeReport(outcome: Decoded, rotated: Plane, rotationDegrees: int): (r: Report)
    ensures r.rotationDegrees == rotationDegrees
    ensures r.qrStatus == Success <==> outcome.Decoded?
    ensures r.qrStatus == NotFoundException <==> outcome.NotFound?
    ensures r.qrStatus == ChecksumException <==> outcome.ChecksumError?
    ensures r.qrStatus == FormatException <==> outcome.FormatError?
    ensures outcome.Decoded? ==>
              r.qrCode == Some(outcome.text) &&
              r.resultImageWidth == Some(rotated.width) && r.resultImageHeight == Some(rotated.height)
    ensures !outcome.Decoded? ==>
              r.qrCode.None? && r.resultImageWidth.None? && r.resultImageHeight.None?
  {
    match outcome
    case Decoded(text) => Report(Some(text), Success, Some(rotated.width), Some(rotated.height), rotationDegrees)
    case NotFound => Report(None, NotFoundException, None, None, rotationDegrees)
    case ChecksumError => Report(None, ChecksumException, None, None, rotationDegrees)
    case FormatError => Report(None, FormatException, None, None, rotationDegrees)
  }

  /** `listeners.forEach { it(report) }`: one call per registered listener, in order. */
  function NotifyAll(listeners: seq<ListenerId>, report: Report): (events: seq<Event>)
    ensures |events| == |listeners|
    ensures forall i :: 0 <= i < |listeners| ==> events[i] == Notified(listeners[i], report)
  {
    if listeners == [] then [] else NotifyAll(listeners[..|listeners| - 1], report) + [Notified(listeners[|listeners| - 1], report)]
  }

  /** The luminance plane of a frame as the analyzer wraps it, before rotation. */
  function LumaPlane(frame: ImageProxy): Plane
    requires frame.image.Some? && IsYuvThreePlane(frame.image.value)
  {
    Plane(frame.image.value.planes[0], frame.width, frame.height)
  }

  class BarCodeAnalyzer {
    var listeners: seq<ListenerId>
    /** Listener calls and decoder resets so far. */
    ghost var trace: seq<Event>

    constructor ()
      ensures listeners == [] && trace == []
    {
      listeners := [];
      trace := [];
    }

    /** onFrameAnalyzed: register one more listener. */
    method OnFrameAnalyzed(listener: ListenerId)
      modifies this
      ensures listeners == old(listeners) + [listener] && trace == old(trace)
    {
      listeners := listeners + [listener];
    }

    /** Call every listener with `report`. */
    method Notify(report: Report)
      modifies this
      ensures listeners == old(listeners)
      ensures trace == old(trace) + NotifyAll(listeners, report)
    {
      var i := 0;
      while i < |listeners|
        invariant 0 <= i <= |listeners| && listeners == old(listeners)
        invariant trace == old(trace) + NotifyAll(listeners[..i], report)
      {
        assert listeners[..i + 1][..i] == listeners[..i];
        trace := trace + [Notified(listeners[i], report)];
        i := i + 1;
      }
      assert listeners[..i] == listeners;
    }

    /**
     * analyze: a frame without an image does nothing; a frame that is not
     * three-plane YUV is reported as a format error; otherwise the luminance
     * plane is rotated and decoded, every listener hears the outcome, and the
     * reader is reset. An index error in the rotation escapes (`escaped`),
     * before any listener is called.
     */
    method Analyze(frame: ImageProxy, rotationDegrees: int, decoder: Plane -> Decoded) returns (escaped: bool)
      modifies this
      ensures listeners == old(listeners)
      ensures frame.image.None? ==> !escaped && trace == old(trace)
      ensures frame.image.Some? && !IsYuvThreePlane(frame.image.value) ==>
                !escaped && trace == old(trace) + NotifyAll(listeners, UnsupportedFrameReport(rotationDegrees))
      ensures frame.image.Some? && IsYuvThreePlane(frame.image.value) ==>
                match Rotate(LumaPlane(frame), rotationDegrees)
                case IndexOutOfBounds => escaped && trace == old(trace)
                case Rotated(p) =>
                  !escaped &&
                  trace == old(trace) + NotifyAll(listeners, DecodeReport(decoder(p), p, rotationDegrees)) + [ReaderReset]
    {
      escaped := false;
      if frame.image.None? {
        return;
      }
      var img := frame.image.value;
      if !IsYuvThreePlane(img) {
        Notify(UnsupportedFrameReport(rotationDegrees));
        return;
      }
      var luma := img.planes[0];
      var bytes := new bv8[|luma|](i requires 0 <= i < |luma| => luma[i]);
      var rotatedImage := new RotatedImage(bytes, frame.width, frame.height);
      assert rotatedImage.Value() == LumaPlane(frame);
      escaped := RotateImageArray(rotatedImage, rotationDegrees);
      if escaped {
        return;
      }
      var rotated := rotatedImage.Value();
      var outcome := decoder(rotated);
      Notify(DecodeReport(outcome, rotated, rotationDegrees));
      // finally { barCodeReader.reset() }
      trace := trace + [ReaderReset];
    }
  }
}
