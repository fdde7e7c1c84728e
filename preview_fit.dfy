/**
 * The auto-fit preview builder: it remembers the last display rotation,
 * camera buffer size and view-finder size, and re-applies a rotate-and-scale
 * transform to the texture view only when one of them changed and all of
 * them are usable. Invalid inputs are dropped in stages.
 *
 * The transform itself is floating-point matrix work; here it is the record
 * `Transform` of its parameters, with the scaled width as an exact rational.
 */
module AutoFitPreview {
  import opened CameraTypes

  // android.view.Surface rotation constants
  const ROTATION_0 := 0
  const ROTATION_90 := 1
  const ROTATION_180 := 2
  const ROTATION_270 := 3

  /** A display: its id and its Surface rotation constant. */
  datatype Display = Display(displayId: int, rotation: int)

  /** android.util.Size: any two ints, compared structurally. */
  datatype Size = Size(width: int, height: int)

  /** getDisplaySurfaceRotation: degrees for the four Surface constants, null otherwise or for no display. */
  function DisplaySurfaceRotation(display: Option<Display>): (r: Option<int>)
    ensures r.Some? <==> display.Some? && ROTATION_0 <= display.value.rotation <= ROTATION_270
    ensures r.Some? ==> r.value == 90 * display.value.rotation
  {
    match display
    case None => None
    case Some(d) =>
      if d.rotation == ROTATION_0 then Some(0)
      else if d.rotation == ROTATION_90 then Some(90)
      else if d.rotation == ROTATION_180 then Some(180)
      else if d.rotation == ROTATION_270 then Some(270)
      else None
  }

  /** The longer view-finder side: the buffer's long side is matched to it. */
  function ScaledHeight(viewFinder: Size): (h: int)
    ensures h >= viewFinder.width && h >= viewFinder.height
    ensures h == viewFinder.width || h == viewFinder.height
  {
    if viewFinder.width > viewFinder.height then viewFinder.width else viewFinder.height
  }

  /**
   * The scaled width, kept exact: the buffer is taken as rotated, so the
   * scaled picture has the buffer's height/width proportions.
   */
  function ScaledWidth(buffer: Size, viewFinder: Size): (w: real)
    requires buffer.width != 0
    ensures w * buffer.width as real == ScaledHeight(viewFinder) as real * buffer.height as real
  {
    ScaledHeight(viewFinder) as real * (buffer.height as real / buffer.width as real)
  }

  /**
   * What setTransform receives: rotate by the negated display rotation about
   * the view-finder's centre, then scale by (xScale, yScale) about that centre.
   */
  datatype Transform = Transform(rotateDegrees: int, centerX: real, centerY: real, xScale: real, yScale: real)

  /**
   * The center-crop fit: undo the display rotation about the view-finder's
   * centre, scale the picture's height to the longer view-finder side, and
   * keep the (rotated) buffer's proportions.
   */
  function FitFor(rotation: int, buffer: Size, viewFinder: Size): (t: Transform)
    requires buffer.width != 0 && viewFinder.width != 0 && viewFinder.height != 0
    ensures t.rotateDegrees == -rotation
    ensures t.centerX * 2.0 == viewFinder.width as real && t.centerY * 2.0 == viewFinder.height as real
    // the long sides are matched
    ensures t.yScale * viewFinder.height as real ==
            (if viewFinder.width > viewFinder.height then viewFinder.width else viewFinder.height) as real
    // the picture keeps its proportions
    ensures t.xScale * viewFinder.width as real * buffer.width as real ==
            t.yScale * viewFinder.height as real * buffer.height as real
  {
    Transform(-rotation, viewFinder.width as real / 2.0, viewFinder.height as real / 2.0,
              ScaledWidth(buffer, viewFinder) / viewFinder.width as real,
              ScaledHeight(viewFinder) as real / viewFinder.height as real)
  }

  /** A 1080x1920 view finder fed a 640x480 buffer: scaled 1440 x 1920, so x is stretched by 4/3. */
  lemma FitPortraitExample()
    ensures ScaledHeight(Size(1080, 1920)) == 1920
    ensures ScaledWidth(Size(640, 480), Size(1080, 1920)) == 1440.0
    ensures FitFor(0, Size(640, 480), Size(1080, 1920)).yScale == 1.0
    ensures FitFor(0, Size(640, 480), Size(1080, 1920)).xScale == 4.0 / 3.0
  {
  }

  /** The builder's remembered inputs. */
  datatype FitState = FitState(viewFinderRotation: Option<int>, bufferDimens: Size, viewFinderDimens: Size)

  /** The state after one updateTransform call, and the transform it applied if any. */
  datatype Step = Step(state: FitState, applied: Option<Transform>)

  predicate NonZero(s: Size) {
    s.width != 0 && s.height != 0
  }

  predicate SameInputs(st: FitState, rotation: Option<int>, newBufferDimens: Size, newViewFinderDimens: Size) {
    rotation == st.viewFinderRotation && newBufferDimens == st.bufferDimens && newViewFinderDimens == st.viewFinderDimens
  }

  /** updateTransform as a function of the remembered state and the call's arguments. */
  function UpdateStep(st: FitState, textureAttached: bool, rotation: Option<int>,
                      newBufferDimens: Size, newViewFinderDimens: Size): (r: Step)
    ensures r.applied.Some? <==>
              textureAttached && rotation.Some? && !SameInputs(st, rotation, newBufferDimens, newViewFinderDimens) &&
              NonZero(newBufferDimens) && NonZero(newViewFinderDimens)
    ensures r.applied.Some? ==>
              r.state == FitState(rotation, newBufferDimens, newViewFinderDimens) &&
              r.applied.value == FitFor(rotation.value, newBufferDimens, newViewFinderDimens)
  {
    if !textureAttached then Step(st, None)
    else if SameInputs(st, rotation, newBufferDimens, newViewFinderDimens) then Step(st, None)
    else if rotation.None? then Step(st, None)
    else
      var rotationStored := st.(viewFinderRotation := rotation);
      if !NonZero(newBufferDimens) then Step(rotationStored, None)
      else
        var bufferStored := rotationStored.(bufferDimens := newBufferDimens);
        if !NonZero(newViewFinderDimens) then Step(bufferStored, None)
        else
          var allStored := bufferStored.(viewFinderDimens := newViewFinderDimens);
          Step(allStored, Some(FitFor(rotation.value, newBufferDimens, newViewFinderDimens)))
  }

  /** Unchanged inputs: nothing is stored and no transform is applied. */
  lemma UpdateSkipsUnchangedInputs(st: FitState, textureAttached: bool)
    ensures UpdateStep(st, textureAttached, st.viewFinderRotation, st.bufferDimens, st.viewFinderDimens) == Step(st, None)
  {
  }

  /** A missing texture view or an unknown rotation leaves every stored field alone. */
  lemma UpdateIgnoresMissingInputs(st: FitState, textureAttached: bool, rotation: Option<int>, b: Size, v: Size)
    requires !textureAttached || rotation.None?
    ensures UpdateStep(st, textureAttached, rotation, b, v) == Step(st, None)
  {
  }

  /**
   * Staged validation: the rotation is stored first; a zero buffer side stops
   * before the buffer size is stored; a zero view-finder side stops after the
   * buffer size is stored but before the view-finder size is.
   */
  lemma UpdateIsStaged(st: FitState, rotation: Option<int>, b: Size, v: Size)
    requires rotation.Some? && !SameInputs(st, rotation, b, v)
    ensures !NonZero(b) ==>
              UpdateStep(st, true, rotation, b, v) == Step(st.(viewFinderRotation := rotation), None)
    ensures NonZero(b) && !NonZero(v) ==>
              UpdateStep(st, true, rotation, b, v) ==
              Step(st.(viewFinderRotation := rotation, bufferDimens := b), None)
  {
  }

  /** Repeating a call with the same arguments never applies a transform again. */
  lemma UpdateIsIdempotent(st: FitState, textureAttached: bool, rotation: Option<int>, b: Size, v: Size)
    ensures UpdateStep(UpdateStep(st, textureAttached, rotation, b, v).state, textureAttached, rotation, b, v) ==
            Step(UpdateStep(st, textureAttached, rotation, b, v).state, None)
  {
  }

  /** Once the stored rotation is known it never becomes unknown again. */
  lemma UpdateKeepsRotationKnown(st: FitState, textureAttached: bool, rotation: Option<int>, b: Size, v: Size)
    requires st.viewFinderRotation.Some?
    ensures UpdateStep(st, textureAttached, rotation, b, v).state.viewFinderRotation.Some?
  {
  }

  /** A known rotation that is one of the four right angles a display reports. */
  predicate RightAngle(r: Option<int>) {
    r.Some? && r.value in {0, 90, 180, 270}
  }

  /**
   * The stored rotation stays one of 0, 90, 180, 270 under every update fed
   * with the display's rotation, as all three callbacks do.
   */
  lemma UpdateKeepsRightAngle(st: FitState, textureAttached: bool, display: Option<Display>, b: Size, v: Size)
    requires RightAngle(st.viewFinderRotation)
    ensures RightAngle(UpdateStep(st, textureAttached, DisplaySurfaceRotation(display), b, v).state.viewFinderRotation)
  {
  }

  /** The transforms a step hands to setTransform: none or one. */
  function AppliedBy(step: Step): (ts: seq<Transform>)
    ensures |ts| <= 1
    ensures |ts| == 1 <==> step.applied.Some?
    ensures step.applied.Some? ==> ts[0] == step.applied.value
  {
    match step.applied
    case None => []
    case Some(t) => [t]
  }

  class AutoFitPreviewBuilder {
    var bufferRotation: int
    var viewFinderRotation: Option<int>
    var bufferDimens: Size
    var viewFinderDimens: Size
    var viewFinderDisplay: int
    /** Every transform set on the texture view, in order. */
    ghost var transforms: seq<Transform>

    function State(): FitState
      reads this
    {
      FitState(viewFinderRotation, bufferDimens, viewFinderDimens)
    }

    /** The stored rotation is always one of the four right angles. */
    ghost predicate Valid()
      reads this
    {
      RightAngle(viewFinderRotation)
    }

    /** init: remember the view finder's display and its rotation, 0 when unknown. */
    constructor (display: Display)
      ensures viewFinderDisplay == display.displayId
      ensures viewFinderRotation == Some(DisplaySurfaceRotation(Some(display)).GetOr(0))
      ensures bufferRotation == 0 && bufferDimens == Size(0, 0) && viewFinderDimens == Size(0, 0)
      ensures transforms == []
      ensures Valid()
    {
      bufferRotation := 0;
      bufferDimens := Size(0, 0);
      viewFinderDimens := Size(0, 0);
      viewFinderDisplay := display.displayId;
      viewFinderRotation := Some(DisplaySurfaceRotation(Some(display)).GetOr(0));
      transforms := [];
    }

    /** updateTransform: early returns and staged writes to the three remembered inputs. */
    method UpdateTransform(textureAttached: bool, rotation: Option<int>, newBufferDimens: Size, newViewFinderDimens: Size)
      requires Valid() && (rotation.Some? ==> RightAngle(rotation))
      modifies this
      ensures Valid()
      ensures State() == UpdateStep(old(State()), textureAttached, rotation, newBufferDimens, newViewFinderDimens).state
      ensures transforms ==
              old(transforms) + AppliedBy(UpdateStep(old(State()), textureAttached, rotation, newBufferDimens, newViewFinderDimens))
      ensures bufferRotation == old(bufferRotation) && viewFinderDisplay == old(viewFinderDisplay)
    {
      if !textureAttached {
        return;
      }
      if rotation == viewFinderRotation && newBufferDimens == bufferDimens && newViewFinderDimens == viewFinderDimens {
        // nothing has changed
        return;
      }
      if rotation.None? {
        return;
      } else {
        viewFinderRotation := rotation;
      }
      if newBufferDimens.width == 0 || newBufferDimens.height == 0 {
        return;
      } else {
        bufferDimens := newBufferDimens;
      }
      if newViewFinderDimens.width == 0 || newViewFinderDimens.height == 0 {
        return;
      } else {
        viewFinderDimens := newViewFinderDimens;
      }
      transforms := transforms + [FitFor(viewFinderRotation.value, bufferDimens, viewFinderDimens)];
    }

    /** onDisplayChanged: only for the view finder's own display, with both remembered sizes. */
    method OnDisplayChanged(viewFinderAlive: bool, displayId: int, display: Option<Display>)
      requires Valid()
      modifies this
      ensures Valid()
      ensures viewFinderAlive && displayId == old(viewFinderDisplay) ==>
                var step := UpdateStep(old(State()), true, DisplaySurfaceRotation(display),
                                       old(bufferDimens), old(viewFinderDimens));
                State() == step.state && transforms == old(transforms) + AppliedBy(step)
      ensures !(viewFinderAlive && displayId == old(viewFinderDisplay)) ==>
                State() == old(State()) && transforms == old(transforms)
      ensures bufferRotation == old(bufferRotation) && viewFinderDisplay == old(viewFinderDisplay)
    {
      if !viewFinderAlive {
        return;
      }
      if displayId == viewFinderDisplay {
        var rotation := DisplaySurfaceRotation(display);
        UpdateTransform(true, rotation, bufferDimens, viewFinderDimens);
      }
    }

    /** Preview output update: remember the buffer rotation, then fit the new texture size into the remembered view finder. */
    method OnPreviewOutputUpdate(viewFinderAlive: bool, rotationDegrees: int, textureSize: Size, display: Option<Display>)
      requires Valid()
      modifies this
      ensures Valid()
      ensures viewFinderAlive ==>
                var step := UpdateStep(old(State()), true, DisplaySurfaceRotation(display),
                                       textureSize, old(viewFinderDimens));
                State() == step.state && transforms == old(transforms) + AppliedBy(step) &&
                bufferRotation == rotationDegrees
      ensures !viewFinderAlive ==>
                State() == old(State()) && transforms == old(transforms) && bufferRotation == old(bufferRotation)
      ensures viewFinderDisplay == old(viewFinderDisplay)
    {
      if !viewFinderAlive {
        return;
      }
      bufferRotation := rotationDegrees;
      var rotation := DisplaySurfaceRotation(display);
      UpdateTransform(true, rotation, textureSize, viewFinderDimens);
    }

    /** Layout change: fit the remembered buffer into the view's new bounds. */
    method OnLayoutChange(left: int, top: int, right: int, bottom: int, display: Option<Display>)
      requires Valid()
      modifies this
      ensures Valid()
      ensures var step := UpdateStep(old(State()), true, DisplaySurfaceRotation(display),
                                     old(bufferDimens), Size(right - left, bottom - top));
              State() == step.state && transforms == old(transforms) + AppliedBy(step)
      ensures bufferRotation == old(bufferRotation) && viewFinderDisplay == old(viewFinderDisplay)
    {
      var newViewFinderDimens := Size(right - left, bottom - top);
      var rotation := DisplaySurfaceRotation(display);
      UpdateTransform(true, rotation, bufferDimens, newViewFinderDimens);
    }
  }
}
