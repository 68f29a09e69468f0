/** The Index page's state and its detector callback: onResults clears the
    overlay, draws and counts the first hand, and stores the hand state and
    bulb power the frame decides. */
module IndexPage {
  import opened Hand
  import opened FingerCounter
  import opened Classifier
  import opened Status
  import opened Skeleton

  /** A canvas that has a 2D drawing context, with its size in pixels. */
  datatype Surface = Surface(width: real, height: real)

  /** What a frame leaves on the overlay canvas. */
  datatype Overlay =
    | Untouched        // no canvas or no 2D context: the callback returned at once
    | Cleared          // no hand reported
    | Drawn(sketch: Sketch)
    | Aborted          // drawing a short hand threw after the canvas was cleared

  class Page {
    var handState: HandState
    var bulbPower: BulbPower

    /** Outside the camera-error state the bulb matches the hand. */
    ghost predicate Valid()
      reads this
    {
      handState != Error ==> bulbPower == PowerOf(handState)
    }

    constructor ()
      ensures Valid()
      ensures handState == Detecting && bulbPower == Off
    {
      handState := Detecting;
      bulbPower := Off;
    }

    method OnResults(surface: Option<Surface>, multiHandLandmarks: Option<seq<seq<Landmark>>>)
      returns (overlay: Overlay)
      requires Valid()
      modifies this
      ensures Valid()
      ensures surface.None? ==> overlay == Untouched && unchanged(this)
      ensures surface.Some? && FrameReading(multiHandLandmarks).TypeError? ==>
        overlay == Aborted && unchanged(this)
      ensures surface.Some? && FrameReading(multiHandLandmarks).Ok? ==>
        Display(handState, bulbPower) == FrameReading(multiHandLandmarks).value
      ensures surface.Some? && !HandPresent(multiHandLandmarks) ==> overlay == Cleared
      ensures surface.Some? && HandPresent(multiHandLandmarks) && Complete(multiHandLandmarks.value[0]) ==>
        overlay.Drawn? && IsSketchOf(overlay.sketch, multiHandLandmarks.value[0], surface.value.width, surface.value.height)
    {
      if surface.None? {
        return Untouched;
      }
      var canvas := surface.value;
      if HandPresent(multiHandLandmarks) {
        var landmarks := multiHandLandmarks.value[0];
        var sketch := DrawHandLandmarks(landmarks, canvas.width, canvas.height);
        if sketch.TypeError? {
          return Aborted;
        }
        var openFingers := CountOpenFingers(Some(landmarks));
        var d := Reading(openFingers.value);
        handState, bulbPower := d.state, d.power;
        overlay := Drawn(sketch.value);
      } else {
        handState, bulbPower := Detecting, Off;
        overlay := Cleared;
      }
    }

    /** The webcam could not be opened: only the hand state changes. */
    method OnCameraError()
      requires Valid()
      modifies this
      ensures Valid()
      ensures handState == Error && bulbPower == old(bulbPower)
    {
      handState := Error;
    }

    /** The status line: a page state is always a known name, so the
        "Initializing..." fallback never shows. */
    function StatusLine(): (r: string)
      reads this
      ensures r != Initializing
    {
      StatusText(StateName(handState))
    }

    /** The percentage beside the bulb is its brightness in decimal. */
    function PowerLine(): (r: string)
      reads this
      ensures r == DecimalText(Brightness(bulbPower)) + "%"
    {
      PercentLabelShowsBrightness(bulbPower);
      PercentLabel(PowerName(bulbPower))
    }
  }
}
