/**
 * GyroTrackingManager: detect once, then track by the phone's rotation.
 *
 * In SCANNING every camera frame goes through the detector; a match for the
 * target label with confidence at least 0.6 locks the box. In LOCKED the
 * detector is not run: the box captured at lock time is translated by the
 * change of azimuth and pitch since the first orientation sample after the
 * lock, converted to pixels through a pixels-per-degree calibration taken from
 * the camera's field of view. The displayed box follows that projection through
 * an exponential moving average, applied at most once per 250 ms by either the
 * frame path or the sensor path. The lock ends when the projected box has left
 * the frame or when the UI asks for a reset.
 */
module GyroTracking {
  import opened Wrappers
  import opened Geometry

  // ---------------------------------------------------------------------------
  // Constants of the tracker.
  // ---------------------------------------------------------------------------

  /** TARGET_CONFIDENCE: the least detection confidence that may lock. */
  const TargetConfidence: real := 0.6
  /** GYRO_UPDATE_INTERVAL_MS: the least time between two smoothing updates. */
  const GyroUpdateIntervalMs: int := 250
  /** The confidence reported for the box while locked (it is never re-checked). */
  const LockedConfidence: real := 0.9
  /** The percentage shown next to the label while locked. */
  const LockedPercent: int := 90
  /** px/deg on both axes when the camera characteristics cannot be read. */
  const FallbackPixelsPerDegree: real := 20.0
  /** View angles assumed when the camera does not report them. */
  const DefaultFovH: real := 60.0
  const DefaultFovV: real := 45.0

  // ---------------------------------------------------------------------------
  // Values exchanged with the detector, the sensor, the camera and the UI.
  // ---------------------------------------------------------------------------

  /** OverlayView.DetectionBox as the tracker builds it. */
  datatype DetectionBox = DetectionBox(labelText: string, confidence: real, rect: Rect, topLabels: seq<(string, int)>)

  /** The size of one camera frame (the bitmap's width and height). */
  datatype Frame = Frame(width: int, height: int)

  /** Device orientation; angles in degrees. */
  datatype Orientation = Orientation(azimuth: real, pitch: real, roll: real)

  /**
   * One rotation-vector sensor event, already turned into an orientation by the
   * platform; None when that conversion failed.
   */
  datatype SensorEvent = SensorEvent(orientation: Option<Orientation>)

  /** What the camera service told about the back camera's view angles. */
  datatype FovLookup =
    | LookupFailed                                   // the lookup threw
    | NoCamera                                       // there is no camera id at all
    | Found(fovH: Option<real>, fovV: Option<real>)  // each angle may be unreported

  /** Reported view angles are positive. */
  predicate ValidLookup(lookup: FovLookup) {
    lookup.Found? ==>
      (lookup.fovH.Some? ==> lookup.fovH.value > 0.0) && (lookup.fovV.Some? ==> lookup.fovV.value > 0.0)
  }

  datatype State = Scanning | Locked

  /** ProcessResult: what one camera frame produced. */
  datatype ProcessResult =
    | ScanningResult(detections: seq<DetectionBox>)
    | SwitchedToLocked(box: DetectionBox)
    | LockedResult(box: DetectionBox)
    | ReturnedToSearching

  /** The observer calls the tracker makes on a state change. */
  datatype Notice =
    | TransitionToLocked(box: DetectionBox, width: int, height: int)
    | TransitionToSearching

  // ---------------------------------------------------------------------------
  // Pure pieces.
  // ---------------------------------------------------------------------------

  /** A detection locks exactly when it exists and reaches the confidence floor (0.6 itself locks). */
  predicate Locks(matched: Option<DetectionBox>) {
    matched.Some? && matched.value.confidence >= TargetConfidence
  }

  /** The rate limiter: an update is due once 250 ms have passed since the last one. */
  predicate UpdateDue(now: int, last: int) {
    now - last >= GyroUpdateIntervalMs
  }

  /** The box shown while locked: the locked label, confidence 0.9, that label at 90%. */
  function LockedBox(labelText: string, rect: Rect): (b: DetectionBox)
    ensures b.labelText == labelText && b.rect == rect && b.confidence == LockedConfidence
  {
    DetectionBox(labelText, LockedConfidence, rect, [(labelText, LockedPercent)])
  }

  /** The vertical view angle: the reported one, else derived from the horizontal one and the aspect ratio, else 45. */
  function VerticalFov(fovH: real, fovV: Option<real>, width: int, height: int): (v: real)
    requires fovH > 0.0 && (fovV.Some? ==> fovV.value > 0.0)
    ensures v > 0.0
    ensures fovV.Some? ==> v == fovV.value
    ensures fovV.None? && width > 0 && height > 0 ==> v * width as real == fovH * height as real
    ensures fovV.None? && !(width > 0 && height > 0) ==> v == DefaultFovV
  {
    match fovV
    case Some(v) => v
    case None =>
      if width > 0 && height > 0 then
        assert fovH * height as real > 0.0;
        PositiveRatio(fovH * height as real, width as real);
        fovH * height as real / width as real
      else
        DefaultFovV
  }

  /**
   * updateFovFromCamera's arithmetic: the new (px/deg X, px/deg Y) given the
   * frame size, the camera lookup and the current values. A failed lookup
   * falls back to 20 px/deg; no camera, or a frame of unknown size, keeps the
   * current values; otherwise each pixel count spread over its view angle gives
   * the ratio, so that ratio times angle is the frame size, and when only the
   * horizontal angle is known the pixels come out square.
   */
  function Calibrate(width: int, height: int, lookup: FovLookup, ppd: (real, real)): (r: (real, real))
    requires ValidLookup(lookup)
    ensures lookup.LookupFailed? ==> r == (FallbackPixelsPerDegree, FallbackPixelsPerDegree)
    ensures lookup.NoCamera? ==> r == ppd
    ensures lookup.Found? && !(width > 0 && height > 0) ==> r == ppd
    ensures ppd.0 > 0.0 && ppd.1 > 0.0 ==> r.0 > 0.0 && r.1 > 0.0
  {
    match lookup
    case LookupFailed => (FallbackPixelsPerDegree, FallbackPixelsPerDegree)
    case NoCamera => ppd
    case Found(h, v) =>
      var fovH := h.GetOr(DefaultFovH);
      var fovV := VerticalFov(fovH, v, width, height);
      if width > 0 && height > 0 then
        PositiveRatio(width as real, fovH);
        PositiveRatio(height as real, fovV);
        (width as real / fovH, height as real / fovV)
      else ppd
  }

  lemma PositiveRatio(a: real, b: real)
    requires a > 0.0 && b > 0.0
    ensures a / b > 0.0
  {
  }

  /**
   * For a frame of known size and a camera that answered, px/deg times the
   * view angle is the frame size on each axis: the angle spans the frame
   * exactly. When only the horizontal angle is reported the pixels come out
   * square (the same px/deg on both axes).
   */
  lemma CalibrationSpansFrame(width: int, height: int, lookup: FovLookup, ppd: (real, real))
    requires ValidLookup(lookup) && lookup.Found? && width > 0 && height > 0
    ensures var r := Calibrate(width, height, lookup, ppd);
            var fovH := lookup.fovH.GetOr(DefaultFovH);
            && r.0 > 0.0 && r.1 > 0.0
            && r.0 * fovH == width as real
            && r.1 * VerticalFov(fovH, lookup.fovV, width, height) == height as real
            && (lookup.fovV.None? ==> r.0 == r.1)
  {
  }

  /**
   * The box projected by the rotation from `initial` to `current`: the lock
   * box translated, all four edges alike, by -(change of azimuth) * px/deg X
   * and +(change of pitch) * px/deg Y. Its size never changes, and no rotation
   * means no move.
   */
  function ProjectRect(initialRect: Rect, initial: Orientation, current: Orientation, ppdX: real, ppdY: real): (r: Rect)
    ensures SameSize(r, initialRect)
    ensures current.azimuth == initial.azimuth && current.pitch == initial.pitch ==> r == initialRect
  {
    var deltaAzimuth := current.azimuth - initial.azimuth;
    var deltaPitch := current.pitch - initial.pitch;
    Translate(initialRect, -deltaAzimuth * ppdX, deltaPitch * ppdY)
  }

  /**
   * With a positive calibration, turning the phone to the right (azimuth up)
   * moves the box left and tilting it up (pitch up) moves the box down, and
   * only then; the shift is proportional to the angle.
   */
  lemma ProjectionDirection(initialRect: Rect, initial: Orientation, current: Orientation, ppdX: real, ppdY: real)
    requires ppdX > 0.0 && ppdY > 0.0
    ensures var r := ProjectRect(initialRect, initial, current, ppdX, ppdY);
      && (r.left < initialRect.left <==> current.azimuth > initial.azimuth)
      && (r.left > initialRect.left <==> current.azimuth < initial.azimuth)
      && (r.top > initialRect.top <==> current.pitch > initial.pitch)
      && (r.top < initialRect.top <==> current.pitch < initial.pitch)
      && initialRect.left - r.left == (current.azimuth - initial.azimuth) * ppdX
      && r.top - initialRect.top == (current.pitch - initial.pitch) * ppdY
  {
  }

  /** A real square root: non-negative, its square is the argument, and it is 0 at 0. */
  ghost predicate IsSquareRoot(sqrt: real -> real) {
    && sqrt(0.0) == 0.0
    && forall t :: t >= 0.0 ==> sqrt(t) >= 0.0 && sqrt(t) * sqrt(t) == t
  }

  /**
   * ensureRotationVector4: a vector of four or more components is returned as
   * it is. A shorter one is read as the vector part (x, y, z) of a unit
   * quaternion, missing components being 0, and gets the scalar part
   * w = sqrt(max(0, 1 - x^2 - y^2 - z^2)): never negative, making the
   * quaternion a unit one whenever x^2 + y^2 + z^2 <= 1, and clamped to 0
   * otherwise instead of failing. The square root is a parameter, given by
   * its defining property.
   */
  function EnsureRotationVector4(rv: seq<real>, sqrt: real -> real): (q: seq<real>)
    requires IsSquareRoot(sqrt)
    ensures |rv| >= 4 ==> q == rv
    ensures |rv| < 4 ==> |q| == 4 && q[..|rv|] == rv && q[|rv|..3] == seq(3 - |rv|, _ => 0.0)
    ensures |rv| < 4 ==> q[3] >= 0.0
    ensures |rv| < 4 && q[0] * q[0] + q[1] * q[1] + q[2] * q[2] <= 1.0 ==>
              q[0] * q[0] + q[1] * q[1] + q[2] * q[2] + q[3] * q[3] == 1.0
    ensures |rv| < 4 && q[0] * q[0] + q[1] * q[1] + q[2] * q[2] > 1.0 ==> q[3] == 0.0
  {
    if |rv| >= 4 then rv
    else
      var x := if |rv| > 0 then rv[0] else 0.0;
      var y := if |rv| > 1 then rv[1] else 0.0;
      var z := if |rv| > 2 then rv[2] else 0.0;
      var w := 1.0 - x * x - y * y - z * z;
      var root := sqrt(Max(w, 0.0));
      var q := [x, y, z, root];
      assert root * root == Max(w, 0.0);
      assert q[0] * q[0] + q[1] * q[1] + q[2] * q[2] == 1.0 - w;
      assert q[..|rv|] == rv;
      q
  }

  /**
   * computeRectFromGyro: the projection of the lock box for the latest
   * orientation, or None while no readable sample has set the reference
   * orientation or the latest sample could not be read. The box keeps the
   * lock box's size and moves left by the change of azimuth times px/deg X
   * and down by the change of pitch times px/deg Y; it is the lock box itself
   * for the sample that set the reference orientation.
   */
  function ComputeRectFromGyro(initialRect: Rect, initialOrientation: Orientation, hasInitialRotation: bool,
                               latest: Option<Orientation>, ppdX: real, ppdY: real): (r: Option<Rect>)
    ensures r.Some? <==> latest.Some? && hasInitialRotation
    ensures r.Some? ==> SameSize(r.value, initialRect)
    ensures r.Some? ==> initialRect.left - r.value.left == (latest.value.azimuth - initialOrientation.azimuth) * ppdX
    ensures r.Some? ==> r.value.top - initialRect.top == (latest.value.pitch - initialOrientation.pitch) * ppdY
    ensures r.Some? && latest.value == initialOrientation ==> r.value == initialRect
  {
    match latest
    case None => None
    case Some(current) =>
      if !hasInitialRotation then None
      else Some(ProjectRect(initialRect, initialOrientation, current, ppdX, ppdY))
  }

  /**
   * A worked case: a box locked at (100, 100, 200, 200) in a 1200 x 900 frame
   * whose camera reports a 60 degree horizontal view angle (so 20 px/deg on
   * both axes); turning the phone 5 degrees to the right projects the box to
   * (0, 100, 100, 200).
   */
  lemma TurnRightExample()
    ensures var ppd := Calibrate(1200, 900, Found(Some(60.0), None), (1.0, 1.0));
      && ppd == (20.0, 20.0)
      && ComputeRectFromGyro(Rect(100.0, 100.0, 200.0, 200.0), Orientation(0.0, 0.0, 0.0), true,
                             Some(Orientation(5.0, 0.0, 0.0)), ppd.0, ppd.1)
         == Some(Rect(0.0, 100.0, 100.0, 200.0))
  {
  }

  // ---------------------------------------------------------------------------
  // The reference orientation of a lock session.
  // ---------------------------------------------------------------------------

  /**
   * The reference orientation after one more sensor sample while locked: a
   * reference, once set, stays; otherwise a readable sample becomes it.
   */
  function NextReference(reference: Option<Orientation>, sample: Option<Orientation>): (r: Option<Orientation>)
    ensures reference.Some? ==> r == reference
    ensures reference.None? ==> r == sample
  {
    if reference.Some? then reference else sample
  }

  /** The reference orientation after a run of samples. */
  function ReferenceAfter(reference: Option<Orientation>, samples: seq<Option<Orientation>>): Option<Orientation>
    decreases |samples|
  {
    if samples == [] then reference
    else ReferenceAfter(NextReference(reference, samples[0]), samples[1..])
  }

  /** The first readable sample of a run, if any. */
  function FirstReadable(samples: seq<Option<Orientation>>): (r: Option<Orientation>)
    ensures r.Some? <==> exists i :: 0 <= i < |samples| && samples[i].Some?
    ensures r.Some? ==> exists i :: 0 <= i < |samples| && samples[i] == r && forall j :: 0 <= j < i ==> samples[j].None?
  {
    if samples == [] then None
    else if samples[0].Some? then samples[0]
    else
      var rest := FirstReadable(samples[1..]);
      assert forall i :: 1 <= i < |samples| ==> samples[i] == samples[1..][i - 1];
      if rest.Some? then
        ghost var k :| 0 <= k < |samples[1..]| && samples[1..][k] == rest && forall j :: 0 <= j < k ==> samples[1..][j].None?;
        assert samples[k + 1] == rest && forall j :: 0 <= j < k + 1 ==> samples[j].None?;
        rest
      else rest
  }

  /** Once set, the reference orientation survives every later sample. */
  lemma {:induction false} ReferenceKept(o: Orientation, samples: seq<Option<Orientation>>)
    ensures ReferenceAfter(Some(o), samples) == Some(o)
    decreases |samples|
  {
    if samples != [] {
      ReferenceKept(o, samples[1..]);
    }
  }

  /**
   * The reference orientation of a lock session is the first readable sample
   * after the lock, whatever follows it; it stays unset while no sample is
   * readable.
   */
  lemma {:induction false} ReferenceIsFirstReadable(samples: seq<Option<Orientation>>)
    ensures ReferenceAfter(None, samples) == FirstReadable(samples)
    decreases |samples|
  {
    if samples != [] {
      if samples[0].Some? {
        ReferenceKept(samples[0].value, samples[1..]);
      } else {
        ReferenceIsFirstReadable(samples[1..]);
      }
    }
  }

  // ---------------------------------------------------------------------------
  // The tracker.
  // ---------------------------------------------------------------------------

  /**
   * GyroTrackingManager's state. `currentBox` is the overlay's box slot behind
   * the getCurrentBox/setCurrentBox callbacks; `notices` records the calls of
   * onTransitionToLocked/onTransitionToSearching; `gyroAvailable` says whether
   * the device has a rotation-vector sensor.
   */
  class GyroTrackingManager {
    const gyroAvailable: bool
    var state: State
    var lockedTargetLabel: string
    var isSensorRegistered: bool
    var initialRect: Rect
    var initialOrientation: Orientation
    var hasInitialRotation: bool
    var latestOrientation: Option<Orientation>
    var imageWidth: int
    var imageHeight: int
    var pixelsPerDegreeX: real
    var pixelsPerDegreeY: real
    var lastGyroUpdateTimeMillis: int
    var smoothedRect: Rect
    var currentBox: Option<DetectionBox>
    var notices: seq<Notice>

    /**
     * The tracker's invariant: the sensor is subscribed exactly while locked
     * (when there is a sensor); a scanning tracker has no label; the
     * calibration is positive; and the smoothed box and the displayed box keep
     * the size of the box captured at lock time, the displayed one carrying
     * the locked label.
     */
    ghost predicate Valid()
      reads this
    {
      SubscriptionValid() && LabelValid() && CalibrationValid() && SizeValid() && DisplayValid()
    }

    ghost predicate SubscriptionValid()
      reads this`isSensorRegistered, this`state
    {
      isSensorRegistered <==> state == Locked && gyroAvailable
    }

    ghost predicate LabelValid()
      reads this`state, this`lockedTargetLabel
    {
      state == Scanning ==> lockedTargetLabel == ""
    }

    ghost predicate CalibrationValid()
      reads this`pixelsPerDegreeX, this`pixelsPerDegreeY
    {
      pixelsPerDegreeX > 0.0 && pixelsPerDegreeY > 0.0
    }

    ghost predicate SizeValid()
      reads this`smoothedRect, this`initialRect
    {
      SameSize(smoothedRect, initialRect)
    }

    ghost predicate DisplayValid()
      reads this`currentBox, this`lockedTargetLabel, this`initialRect
    {
      currentBox.Some? ==> currentBox.value.labelText == lockedTargetLabel && SameSize(currentBox.value.rect, initialRect)
    }

    /** The reference orientation of the lock session, if set. */
    function Reference(): Option<Orientation>
      reads this`hasInitialRotation, this`initialOrientation
    {
      if hasInitialRotation then Some(initialOrientation) else None
    }

    /** The tracker starts scanning, with px/deg from the camera (1 while the frame size is unknown, 20 if the lookup fails). */
    constructor (gyroAvailable: bool, lookup: FovLookup)
      requires ValidLookup(lookup)
      ensures Valid()
      ensures this.gyroAvailable == gyroAvailable
      ensures state == Scanning && lockedTargetLabel == "" && !isSensorRegistered && currentBox == None && notices == []
      ensures initialRect == Rect(0.0, 0.0, 0.0, 0.0) && Reference() == None && latestOrientation == None
      ensures smoothedRect == Rect(0.0, 0.0, 0.0, 0.0) && lastGyroUpdateTimeMillis == 0
      ensures imageWidth == 0 && imageHeight == 0
      ensures (pixelsPerDegreeX, pixelsPerDegreeY) == Calibrate(0, 0, lookup, (1.0, 1.0))
    {
      this.gyroAvailable := gyroAvailable;
      state := Scanning;
      lockedTargetLabel := "";
      isSensorRegistered := false;
      initialRect := Rect(0.0, 0.0, 0.0, 0.0);
      initialOrientation := Orientation(0.0, 0.0, 0.0);
      hasInitialRotation := false;
      latestOrientation := None;
      imageWidth, imageHeight := 0, 0;
      lastGyroUpdateTimeMillis := 0;
      smoothedRect := Rect(0.0, 0.0, 0.0, 0.0);
      currentBox := None;
      notices := [];
      var ppd := Calibrate(0, 0, lookup, (1.0, 1.0));
      pixelsPerDegreeX, pixelsPerDegreeY := ppd.0, ppd.1;
    }

    /** updateFovFromCamera for the frame size the tracker holds. */
    method UpdateFovFromCamera(lookup: FovLookup)
      requires ValidLookup(lookup)
      modifies this`pixelsPerDegreeX, this`pixelsPerDegreeY
      ensures (pixelsPerDegreeX, pixelsPerDegreeY) == Calibrate(imageWidth, imageHeight, lookup, old((pixelsPerDegreeX, pixelsPerDegreeY)))
    {
      var ppd := Calibrate(imageWidth, imageHeight, lookup, (pixelsPerDegreeX, pixelsPerDegreeY));
      pixelsPerDegreeX, pixelsPerDegreeY := ppd.0, ppd.1;
    }

    /** computeRectFromGyro on the tracker's fields. */
    function Projection(): Option<Rect>
      reads this
    {
      ComputeRectFromGyro(initialRect, initialOrientation, hasInitialRotation, latestOrientation, pixelsPerDegreeX, pixelsPerDegreeY)
    }

    /** One smoothing step of the smoothed box towards `target`, one edge after the other. */
    method SmoothTowards(target: Rect)
      modifies this`smoothedRect
      ensures smoothedRect == Smooth(old(smoothedRect), target)
    {
      smoothedRect := smoothedRect.(left := smoothedRect.left + (target.left - smoothedRect.left) * SmoothFactor);
      smoothedRect := smoothedRect.(top := smoothedRect.top + (target.top - smoothedRect.top) * SmoothFactor);
      smoothedRect := smoothedRect.(right := smoothedRect.right + (target.right - smoothedRect.right) * SmoothFactor);
      smoothedRect := smoothedRect.(bottom := smoothedRect.bottom + (target.bottom - smoothedRect.bottom) * SmoothFactor);
    }

    /** One smoothing update: the smoothed box steps towards `target` and becomes the displayed box. */
    method Follow(target: Rect)
      modifies this`smoothedRect, this`currentBox
      ensures smoothedRect == Smooth(old(smoothedRect), target)
      ensures currentBox == Some(LockedBox(lockedTargetLabel, smoothedRect))
    {
      SmoothTowards(target);
      currentBox := Some(LockedBox(lockedTargetLabel, smoothedRect));
    }

    /** registerSensor: subscribe to the rotation sensor, if there is one and it is not subscribed yet. */
    method RegisterSensor()
      modifies this`isSensorRegistered
      ensures isSensorRegistered == (old(isSensorRegistered) || gyroAvailable)
    {
      if gyroAvailable && !isSensorRegistered {
        isSensorRegistered := true;
      }
    }

    /** unregisterSensor: drop the subscription; calling it twice is harmless. */
    method UnregisterSensor()
      modifies this`isSensorRegistered
      ensures !isSensorRegistered
    {
      if isSensorRegistered {
        isSensorRegistered := false;
      }
    }

    /**
     * resetToSearching (also the UI's explicit reset): back to SCANNING, the
     * sensor released, the label and the displayed box cleared, observers told.
     * The lock session, the calibration and the smoothing state stay as they are.
     */
    method ResetToSearching()
      requires Valid()
      modifies this`state, this`lockedTargetLabel, this`isSensorRegistered, this`currentBox, this`notices
      ensures Valid()
      ensures state == Scanning && lockedTargetLabel == "" && !isSensorRegistered && currentBox == None
      ensures notices == old(notices) + [TransitionToSearching]
    {
      UnregisterSensor();
      state := Scanning;
      lockedTargetLabel := "";
      currentBox := None;
      notices := notices + [TransitionToSearching];
    }

    /** The first lines of both frame paths: the frame's size, and the calibration redone for it. */
    method TakeFrame(frame: Frame, lookup: FovLookup)
      requires ValidLookup(lookup)
      modifies this`imageWidth, this`imageHeight, this`pixelsPerDegreeX, this`pixelsPerDegreeY
      ensures imageWidth == frame.width && imageHeight == frame.height
      ensures (pixelsPerDegreeX, pixelsPerDegreeY) == Calibrate(frame.width, frame.height, lookup, old((pixelsPerDegreeX, pixelsPerDegreeY)))
    {
      imageWidth := frame.width;
      imageHeight := frame.height;
      UpdateFovFromCamera(lookup);
    }

    /** A new lock session on `rect`: lock box and smoothed box both `rect`, no samples yet. */
    method BeginSession(rect: Rect)
      modifies this`initialRect, this`hasInitialRotation, this`latestOrientation, this`smoothedRect
      ensures initialRect == rect && smoothedRect == rect
      ensures !hasInitialRotation && latestOrientation == None
    {
      initialRect := rect;
      hasInitialRotation := false;
      latestOrientation := None;
      smoothedRect := rect;
    }

    /** LOCKED on the match: its label kept, the match displayed and announced with the frame size. */
    method EnterLocked(m: DetectionBox)
      modifies this`state, this`lockedTargetLabel, this`currentBox, this`notices
      ensures state == Locked && lockedTargetLabel == m.labelText && currentBox == Some(m)
      ensures notices == old(notices) + [TransitionToLocked(m, imageWidth, imageHeight)]
    {
      state := Locked;
      lockedTargetLabel := m.labelText;
      currentBox := Some(m);
      notices := notices + [TransitionToLocked(m, imageWidth, imageHeight)];
    }

    /** getCurrentBox(), or else the lock box installed as the displayed box. */
    method HeldBox() returns (box: DetectionBox)
      modifies this`currentBox
      ensures box == old(currentBox).GetOr(LockedBox(lockedTargetLabel, initialRect))
      ensures currentBox == Some(box)
    {
      if currentBox.None? {
        currentBox := Some(LockedBox(lockedTargetLabel, initialRect));
      }
      return currentBox.value;
    }

    /** The first lines of onSensorChanged: the sample becomes the latest one, and the reference if there is none yet. */
    method Observe(event: SensorEvent)
      modifies this`latestOrientation, this`initialOrientation, this`hasInitialRotation
      ensures latestOrientation == event.orientation
      ensures Reference() == NextReference(old(Reference()), event.orientation)
    {
      latestOrientation := event.orientation;
      if !hasInitialRotation {
        match event.orientation {
          case Some(o) =>
            initialOrientation := o;
            hasInitialRotation := true;
          case None =>
        }
      }
    }

    /**
     * processFrameSearching: `detections` is the detector's output for the
     * frame and `matched` what the target matcher picked from it. A match with
     * confidence at least 0.6 starts a lock session: both the lock box and the
     * smoothed box become the match's box, the reference orientation is to be
     * taken from the next readable sensor sample (so nothing is projected
     * yet), the calibration is redone for this frame's size, the match is
     * displayed and announced, and the sensor is subscribed. Anything else
     * leaves every field as it was.
     */
    method ProcessFrameSearching(frame: Frame, detections: seq<DetectionBox>, matched: Option<DetectionBox>, lookup: FovLookup)
      returns (res: ProcessResult)
      requires Valid() && ValidLookup(lookup)
      modifies this`imageWidth, this`imageHeight, this`pixelsPerDegreeX, this`pixelsPerDegreeY
      modifies this`initialRect, this`hasInitialRotation, this`latestOrientation, this`smoothedRect
      modifies this`state, this`lockedTargetLabel, this`isSensorRegistered, this`currentBox, this`notices
      ensures Valid()
      ensures res.SwitchedToLocked? <==> Locks(matched)
      ensures !Locks(matched) ==> res == ScanningResult(detections) && unchanged(this)
      ensures Locks(matched) ==>
        && res == SwitchedToLocked(matched.value)
        && state == Locked && lockedTargetLabel == matched.value.labelText
        && isSensorRegistered == gyroAvailable
        && currentBox == Some(matched.value)
        && notices == old(notices) + [TransitionToLocked(matched.value, frame.width, frame.height)]
        && initialRect == matched.value.rect && smoothedRect == matched.value.rect
        && Reference() == None && latestOrientation == None && Projection() == None
        && imageWidth == frame.width && imageHeight == frame.height
        && (pixelsPerDegreeX, pixelsPerDegreeY) == Calibrate(frame.width, frame.height, lookup, old((pixelsPerDegreeX, pixelsPerDegreeY)))
    {
      if matched.Some? && matched.value.confidence >= TargetConfidence {
        var m := matched.value;
        TakeFrame(frame, lookup);
        BeginSession(m.rect);
        EnterLocked(m);
        RegisterSensor();
        return SwitchedToLocked(m);
      }
      return ScanningResult(detections);
    }

    /**
     * processFrameLocked: the frame only refreshes the frame size and the
     * calibration; the rest is TrackFrame, judged by the projection `target`
     * under the refreshed calibration.
     */
    method ProcessFrameLocked(frame: Frame, lookup: FovLookup, now: int) returns (res: ProcessResult, ghost target: Option<Rect>)
      requires Valid() && ValidLookup(lookup)
      modifies this`imageWidth, this`imageHeight, this`pixelsPerDegreeX, this`pixelsPerDegreeY
      modifies this`smoothedRect, this`lastGyroUpdateTimeMillis
      modifies this`state, this`lockedTargetLabel, this`isSensorRegistered, this`currentBox, this`notices
      ensures imageWidth == frame.width && imageHeight == frame.height
      ensures (pixelsPerDegreeX, pixelsPerDegreeY) == Calibrate(frame.width, frame.height, lookup, old((pixelsPerDegreeX, pixelsPerDegreeY)))
      ensures target == ComputeRectFromGyro(initialRect, initialOrientation, hasInitialRotation, latestOrientation, pixelsPerDegreeX, pixelsPerDegreeY)
      ensures Valid()
      ensures target.None? ==>
        && res == LockedResult(old(currentBox).GetOr(LockedBox(old(lockedTargetLabel), initialRect)))
        && currentBox == Some(res.box)
        && smoothedRect == old(smoothedRect) && lastGyroUpdateTimeMillis == old(lastGyroUpdateTimeMillis)
        && state == old(state) && lockedTargetLabel == old(lockedTargetLabel) && notices == old(notices)
      ensures target.Some? && IsRectCompletelyOutside(target.value, imageWidth, imageHeight) ==>
        && res == ReturnedToSearching
        && state == Scanning && lockedTargetLabel == "" && !isSensorRegistered && currentBox == None
        && notices == old(notices) + [TransitionToSearching]
        && smoothedRect == old(smoothedRect) && lastGyroUpdateTimeMillis == old(lastGyroUpdateTimeMillis)
      ensures target.Some? && !IsRectCompletelyOutside(target.value, imageWidth, imageHeight) ==>
        && state == old(state) && lockedTargetLabel == old(lockedTargetLabel) && notices == old(notices)
        && if UpdateDue(now, old(lastGyroUpdateTimeMillis)) then
             && lastGyroUpdateTimeMillis == now
             && smoothedRect == Smooth(old(smoothedRect), target.value)
             && currentBox == Some(LockedBox(lockedTargetLabel, smoothedRect))
             && res == LockedResult(LockedBox(lockedTargetLabel, smoothedRect))
           else
             && lastGyroUpdateTimeMillis == old(lastGyroUpdateTimeMillis) && smoothedRect == old(smoothedRect)
             && currentBox == old(currentBox)
             && res == LockedResult(currentBox.GetOr(LockedBox(lockedTargetLabel, smoothedRect)))
    {
      TakeFrame(frame, lookup);
      res, target := TrackFrame(now);
    }

    /**
     * The locked-state part of processFrameLocked, after the frame refresh;
     * `target` is the projection it is judged by. With no projection yet the
     * displayed box is reported (the lock box is installed when there is
     * none). A projection that has left the frame ends the lock. Otherwise,
     * when 250 ms have passed since the last update, the timestamp becomes
     * `now` and the smoothed box takes one step towards the projection and is
     * displayed; inside the window nothing moves and the displayed box is
     * reported.
     */
    method TrackFrame(now: int) returns (res: ProcessResult, ghost target: Option<Rect>)
      requires Valid()
      modifies this`smoothedRect, this`lastGyroUpdateTimeMillis
      modifies this`state, this`lockedTargetLabel, this`isSensorRegistered, this`currentBox, this`notices
      ensures target == old(ComputeRectFromGyro(initialRect, initialOrientation, hasInitialRotation, latestOrientation, pixelsPerDegreeX, pixelsPerDegreeY))
      ensures Valid()
      ensures target.None? ==>
        && res == LockedResult(old(currentBox).GetOr(LockedBox(old(lockedTargetLabel), initialRect)))
        && currentBox == Some(res.box)
        && smoothedRect == old(smoothedRect) && lastGyroUpdateTimeMillis == old(lastGyroUpdateTimeMillis)
        && state == old(state) && lockedTargetLabel == old(lockedTargetLabel) && notices == old(notices)
      ensures target.Some? && IsRectCompletelyOutside(target.value, imageWidth, imageHeight) ==>
        && res == ReturnedToSearching
        && state == Scanning && lockedTargetLabel == "" && !isSensorRegistered && currentBox == None
        && notices == old(notices) + [TransitionToSearching]
        && smoothedRect == old(smoothedRect) && lastGyroUpdateTimeMillis == old(lastGyroUpdateTimeMillis)
      ensures target.Some? && !IsRectCompletelyOutside(target.value, imageWidth, imageHeight) ==>
        && state == old(state) && lockedTargetLabel == old(lockedTargetLabel) && notices == old(notices)
        && if UpdateDue(now, old(lastGyroUpdateTimeMillis)) then
             && lastGyroUpdateTimeMillis == now
             && smoothedRect == Smooth(old(smoothedRect), target.value)
             && currentBox == Some(LockedBox(lockedTargetLabel, smoothedRect))
             && res == LockedResult(LockedBox(lockedTargetLabel, smoothedRect))
           else
             && lastGyroUpdateTimeMillis == old(lastGyroUpdateTimeMillis) && smoothedRect == old(smoothedRect)
             && currentBox == old(currentBox)
             && res == LockedResult(currentBox.GetOr(LockedBox(lockedTargetLabel, smoothedRect)))
    {
      var currentRect := Projection();
      target := currentRect;
      if currentRect.None? {
        var held := HeldBox();
        return LockedResult(held), target;
      }

      if IsRectCompletelyOutside(currentRect.value, imageWidth, imageHeight) {
        ResetToSearching();
        return ReturnedToSearching, target;
      }

      res := FollowIfDue(currentRect.value, now);
    }

    /**
     * The rate-limited tail of processFrameLocked: when 250 ms have passed
     * since the last update, the timestamp becomes `now` and the smoothed box
     * steps towards `target` and is displayed; the displayed box (or else the
     * smoothed box) is reported.
     */
    method FollowIfDue(target: Rect, now: int) returns (res: ProcessResult)
      requires Valid() && SameSize(target, initialRect)
      modifies this`smoothedRect, this`lastGyroUpdateTimeMillis, this`currentBox
      ensures Valid()
      ensures if UpdateDue(now, old(lastGyroUpdateTimeMillis)) then
          && lastGyroUpdateTimeMillis == now
          && smoothedRect == Smooth(old(smoothedRect), target)
          && currentBox == Some(LockedBox(lockedTargetLabel, smoothedRect))
          && res == LockedResult(LockedBox(lockedTargetLabel, smoothedRect))
        else
          && lastGyroUpdateTimeMillis == old(lastGyroUpdateTimeMillis) && smoothedRect == old(smoothedRect)
          && currentBox == old(currentBox)
          && res == LockedResult(currentBox.GetOr(LockedBox(lockedTargetLabel, smoothedRect)))
    {
      var shouldUpdate := now - lastGyroUpdateTimeMillis >= GyroUpdateIntervalMs;
      if shouldUpdate {
        lastGyroUpdateTimeMillis := now;
        Follow(target);
      }
      return LockedResult(currentBox.GetOr(LockedBox(lockedTargetLabel, smoothedRect)));
    }

    /**
     * onSensorChanged: ignored unless locked. The event becomes the latest
     * sample, and the reference orientation if there is none yet and it is
     * readable. Inside the 250 ms window nothing else happens. Otherwise the
     * timestamp becomes `now` first, and then the projection `target` (None
     * when the event was not judged at all) decides: nothing more without a
     * projection, the end of the lock when it has left the frame, or else one
     * smoothing step towards it, displayed.
     */
    method OnSensorChanged(event: Option<SensorEvent>, now: int) returns (ghost target: Option<Rect>)
      requires Valid()
      modifies this`latestOrientation, this`initialOrientation, this`hasInitialRotation
      modifies this`smoothedRect, this`lastGyroUpdateTimeMillis
      modifies this`state, this`lockedTargetLabel, this`isSensorRegistered, this`currentBox, this`notices
      ensures Valid()
      ensures event.None? || old(state) != Locked ==> unchanged(this) && target == None
      ensures event.Some? && old(state) == Locked ==>
        && latestOrientation == event.value.orientation
        && Reference() == NextReference(old(Reference()), event.value.orientation)
      ensures !UpdateDue(now, old(lastGyroUpdateTimeMillis)) ==>
        && lastGyroUpdateTimeMillis == old(lastGyroUpdateTimeMillis) && smoothedRect == old(smoothedRect)
        && state == old(state) && lockedTargetLabel == old(lockedTargetLabel)
        && currentBox == old(currentBox) && notices == old(notices) && target == None
      ensures event.Some? && old(state) == Locked && UpdateDue(now, old(lastGyroUpdateTimeMillis)) ==>
        && lastGyroUpdateTimeMillis == now
        && target == ComputeRectFromGyro(initialRect, initialOrientation, hasInitialRotation, latestOrientation, pixelsPerDegreeX, pixelsPerDegreeY)
      ensures event.Some? && old(state) == Locked && UpdateDue(now, old(lastGyroUpdateTimeMillis)) && target.None? ==>
        && smoothedRect == old(smoothedRect) && state == Locked && lockedTargetLabel == old(lockedTargetLabel)
        && currentBox == old(currentBox) && notices == old(notices)
      ensures event.Some? && old(state) == Locked && UpdateDue(now, old(lastGyroUpdateTimeMillis)) && target.Some?
              && IsRectCompletelyOutside(target.value, imageWidth, imageHeight) ==>
        && smoothedRect == old(smoothedRect) && state == Scanning && currentBox == None
        && notices == old(notices) + [TransitionToSearching]
      ensures event.Some? && old(state) == Locked && UpdateDue(now, old(lastGyroUpdateTimeMillis)) && target.Some?
              && !IsRectCompletelyOutside(target.value, imageWidth, imageHeight) ==>
        && smoothedRect == Smooth(old(smoothedRect), target.value) && state == Locked
        && lockedTargetLabel == old(lockedTargetLabel)
        && currentBox == Some(LockedBox(lockedTargetLabel, smoothedRect)) && notices == old(notices)
    {
      target := None;
      if event.None? || state != Locked {
        return;
      }
      Observe(event.value);
      if now - lastGyroUpdateTimeMillis < GyroUpdateIntervalMs {
        return;
      }
      lastGyroUpdateTimeMillis := now;
      target := TrackSample();
    }

    /** The rest of onSensorChanged once an update is due: judge the projection `target`. */
    method TrackSample() returns (ghost target: Option<Rect>)
      requires Valid() && state == Locked
      modifies this`smoothedRect, this`state, this`lockedTargetLabel, this`isSensorRegistered, this`currentBox, this`notices
      ensures Valid()
      ensures target == old(ComputeRectFromGyro(initialRect, initialOrientation, hasInitialRotation, latestOrientation, pixelsPerDegreeX, pixelsPerDegreeY))
      ensures target.None? ==>
        && smoothedRect == old(smoothedRect) && state == Locked && lockedTargetLabel == old(lockedTargetLabel)
        && currentBox == old(currentBox) && notices == old(notices)
      ensures target.Some? && IsRectCompletelyOutside(target.value, imageWidth, imageHeight) ==>
        && smoothedRect == old(smoothedRect) && state == Scanning && currentBox == None
        && notices == old(notices) + [TransitionToSearching]
      ensures target.Some? && !IsRectCompletelyOutside(target.value, imageWidth, imageHeight) ==>
        && smoothedRect == Smooth(old(smoothedRect), target.value) && state == Locked
        && lockedTargetLabel == old(lockedTargetLabel)
        && currentBox == Some(LockedBox(lockedTargetLabel, smoothedRect)) && notices == old(notices)
    {
      var targetRect := Projection();
      target := targetRect;
      if targetRect.None? {
        return;
      }
      if IsRectCompletelyOutside(targetRect.value, imageWidth, imageHeight) {
        ResetToSearching();
        return;
      }
      Follow(targetRect.value);
    }
  }
}
