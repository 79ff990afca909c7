/**
 * The rectangle arithmetic of the gyro tracker: an axis-aligned box in image
 * pixels (android.graphics.RectF with real-valued edges), its pure translation
 * by an angle-derived pixel shift, the per-edge exponential smoothing step and
 * the "box has left the frame" test.
 */
module Geometry {

  /** An axis-aligned rectangle in image coordinates; y grows downwards. */
  datatype Rect = Rect(left: real, top: real, right: real, bottom: real)
  {
    function Width(): real { right - left }
    function Height(): real { bottom - top }
  }

  predicate SameSize(a: Rect, b: Rect) {
    a.Width() == b.Width() && a.Height() == b.Height()
  }

  /** Edge-wise displacement from `b` to `a`. */
  function Diff(a: Rect, b: Rect): Rect {
    Rect(a.left - b.left, a.top - b.top, a.right - b.right, a.bottom - b.bottom)
  }

  /** Every edge of a displacement multiplied by `k`. */
  function Scale(k: real, d: Rect): Rect {
    Rect(k * d.left, k * d.top, k * d.right, k * d.bottom)
  }

  function Abs(x: real): real { if x < 0.0 then -x else x }

  function Max(a: real, b: real): real { if a < b then b else a }

  function Min(a: real, b: real): real { if a < b then a else b }

  // ---------------------------------------------------------------------------
  // Projection: the locked box moves as a whole.
  // ---------------------------------------------------------------------------

  /** `r` shifted by `dx` horizontally and `dy` vertically, all four edges alike. */
  function Translate(r: Rect, dx: real, dy: real): (t: Rect)
    ensures SameSize(t, r)
    ensures Diff(t, r) == Rect(dx, dy, dx, dy)
    ensures dx == 0.0 && dy == 0.0 ==> t == r
  {
    Rect(r.left + dx, r.top + dy, r.right + dx, r.bottom + dy)
  }

  // ---------------------------------------------------------------------------
  // Exponential smoothing with factor 0.2.
  // ---------------------------------------------------------------------------

  /** GYRO_SMOOTH_FACTOR: each update moves 20% of the way to the target. */
  const SmoothFactor: real := 0.2

  /** One smoothing step of one edge. */
  function SmoothEdge(smoothed: real, target: real): real {
    smoothed + (target - smoothed) * SmoothFactor
  }

  /**
   * One smoothing step of the whole box, edge by edge. The remaining distance
   * to the target shrinks to exactly 80% on every edge, so the target is a fixed
   * point, the new edge lies between the old edge and the target, and a box of
   * the target's size keeps that size.
   */
  function Smooth(smoothed: Rect, target: Rect): (r: Rect)
    ensures Diff(target, r) == Scale(1.0 - SmoothFactor, Diff(target, smoothed))
    ensures smoothed == target ==> r == smoothed
    ensures SameSize(smoothed, target) ==> SameSize(r, target)
    ensures Min(smoothed.left, target.left) <= r.left <= Max(smoothed.left, target.left)
    ensures Min(smoothed.top, target.top) <= r.top <= Max(smoothed.top, target.top)
    ensures Min(smoothed.right, target.right) <= r.right <= Max(smoothed.right, target.right)
    ensures Min(smoothed.bottom, target.bottom) <= r.bottom <= Max(smoothed.bottom, target.bottom)
  {
    Rect(SmoothEdge(smoothed.left, target.left), SmoothEdge(smoothed.top, target.top),
         SmoothEdge(smoothed.right, target.right), SmoothEdge(smoothed.bottom, target.bottom))
  }

  /** `n` smoothing steps towards a target that stays put. */
  function SmoothSteps(smoothed: Rect, target: Rect, n: nat): Rect {
    if n == 0 then smoothed else Smooth(SmoothSteps(smoothed, target, n - 1), target)
  }

  function Pow(b: real, n: nat): real {
    if n == 0 then 1.0 else b * Pow(b, n - 1)
  }

  /** Scaling twice is scaling once by the product. */
  lemma ScaleScale(a: real, b: real, d: Rect)
    ensures Scale(a, Scale(b, d)) == Scale(a * b, d)
  {
  }

  /** After `n` steps towards a fixed target the residual is exactly 0.8^n times the initial one. */
  lemma {:induction false} SmoothStepsResidual(smoothed: Rect, target: Rect, n: nat)
    ensures Diff(target, SmoothSteps(smoothed, target, n)) == Scale(Pow(1.0 - SmoothFactor, n), Diff(target, smoothed))
  {
    if n == 0 {
      var d := Diff(target, smoothed);
      assert Scale(1.0, d) == d;
    } else {
      var prev := SmoothSteps(smoothed, target, n - 1);
      SmoothStepsResidual(smoothed, target, n - 1);
      ScaleScale(1.0 - SmoothFactor, Pow(1.0 - SmoothFactor, n - 1), Diff(target, smoothed));
      assert Diff(target, Smooth(prev, target)) == Scale(1.0 - SmoothFactor, Diff(target, prev));
    }
  }

  /** 0.8^10, the share of the initial distance left after ten updates. */
  lemma PowTen()
    ensures Pow(0.8, 10) == 0.1073741824
  {
  }

  lemma ScaledAbs(k: real, x: real, bound: real)
    requires 0.0 <= k <= bound
    ensures Abs(k * x) <= bound * Abs(x)
  {
  }

  /** Ten updates towards a fixed target leave at most 11% of each edge's initial distance. */
  lemma TenStepsWithinElevenPercent(smoothed: Rect, target: Rect)
    ensures var d0 := Diff(target, smoothed);
            var d10 := Diff(target, SmoothSteps(smoothed, target, 10));
            Abs(d10.left) <= 0.11 * Abs(d0.left) && Abs(d10.top) <= 0.11 * Abs(d0.top) &&
            Abs(d10.right) <= 0.11 * Abs(d0.right) && Abs(d10.bottom) <= 0.11 * Abs(d0.bottom)
  {
    SmoothStepsResidual(smoothed, target, 10);
    PowTen();
    var k := Pow(1.0 - SmoothFactor, 10);
    var d0 := Diff(target, smoothed);
    ScaledAbs(k, d0.left, 0.11);
    ScaledAbs(k, d0.top, 0.11);
    ScaledAbs(k, d0.right, 0.11);
    ScaledAbs(k, d0.bottom, 0.11);
  }

  // ---------------------------------------------------------------------------
  // Leaving the frame.
  // ---------------------------------------------------------------------------

  /**
   * isRectCompletelyOutside: the box lies strictly beyond one edge of the frame
   * [0, w] x [0, h]. A frame of unknown (non-positive) size never reports an exit.
   */
  predicate IsRectCompletelyOutside(r: Rect, w: int, h: int)
  {
    if w <= 0 || h <= 0 then false
    else r.right < 0.0 || r.left > w as real || r.bottom < 0.0 || r.top > h as real
  }

  /** The closed intervals [a0, a1] and [b0, b1] share at least one point. */
  predicate IntervalsMeet(a0: real, a1: real, b0: real, b1: real) {
    Max(a0, b0) <= Min(a1, b1)
  }

  /** The closed box and the closed frame [0, w] x [0, h] share at least one point. */
  predicate OverlapsFrame(r: Rect, w: int, h: int) {
    IntervalsMeet(r.left, r.right, 0.0, w as real) && IntervalsMeet(r.top, r.bottom, 0.0, h as real)
  }

  /**
   * For a well-formed box and a frame of known size, the exit test holds exactly
   * when the box and the frame have no point in common; in particular a box that
   * only touches a frame edge still counts as inside.
   */
  lemma OutsideIffNoOverlap(r: Rect, w: int, h: int)
    requires w > 0 && h > 0
    requires r.left <= r.right && r.top <= r.bottom
    ensures IsRectCompletelyOutside(r, w, h) <==> !OverlapsFrame(r, w, h)
  {
  }

  /** A frame of unknown size never ends a lock, wherever the box is. */
  lemma UnknownFrameNeverExits(r: Rect, w: int, h: int)
    requires w <= 0 || h <= 0
    ensures !IsRectCompletelyOutside(r, w, h)
  {
  }

  /** Touching the frame from outside along one edge is not an exit. */
  lemma EdgeContactIsInside(r: Rect, w: int, h: int)
    requires w > 0 && h > 0
    requires r.left <= r.right
    requires 0.0 <= r.top <= h as real && 0.0 <= r.bottom <= h as real
    requires r.right == 0.0 || r.left == w as real
    ensures !IsRectCompletelyOutside(r, w, h)
  {
  }
}
