/**
 * Pure geometry of one hand observation: the pinch test, the camera-to-slide
 * pointer map and the clamp that keeps the spotlight on the slide.
 * Shared verbatim by main.py and main2.py.
 */
module Gestures {

  /** A pixel position; the detector reports integer coordinates. */
  datatype Point = Point(x: int, y: int)

  /** What the hand detector yields for the one tracked hand of a frame. */
  datatype Hand = Hand(landmarks: seq<Point>, fingers: seq<int>, center: Point)

  const LandmarkCount := 21
  const ThumbTip := 4
  const IndexTip := 8
  const MiddleTip := 12
  const RingTip := 16

  /** The detector always reports 21 landmarks; the core indexes up to 16. */
  predicate Detected(h: Hand) {
    |h.landmarks| == LandmarkCount
  }

  /** Finger-up vectors (thumb, index, middle, ring, pinky) the loop compares against. */
  const PointerPose: seq<int> := [0, 1, 1, 0, 0]
  const DrawPose: seq<int> := [0, 1, 0, 0, 0]
  const ErasePose: seq<int> := [0, 1, 1, 1, 0]

  // Camera frame and slide dimensions.
  const CameraWidth := 1280
  const CameraHeight := 720
  const SlideWidth := 960
  const SlideHeight := 540
  /** Rows of the camera frame cut off at the top and bottom of the pointer's range. */
  const PointerMargin := 150

  const PinchThreshold := 40

  function SquaredDistance(p: Point, q: Point): (d: int)
    ensures d >= 0
    ensures d == 0 <==> p == q
  {
    (p.x - q.x) * (p.x - q.x) + (p.y - q.y) * (p.y - q.y)
  }

  /** `pinch(lmList, id1, id2)`: fingertips closer than 40 pixels, compared on squares. */
  predicate Pinch(landmarks: seq<Point>, id1: nat, id2: nat)
    requires id1 < |landmarks| && id2 < |landmarks|
    ensures Pinch(landmarks, id1, id2) ==>
      -PinchThreshold < landmarks[id1].x - landmarks[id2].x < PinchThreshold &&
      -PinchThreshold < landmarks[id1].y - landmarks[id2].y < PinchThreshold
    ensures (-28 <= landmarks[id1].x - landmarks[id2].x <= 28 &&
             -28 <= landmarks[id1].y - landmarks[id2].y <= 28) ==> Pinch(landmarks, id1, id2)
  {
    var dx, dy := landmarks[id1].x - landmarks[id2].x, landmarks[id1].y - landmarks[id2].y;
    SquareBelow(dx, PinchThreshold);
    SquareBelow(dy, PinchThreshold);
    SquareAtMost(dx, 28);
    SquareAtMost(dy, 28);
    SquaredDistance(landmarks[id1], landmarks[id2]) < PinchThreshold * PinchThreshold
  }

  /** A square below t * t has its root strictly between -t and t. */
  lemma SquareBelow(d: int, t: int)
    requires t >= 0
    ensures d * d < t * t ==> -t < d < t
  {
    if d >= t {
      assert d * d >= t * d >= t * t;
    } else if d <= -t {
      assert d * d >= -t * d >= t * t;
    }
  }

  /** Within [-t, t] the square is at most t * t. */
  lemma SquareAtMost(d: int, t: int)
    requires t >= 0
    ensures -t <= d <= t ==> d * d <= t * t
  {
    if 0 <= d <= t {
      assert d * d <= t * d <= t * t;
    } else if -t <= d < 0 {
      assert d * d <= -t * d <= t * t;
    }
  }

  /** The squared comparison agrees with the Euclidean one: for the true distance `dist`, a pinch is exactly `dist < 40`. */
  lemma PinchIsDistanceBelowThreshold(landmarks: seq<Point>, id1: nat, id2: nat, dist: real)
    requires id1 < |landmarks| && id2 < |landmarks|
    requires 0.0 <= dist && dist * dist == SquaredDistance(landmarks[id1], landmarks[id2]) as real
    ensures Pinch(landmarks, id1, id2) <==> dist < PinchThreshold as real
  {
    var d := SquaredDistance(landmarks[id1], landmarks[id2]);
    if dist < 40.0 {
      assert dist * dist < 40.0 * 40.0 by {
        assert dist * dist <= dist * 40.0;
      }
      assert d < 1600;
    } else {
      assert dist * dist >= 40.0 * dist >= 1600.0;
      assert d >= 1600;
    }
  }

  /**
   * `int(np.interp(v, [lo, hi], [outLo, outHi]))` on integers: clamped to the
   * end points outside [lo, hi], and inside it the floor of the linear
   * interpolation (`int()` truncates, and the value is never negative here).
   */
  function Interp(v: int, lo: int, hi: int, outLo: int, outHi: int): (r: int)
    requires lo < hi && 0 <= outLo <= outHi
    ensures outLo <= r <= outHi
    ensures v <= lo ==> r == outLo
    ensures v >= hi ==> r == outHi
    ensures lo < v < hi ==>
      (r - outLo) * (hi - lo) <= (v - lo) * (outHi - outLo) < (r - outLo + 1) * (hi - lo)
  {
    if v <= lo then outLo
    else if v >= hi then outHi
    else
      var q := (v - lo) * (outHi - outLo) / (hi - lo);
      DivBelow(v - lo, outHi - outLo, hi - lo);
      outLo + q
  }

  /** Helper for Interp: a product with a factor below the divisor divides to less than the other factor. */
  lemma DivBelow(a: int, c: int, b: int)
    requires 0 < a < b && 0 <= c
    ensures 0 <= a * c / b <= c
    ensures a * c / b * b <= a * c < (a * c / b + 1) * b
  {
    assert a * c <= b * c;
  }

  /** Division by a positive constant is monotone. */
  lemma DivMonotone(x: int, y: int, d: int)
    requires x <= y && d > 0
    ensures x / d <= y / d
  {
    var qx, qy := x / d, y / d;
    assert qx * d <= x;
    assert y < (qy + 1) * d;
    FactorCancel(qx, qy + 1, d);
  }

  lemma FactorCancel(a: int, b: int, d: int)
    requires d > 0 && a * d < b * d
    ensures a < b
  {
    assert (b - a) * d > 0;
  }

  /** A farther-right (lower) landmark never maps to a point farther left (higher) on the slide. */
  lemma InterpMonotone(v1: int, v2: int, lo: int, hi: int, outLo: int, outHi: int)
    requires lo < hi && 0 <= outLo <= outHi && v1 <= v2
    ensures Interp(v1, lo, hi, outLo, outHi) <= Interp(v2, lo, hi, outLo, outHi)
  {
    if lo < v1 && v2 < hi {
      var w, d := outHi - outLo, hi - lo;
      MulMonotone(v1 - lo, v2 - lo, w);
      DivMonotone((v1 - lo) * w, (v2 - lo) * w, d);
      assert Interp(v1, lo, hi, outLo, outHi) == outLo + (v1 - lo) * w / d;
      assert Interp(v2, lo, hi, outLo, outHi) == outLo + (v2 - lo) * w / d;
    }
  }

  lemma MulMonotone(a: int, b: int, c: int)
    requires a <= b && c >= 0
    ensures a * c <= b * c
  {
    assert (b - a) * c >= 0;
  }

  /** Horizontal pointer map: the right half of the camera frame spans the slide's width. */
  function SlideX(x: int): (r: int)
    ensures 0 <= r <= SlideWidth
  {
    Interp(x, CameraWidth / 2, CameraWidth, 0, SlideWidth)
  }

  /** Vertical pointer map: the band [150, 570] of the camera frame spans the slide's height. */
  function SlideY(y: int): (r: int)
    ensures 0 <= r <= SlideHeight
  {
    Interp(y, PointerMargin, CameraHeight - PointerMargin, 0, SlideHeight)
  }

  /** `indexFinger`: the index fingertip in slide coordinates. */
  function IndexFinger(h: Hand): (p: Point)
    requires Detected(h)
    ensures 0 <= p.x <= SlideWidth && 0 <= p.y <= SlideHeight
  {
    Point(SlideX(h.landmarks[IndexTip].x), SlideY(h.landmarks[IndexTip].y))
  }

  /** The corners of the pointer's range map to the corners of the slide, and the middle to the middle. */
  lemma PointerMapCorners()
    ensures SlideX(640) == 0 && SlideX(1280) == 960
    ensures SlideY(150) == 0 && SlideY(570) == 540
    ensures SlideX(960) == 480 && SlideY(360) == 270
  {
  }

  /**
   * `max(radius, min(v, extent - radius))`: when the disc fits, the point of
   * [radius, extent - radius] nearest to v; when it does not, radius.
   */
  function ClampCentre(v: int, radius: int, extent: int): (r: int)
    ensures r >= radius
    ensures 2 * radius <= extent ==> r <= extent - radius
    ensures 2 * radius <= extent ==>
      r == (if v < radius then radius else if v > extent - radius then extent - radius else v)
    ensures 2 * radius > extent ==> r == radius
  {
    var inner := if v < extent - radius then v else extent - radius;
    if radius > inner then radius else inner
  }

  /** The spotlight's centre on the slide in main2.py: the index fingertip, kept a radius away from the edges. */
  function SpotlightCentre(h: Hand, radius: int): (c: Point)
    requires Detected(h)
    ensures c.x >= radius && c.y >= radius
    ensures 2 * radius <= SlideWidth ==> c.x <= SlideWidth - radius
    ensures 2 * radius <= SlideHeight ==> c.y <= SlideHeight - radius
  {
    var p := IndexFinger(h);
    Point(ClampCentre(p.x, radius, SlideWidth), ClampCentre(p.y, radius, SlideHeight))
  }

  /** A spotlight taller than half the slide is pinned to y == radius whatever the hand does. */
  lemma TallSpotlightPinnedVertically(h: Hand, radius: int)
    requires Detected(h) && radius > SlideHeight / 2
    ensures SpotlightCentre(h, radius).y == radius
  {
  }
}
