/** Interpretation of a detected hand (style/script.js, onResults): which
    fingers are open, which shape that pattern selects, and how far the
    pinch between thumb and index finger pushes the particles out.

    A hand is the detector's list of 21 landmarks in normalised image
    coordinates, where y grows downwards. */
module Gesture {
  import opened Shapes

  datatype Landmark = Landmark(x: real, y: real)

  const LandmarkCount: nat := 21
  const ThumbTip: nat := 4
  const IndexTip: nat := 8
  const MiddleBase: nat := 9
  const MiddleTip: nat := 12
  const PinkyTip: nat := 20

  /** The horizontal distance between thumb tip and middle-finger base above
      which the thumb counts as open. */
  const ThumbSpread: real := 0.15

  predicate IsHand(hand: seq<Landmark>)
  {
    |hand| == LandmarkCount
  }

  function Abs(v: real): (r: real)
    ensures 0.0 <= r && (r == v || r == -v)
  {
    if v < 0.0 then -v else v
  }

  /** A finger is open when its tip lies higher in the image than the joint
      two landmarks below it. */
  predicate IsFingerOpen(hand: seq<Landmark>, tip: nat)
    requires 2 <= tip < |hand|
  {
    hand[tip].y < hand[tip - 2].y
  }

  /** The thumb is open when its tip is far enough, horizontally, from the
      base of the middle finger. */
  predicate IsThumbOpen(hand: seq<Landmark>)
    requires IsHand(hand)
  {
    Abs(hand[ThumbTip].x - hand[MiddleBase].x) > ThumbSpread
  }

  /** The open/closed state of the four fingers the interpreter looks at. */
  datatype Fingers = Fingers(thumb: bool, index: bool, middle: bool, pinky: bool)

  function ReadFingers(hand: seq<Landmark>): Fingers
    requires IsHand(hand)
  {
    Fingers(IsThumbOpen(hand), IsFingerOpen(hand, IndexTip),
            IsFingerOpen(hand, MiddleTip), IsFingerOpen(hand, PinkyTip))
  }

  /** The same hand seen in a mirror (left and right hand swapped). */
  function Mirror(hand: seq<Landmark>): (m: seq<Landmark>)
  {
    seq(|hand|, i requires 0 <= i < |hand| => Landmark(1.0 - hand[i].x, hand[i].y))
  }

  /** The same hand moved by (dx, dy) in the image. */
  function Shift(hand: seq<Landmark>, dx: real, dy: real): (m: seq<Landmark>)
  {
    seq(|hand|, i requires 0 <= i < |hand| => Landmark(hand[i].x + dx, hand[i].y + dy))
  }

  /** The finger reading depends only on the hand's shape, not on which hand
      it is: mirroring the image leaves every finger open or closed as it was
      (the thumb test measures a horizontal distance, the other fingers
      compare heights). */
  lemma FingersMirrorInvariant(hand: seq<Landmark>)
    requires IsHand(hand)
    ensures IsHand(Mirror(hand)) && ReadFingers(Mirror(hand)) == ReadFingers(hand)
  {
    var m := Mirror(hand);
    assert m[ThumbTip].x - m[MiddleBase].x == -(hand[ThumbTip].x - hand[MiddleBase].x);
  }

  /** Nor does it depend on where the hand is in the image: moving the whole
      hand leaves every finger open or closed as it was. */
  lemma FingersShiftInvariant(hand: seq<Landmark>, dx: real, dy: real)
    requires IsHand(hand)
    ensures IsHand(Shift(hand, dx, dy)) && ReadFingers(Shift(hand, dx, dy)) == ReadFingers(hand)
  {
    var m := Shift(hand, dx, dy);
    assert m[ThumbTip].x - m[MiddleBase].x == hand[ThumbTip].x - hand[MiddleBase].x;
  }

  /** The decision table: the one finger pattern that selects each shape. */
  function Row(s: Shape): Fingers
  {
    match s
    case Star => Fingers(true, false, false, true)
    case Heart => Fingers(true, true, false, false)
    case Planet => Fingers(true, true, true, false)
  }

  /** The shape after a hand with fingers `f` has been seen while the cloud
      shows `current`: the shape of the row the pattern matches, or `current`
      when it matches none. */
  function SelectShape(current: Shape, f: Fingers): (next: Shape)
    ensures f == Row(Star) ==> next == Star
    ensures f == Row(Heart) ==> next == Heart
    ensures f == Row(Planet) ==> next == Planet
    ensures f != Row(Star) && f != Row(Heart) && f != Row(Planet) ==> next == current
  {
    if f.thumb && f.pinky && !f.index && !f.middle then Star
    else if f.thumb && f.index && !f.middle && !f.pinky then Heart
    else if f.thumb && f.index && f.middle && !f.pinky then Planet
    else current
  }

  /** The rows of the table are mutually exclusive: no finger pattern matches
      two of them, so the order in which they are tested does not matter. */
  lemma RowsExclusive(f: Fingers, s: Shape, t: Shape)
    requires f == Row(s) && f == Row(t)
    ensures s == t
  {
  }

  /** A closed thumb, or a pattern that matches no row, leaves the shape as
      it is. */
  lemma NoRowKeepsShape(current: Shape, f: Fingers)
    requires !f.thumb || (f != Row(Star) && f != Row(Heart) && f != Row(Planet))
    ensures SelectShape(current, f) == current
  {
  }

  /** The shape changes exactly when the pattern matches the row of another
      shape. */
  lemma ShapeChangesIffOtherRow(current: Shape, f: Fingers)
    ensures SelectShape(current, f) != current <==> exists s :: s != current && f == Row(s)
  {
    if SelectShape(current, f) != current {
      var s := SelectShape(current, f);
      assert f == Row(s);
    }
  }

  /** Seeing the same fingers again selects the same shape, so a repeated
      gesture changes the shape (and regenerates the particles) at most once. */
  lemma SelectShapeIdempotent(current: Shape, f: Fingers)
    ensures SelectShape(SelectShape(current, f), f) == SelectShape(current, f)
  {
  }

  /** The squared distance between two landmarks: never negative, and zero
      between a landmark and itself. */
  function SquaredDistance(a: Landmark, b: Landmark): (q: real)
    ensures 0.0 <= q
    ensures a == b ==> q == 0.0
  {
    (a.x - b.x) * (a.x - b.x) + (a.y - b.y) * (a.y - b.y)
  }

  /** The pinch distance from which the cloud starts to expand, and the
      further distance over which the expansion goes from none to full. */
  const PinchFloor: real := 0.08
  const PinchSpan: real := 0.25

  function Min(a: real, b: real): real { if a <= b then a else b }
  function Max(a: real, b: real): real { if a <= b then b else a }

  /** `v` clamped into [0, 1]. */
  function Clamp01(v: real): (r: real)
    ensures 0.0 <= r <= 1.0
    ensures 0.0 <= v <= 1.0 ==> r == v
    ensures v < 0.0 ==> r == 0.0
    ensures 1.0 < v ==> r == 1.0
  {
    Min(1.0, Max(0.0, v))
  }

  /** The expansion factor for a pinch distance `d` (the distance between
      thumb tip and index tip): no expansion up to 0.08, full expansion from
      0.33 on, and in between a quadratic ease of the linear ramp. */
  function ExpansionFactor(d: real): (e: real)
    ensures 0.0 <= e <= 1.0
    ensures d <= PinchFloor ==> e == 0.0
    ensures PinchFloor + PinchSpan <= d ==> e == 1.0
  {
    var c := Clamp01((d - PinchFloor) / PinchSpan);
    c * c
  }

  lemma SquareMonotone(a: real, b: real)
    requires 0.0 <= a <= b
    ensures a * a <= b * b
  {
  }

  lemma SquareStrictlyMonotone(a: real, b: real)
    requires 0.0 <= a < b
    ensures a * a < b * b
  {
    ProductPositive(b - a, b + a);
    assert (b - a) * (b + a) == b * b - a * a;
  }

  lemma ProductPositive(u: real, v: real)
    requires 0.0 < u && 0.0 < v
    ensures 0.0 < u * v
  {
  }

  /** A wider pinch never gives less expansion. */
  lemma ExpansionMonotone(d1: real, d2: real)
    requires d1 <= d2
    ensures ExpansionFactor(d1) <= ExpansionFactor(d2)
  {
    var c1 := Clamp01((d1 - PinchFloor) / PinchSpan);
    var c2 := Clamp01((d2 - PinchFloor) / PinchSpan);
    assert (d1 - PinchFloor) / PinchSpan <= (d2 - PinchFloor) / PinchSpan;
    assert c1 <= c2;
    SquareMonotone(c1, c2);
    assert ExpansionFactor(d1) == c1 * c1;
    assert ExpansionFactor(d2) == c2 * c2;
  }

  /** The thresholds restated on the squared landmark distance, which is what
      the detector's coordinates give directly: `d` is the non-negative square
      root of that squared distance. */
  lemma ExpansionOfPinch(a: Landmark, b: Landmark, d: real)
    requires 0.0 <= d && d * d == SquaredDistance(a, b)
    ensures SquaredDistance(a, b) <= 0.0064 ==> ExpansionFactor(d) == 0.0
    ensures 0.1089 <= SquaredDistance(a, b) ==> ExpansionFactor(d) == 1.0
  {
    if PinchFloor < d {
      SquareStrictlyMonotone(PinchFloor, d);
    }
    if d < PinchFloor + PinchSpan {
      SquareStrictlyMonotone(d, PinchFloor + PinchSpan);
    }
  }
}
