/**
 * Geometry and scaling helpers (helpers.py): the distance between two
 * landmarks, the midpoint of two pixel positions and the affine remap of a
 * value from one interval onto another.
 *
 * Python floats are modelled as exact reals; `int()` on a float is `Trunc`.
 */
module Helpers {

  /** A position in pixel space. */
  datatype Point = Point(x: int, y: int)

  /** A landmark position in the detector's normalised image coordinates. */
  datatype NormPoint = NormPoint(x: real, y: real)

  function Abs(n: int): (r: nat)
    ensures r == n || r == -n
  {
    if n < 0 then -n else n
  }

  function Min(a: int, b: int): int { if a < b then a else b }

  function Max(a: int, b: int): int { if a < b then b else a }

  /** Python's `int()` applied to a float: rounds toward zero. */
  function Trunc(r: real): (n: int)
    ensures 0.0 <= r ==> n as real <= r < n as real + 1.0
    ensures r < 0.0 ==> n as real - 1.0 < r <= n as real
  {
    if r >= 0.0 then r.Floor else -((-r).Floor)
  }

  /** Truncating a real that lies between two integers stays between them. */
  lemma TruncWithin(r: real, lo: int, hi: int)
    requires lo as real <= r <= hi as real
    ensures lo <= Trunc(r) <= hi
  {
  }

  /** Truncating an integer-valued real gives back that integer. */
  lemma TruncOfInt(n: int)
    ensures Trunc(n as real) == n
  {
  }

  /**
   * One axis of `calculate_middle_point`: start from the lower coordinate
   * and add half the absolute difference, then truncate.
   */
  function AxisMiddle(c1: int, c2: int): (m: int)
    ensures Min(c1, c2) <= m <= Max(c1, c2)
  {
    var diff := Abs(c1 - c2);
    var half := diff as real / 2.0;
    if c1 > c2 then
      TruncWithin(c2 as real + half, c2, c1);
      Trunc(c2 as real + half)
    else
      TruncWithin(c1 as real + half, c1, c2);
      Trunc(c1 as real + half)
  }

  /** `calculate_middle_point`: the per-axis midpoint of two pixel positions. */
  function MiddlePoint(p1: Point, p2: Point): (m: Point)
    ensures Min(p1.x, p2.x) <= m.x <= Max(p1.x, p2.x)
    ensures Min(p1.y, p2.y) <= m.y <= Max(p1.y, p2.y)
  {
    Point(AxisMiddle(p1.x, p2.x), AxisMiddle(p1.y, p2.y))
  }

  /** The midpoint does not depend on the order of its arguments. */
  lemma MiddlePointSymmetric(p1: Point, p2: Point)
    ensures MiddlePoint(p1, p2) == MiddlePoint(p2, p1)
  {
  }

  /** The midpoint of a point with itself is that point. */
  lemma MiddlePointSelf(p: Point)
    ensures MiddlePoint(p, p) == p
  {
    TruncOfInt(p.x);
    TruncOfInt(p.y);
  }

  /**
   * For non-negative coordinates (the pixel range of a frame) the truncation
   * is a floor, so each axis is the lower coordinate plus half the distance,
   * rounded down.
   */
  lemma AxisMiddleNonNegative(c1: int, c2: int)
    requires 0 <= c1 && 0 <= c2
    ensures AxisMiddle(c1, c2) == Min(c1, c2) + Abs(c1 - c2) / 2
  {
    var diff := Abs(c1 - c2);
    var q := diff / 2;
    assert diff == 2 * q || diff == 2 * q + 1;
    var lo := Min(c1, c2);
    assert lo as real + diff as real / 2.0 == (lo + q) as real + (diff - 2 * q) as real / 2.0;
    assert (lo + q) as real <= lo as real + diff as real / 2.0 < (lo + q) as real + 1.0;
  }

  lemma MiddlePointNonNegative(p1: Point, p2: Point)
    requires 0 <= p1.x && 0 <= p2.x && 0 <= p1.y && 0 <= p2.y
    ensures MiddlePoint(p1, p2) ==
            Point(Min(p1.x, p2.x) + Abs(p1.x - p2.x) / 2, Min(p1.y, p2.y) + Abs(p1.y - p2.y) / 2)
  {
    AxisMiddleNonNegative(p1.x, p2.x);
    AxisMiddleNonNegative(p1.y, p2.y);
  }

  /**
   * `linear_scaling`: maps `x` from the interval [minA, maxA] onto
   * [minB, maxB] by the affine transform through the two end points.
   * Python divides by zero when the source interval is empty.
   */
  function LinearScaling(x: real, minA: real, maxA: real, minB: real, maxB: real): real
    requires maxA != minA
  {
    (x - minA) / (maxA - minA) * (maxB - minB) + minB
  }

  /** The end points of the source interval go to those of the target. */
  lemma ScalingMapsEndPoints(minA: real, maxA: real, minB: real, maxB: real)
    requires maxA != minA
    ensures LinearScaling(minA, minA, maxA, minB, maxB) == minB
    ensures LinearScaling(maxA, minA, maxA, minB, maxB) == maxB
  {
    assert (maxA - minA) / (maxA - minA) == 1.0;
  }

  /** The centre of a window symmetric around zero goes to the centre of the target. */
  lemma ScalingCentre(w: real, minB: real, maxB: real)
    requires w > 0.0
    ensures LinearScaling(0.0, -w, w, minB, maxB) == (minB + maxB) / 2.0
  {
    assert (0.0 - (-w)) / (w - (-w)) == 0.5;
  }

  /** Scaling from a proper interval onto an ordered one preserves order. */
  lemma ScalingMonotone(x1: real, x2: real, minA: real, maxA: real, minB: real, maxB: real)
    requires minA < maxA && minB <= maxB && x1 <= x2
    ensures LinearScaling(x1, minA, maxA, minB, maxB) <= LinearScaling(x2, minA, maxA, minB, maxB)
  {
    var span := maxA - minA;
    assert (x1 - minA) / span <= (x2 - minA) / span;
    MultiplyMonotone((x1 - minA) / span, (x2 - minA) / span, maxB - minB);
  }

  lemma MultiplyMonotone(a: real, b: real, c: real)
    requires a <= b && 0.0 <= c
    ensures a * c <= b * c
  {
  }

  /** The contract standing for `math.sqrt`: it never returns a negative number. */
  ghost predicate NonNegativeRoot(sqrt: real -> real)
  {
    forall v :: 0.0 <= v ==> 0.0 <= sqrt(v)
  }

  function SquaredDistance(p1: NormPoint, p2: NormPoint): (d: real)
    ensures 0.0 <= d
  {
    (p2.x - p1.x) * (p2.x - p1.x) + (p2.y - p1.y) * (p2.y - p1.y)
  }

  /**
   * `calculate_distance`: the Euclidean distance, with the square root
   * supplied as a parameter.
   */
  function Distance(sqrt: real -> real, p1: NormPoint, p2: NormPoint): (d: real)
    requires NonNegativeRoot(sqrt)
    ensures 0.0 <= d
  {
    sqrt(SquaredDistance(p1, p2))
  }

  lemma DistanceSymmetric(sqrt: real -> real, p1: NormPoint, p2: NormPoint)
    requires NonNegativeRoot(sqrt)
    ensures Distance(sqrt, p1, p2) == Distance(sqrt, p2, p1)
  {
    assert SquaredDistance(p1, p2) == SquaredDistance(p2, p1);
  }
}
