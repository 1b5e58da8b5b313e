/** The angle-range helpers of ins/mechanization/attitude.py, over exact reals. `%` is Python's
    floored remainder, so `x % (2*pi)` is `x` minus a whole number of turns, in `[0, 2*pi)`. */
module Attitude {
  /** `np.pi`. */
  const PI: real := 3.141592653589793
  const TWO_PI: real := 2.0 * PI

  /** The whole number of turns Python's `x % (2*pi)` takes away. */
  function Turns(x: real): int {
    (x / TWO_PI).Floor
  }

  /** `x % (2*pi)`. */
  function ModTwoPi(x: real): (r: real)
    ensures 0.0 <= r < TWO_PI
    ensures r == x - Turns(x) as real * TWO_PI
  {
    var k := Turns(x);
    assert k as real <= x / TWO_PI < k as real + 1.0;
    x - k as real * TWO_PI
  }

  /** `angle_range_pi(x)`: the angle equivalent to `x` in `(-pi, pi]`. */
  function AngleRangePi(x: real): (r: real)
    ensures -PI < r <= PI
    ensures r == x - Turns(x) as real * TWO_PI || r == x - (Turns(x) + 1) as real * TWO_PI
  {
    var m := ModTwoPi(x);
    if m > PI then m - TWO_PI else m
  }

  /** The result is the only angle in `(-pi, pi]` a whole number of turns away from `x`. */
  lemma AngleRangePiUnique(x: real, y: real, k: int)
    requires -PI < y <= PI && y == x - k as real * TWO_PI
    ensures AngleRangePi(x) == y
  {
    var r := AngleRangePi(x);
    var j := if r == x - Turns(x) as real * TWO_PI then Turns(x) else Turns(x) + 1;
    assert r == x - j as real * TWO_PI;
    assert r - y == (k - j) as real * TWO_PI;
    if k - j >= 1 {
      assert false;
    } else if k - j <= -1 {
      assert false;
    }
  }

  /** Wrapping a wrapped angle changes nothing. */
  lemma AngleRangePiIdempotent(x: real)
    ensures AngleRangePi(AngleRangePi(x)) == AngleRangePi(x)
  {
    var r := AngleRangePi(x);
    AngleRangePiUnique(r, r, 0);
  }

  /** Adding a half turn before wrapping equals wrapping the angle a half turn the other way. */
  lemma AngleRangePiShift(x: real)
    ensures AngleRangePi(x + PI) == AngleRangePi(x - PI)
  {
    var r := AngleRangePi(x - PI);
    var j := if r == x - PI - Turns(x - PI) as real * TWO_PI then Turns(x - PI) else Turns(x - PI) + 1;
    assert r == (x + PI) - (j + 1) as real * TWO_PI;
    AngleRangePiUnique(x + PI, r, j + 1);
  }

  datatype Euler = Euler(roll: real, pitch: real, yaw: real)

  /** `euler_angle_range_three_axis(angles)`: the pitch is wrapped, and when it is beyond a
      quarter turn it is reflected back (`pi - pitch` or `-pi - pitch`) and roll and yaw turn
      by half a turn; roll and yaw are then wrapped. */
  function EulerAngleRange(angles: Euler): (r: Euler)
    ensures -PI / 2.0 <= r.pitch <= PI / 2.0
    ensures -PI < r.roll <= PI && -PI < r.yaw <= PI
    ensures var p := AngleRangePi(angles.pitch);
            if p > 0.5 * PI then r == Euler(AngleRangePi(angles.roll + PI), PI - p, AngleRangePi(angles.yaw + PI))
            else if p < -0.5 * PI then r == Euler(AngleRangePi(angles.roll + PI), -PI - p, AngleRangePi(angles.yaw + PI))
            else r == Euler(AngleRangePi(angles.roll), p, AngleRangePi(angles.yaw))
  {
    var halfPi := 0.5 * PI;
    var a2 := AngleRangePi(angles.pitch);
    var (a1, a2, a3) :=
      if a2 > halfPi then (angles.roll + PI, PI - a2, angles.yaw + PI)
      else if a2 < -halfPi then (angles.roll + PI, -PI - a2, angles.yaw + PI)
      else (angles.roll, a2, angles.yaw);
    Euler(AngleRangePi(a1), a2, AngleRangePi(a3))
  }

  /** Angles already in range come back unchanged. */
  lemma EulerInRangeUnchanged(angles: Euler)
    requires -PI < angles.roll <= PI && -PI < angles.yaw <= PI
    requires -PI / 2.0 <= angles.pitch <= PI / 2.0
    ensures EulerAngleRange(angles) == angles
  {
    AngleRangePiUnique(angles.roll, angles.roll, 0);
    AngleRangePiUnique(angles.pitch, angles.pitch, 0);
    AngleRangePiUnique(angles.yaw, angles.yaw, 0);
  }

  /** Correcting angles twice gives what correcting once gives. */
  lemma EulerAngleRangeIdempotent(angles: Euler)
    ensures EulerAngleRange(EulerAngleRange(angles)) == EulerAngleRange(angles)
  {
    EulerInRangeUnchanged(EulerAngleRange(angles));
  }
}
