/** Clamped linear interpolation (client/src/utils.ts), over the reals. */
module Utils {

  function Min(a: real, b: real): real { if a <= b then a else b }
  function Max(a: real, b: real): real { if a <= b then b else a }

  /** The interpolation factor after `lerp` clamps it. */
  function ClampFactor(t: real): (c: real)
    ensures 0.0 <= c <= 1.0
    ensures 0.0 <= t <= 1.0 ==> c == t
    ensures t > 1.0 ==> c == 1.0
    ensures t < 0.0 ==> c == 0.0
  {
    if t > 1.0 then 1.0 else if t < 0.0 then 0.0 else t
  }

  /** `lerp(a, b, t)`: the point a fraction `t`, clamped to [0, 1], of the way from `a` to `b`. */
  function Lerp(a: real, b: real, t: real): (r: real)
    ensures t <= 0.0 ==> r == a
    ensures t >= 1.0 ==> r == b
    ensures Min(a, b) <= r <= Max(a, b)
  {
    var c := ClampFactor(t);
    BetweenEnds(a, b, c);
    a + (b - a) * c
  }

  /** A product of two non-negative reals is non-negative. */
  lemma MulNonNegative(x: real, y: real)
    requires x >= 0.0 && y >= 0.0
    ensures x * y >= 0.0
  {
  }

  /** For a factor in [0, 1] the interpolated value lies between the ends. */
  lemma BetweenEnds(a: real, b: real, c: real)
    requires 0.0 <= c <= 1.0
    ensures Min(a, b) <= a + (b - a) * c <= Max(a, b)
  {
    if a <= b {
      MulNonNegative(b - a, c);
      MulNonNegative(b - a, 1.0 - c);
      assert (b - a) * (1.0 - c) == (b - a) - (b - a) * c;
    } else {
      MulNonNegative(a - b, c);
      MulNonNegative(a - b, 1.0 - c);
      assert (a - b) * c == -((b - a) * c);
      assert (a - b) * (1.0 - c) == (a - b) + (b - a) * c;
    }
  }

  /** Inside [0, 1] the factor is used unchanged; outside it acts as the nearer end. */
  lemma LerpClampsFactor(a: real, b: real, t: real)
    ensures 0.0 <= t <= 1.0 ==> Lerp(a, b, t) == a + (b - a) * t
    ensures Lerp(a, b, t) == Lerp(a, b, ClampFactor(t))
  {
  }

  /** From `a` towards a larger `b`, a larger factor never gives a smaller value. */
  lemma LerpMonotone(a: real, b: real, t1: real, t2: real)
    requires a <= b && t1 <= t2
    ensures Lerp(a, b, t1) <= Lerp(a, b, t2)
  {
    var c1, c2 := ClampFactor(t1), ClampFactor(t2);
    assert c1 <= c2;
    MulNonNegative(b - a, c2 - c1);
    assert (b - a) * (c2 - c1) == (b - a) * c2 - (b - a) * c1;
  }
}
