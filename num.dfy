/** Numeric helpers of the engine: clamp, lerp, smoothstep and the
    JavaScript rounding and sign rules, over mathematical reals. */
module Num {

  function Min(a: real, b: real): (r: real)
    ensures r <= a && r <= b && (r == a || r == b)
  {
    if a <= b then a else b
  }

  function Max(a: real, b: real): (r: real)
    ensures r >= a && r >= b && (r == a || r == b)
  {
    if a >= b then a else b
  }

  // Integer versions of Min and Max, used by IClamp for the display width
  // and the ball target (int and real share no numeric type in Dafny).
  function IMin(a: int, b: int): (r: int)
    ensures r <= a && r <= b && (r == a || r == b)
  {
    if a <= b then a else b
  }

  function IMax(a: int, b: int): (r: int)
    ensures r >= a && r >= b && (r == a || r == b)
  {
    if a >= b then a else b
  }

  /** `Math.max(lo, Math.min(hi, v))`: when lo > hi the result is lo. */
  function Clamp(v: real, lo: real, hi: real): (r: real)
    ensures lo <= hi ==> lo <= r <= hi
    ensures lo <= v <= hi ==> r == v
    ensures v < lo ==> r == lo
    ensures lo <= hi < v ==> r == hi
  {
    Max(lo, Min(hi, v))
  }

  /** The same clamp on integers. */
  function IClamp(v: int, lo: int, hi: int): (r: int)
    ensures lo <= hi ==> lo <= r <= hi
    ensures lo <= v <= hi ==> r == v
  {
    IMax(lo, IMin(hi, v))
  }

  function Abs(x: real): (r: real)
    ensures r >= 0.0 && (r == x || r == -x)
  {
    if x < 0.0 then -x else x
  }

  /** `Math.sign`: -1, 0 or 1. */
  function Sign(x: real): (r: real)
    ensures x > 0.0 <==> r == 1.0
    ensures x < 0.0 <==> r == -1.0
    ensures x == 0.0 <==> r == 0.0
  {
    if x > 0.0 then 1.0 else if x < 0.0 then -1.0 else 0.0
  }

  /** `Math.round`: halves round towards positive infinity. */
  function Round(x: real): (n: int)
    ensures x - 0.5 < n as real <= x + 0.5
  {
    (x + 0.5).Floor
  }

  lemma RoundMonotone(x: real, y: real)
    requires x <= y
    ensures Round(x) <= Round(y)
  {
  }

  function Lerp(a: real, b: real, t: real): (r: real)
    ensures a <= b && 0.0 <= t <= 1.0 ==> a <= r <= b
    ensures b <= a && 0.0 <= t <= 1.0 ==> b <= r <= a
    ensures t == 0.0 ==> r == a
    ensures t == 1.0 ==> r == b
  {
    var d := (b - a) * t;
    MulBetween(b - a, t);
    a + d
  }

  /** `x * t` lies between 0 and `x` when `t` is in [0, 1]. */
  lemma MulBetween(x: real, t: real)
    ensures 0.0 <= x && 0.0 <= t <= 1.0 ==> 0.0 <= x * t <= x
    ensures x <= 0.0 && 0.0 <= t <= 1.0 ==> x <= x * t <= 0.0
  {
    if 0.0 <= t <= 1.0 {
      assert x * t - x == x * (t - 1.0);
      if 0.0 <= x {
        MulNonneg(x, t);
        MulNonneg(x, 1.0 - t);
      } else {
        MulNonneg(-x, t);
        MulNonneg(-x, 1.0 - t);
      }
    }
  }

  lemma MulNonneg(x: real, y: real)
    requires 0.0 <= x && 0.0 <= y
    ensures 0.0 <= x * y
  {
  }

  lemma MulPos(x: real, y: real)
    requires 0.0 < x && 0.0 < y
    ensures 0.0 < x * y
  {
  }

  /** k equal increments a, added up: the effect of k frames of one step. */
  function Times(k: nat, a: real): real
  {
    if k == 0 then 0.0 else Times(k - 1, a) + a
  }

  lemma {:induction false} TimesIsProduct(k: nat, a: real)
    ensures Times(k, a) == k as real * a
  {
    if k > 0 {
      TimesIsProduct(k - 1, a);
      assert (k - 1) as real * a + a == k as real * a;
    }
  }

  lemma {:induction false} TimesNonneg(k: nat, a: real)
    requires 0.0 <= a
    ensures 0.0 <= Times(k, a)
  {
    if k > 0 {
      TimesNonneg(k - 1, a);
    }
  }

  lemma LerpMonotone(a: real, b: real, t1: real, t2: real)
    requires a <= b && t1 <= t2
    ensures Lerp(a, b, t1) <= Lerp(a, b, t2)
  {
    MulNonneg(b - a, t2 - t1);
    assert Lerp(a, b, t2) - Lerp(a, b, t1) == (b - a) * (t2 - t1);
  }

  /** `smoothstep01`: the cubic 3t^2 - 2t^3 of the input clamped to [0, 1]. */
  function Smoothstep01(x: real): (r: real)
    ensures 0.0 <= r <= 1.0
    ensures x <= 0.0 ==> r == 0.0
    ensures x >= 1.0 ==> r == 1.0
  {
    var t := Clamp(x, 0.0, 1.0);
    SmoothCubicBounds(t);
    t * t * (3.0 - 2.0 * t)
  }

  lemma SmoothCubicBounds(t: real)
    requires 0.0 <= t <= 1.0
    ensures 0.0 <= t * t * (3.0 - 2.0 * t) <= 1.0
  {
    MulNonneg(t, t);
    MulNonneg(t * t, 3.0 - 2.0 * t);
    // 1 - (3t^2 - 2t^3) = (1 - t)^2 (1 + 2t)
    assert 1.0 - t * t * (3.0 - 2.0 * t) == (1.0 - t) * (1.0 - t) * (1.0 + 2.0 * t);
    MulNonneg(1.0 - t, 1.0 - t);
    MulNonneg((1.0 - t) * (1.0 - t), 1.0 + 2.0 * t);
  }

  lemma MulAtMost(x: real, y: real)
    requires 0.0 <= x && 0.0 <= y <= 1.0
    ensures x * y <= x
  {
    MulNonneg(x, 1.0 - y);
    assert x * (1.0 - y) == x - x * y;
  }

  /** The smoothstep cubic is non-decreasing on [0, 1]. */
  lemma SmoothCubicMonotone(a: real, b: real)
    requires 0.0 <= a <= b <= 1.0
    ensures a * a * (3.0 - 2.0 * a) <= b * b * (3.0 - 2.0 * b)
  {
    // f(b) - f(a) = (b - a) (3(a + b) - 2(a^2 + ab + b^2))
    var k := 3.0 * (a + b) - 2.0 * (a * a + a * b + b * b);
    assert b * b * (3.0 - 2.0 * b) - a * a * (3.0 - 2.0 * a) == (b - a) * k;
    MulAtMost(a, a);
    MulAtMost(b, b);
    MulAtMost(a, b);
    MulAtMost(b, a);
    var aa, ab, bb := a * a, a * b, b * b;
    assert a * b == b * a;
    assert aa <= a && bb <= b && ab <= a && ab <= b;
    assert k == 3.0 * (a + b) - 2.0 * (aa + ab + bb);
    assert 0.0 <= k;
    MulNonneg(b - a, k);
  }

  lemma SmoothstepMonotone(x: real, y: real)
    requires x <= y
    ensures Smoothstep01(x) <= Smoothstep01(y)
  {
    SmoothCubicMonotone(Clamp(x, 0.0, 1.0), Clamp(y, 0.0, 1.0));
  }

  /** `scaleRef.current || 1`: a zero scale reads as 1. */
  function ScaleOr1(scale: real): (sc: real)
    ensures scale != 0.0 ==> sc == scale
    ensures scale >= 0.0 ==> sc > 0.0
  {
    if scale == 0.0 then 1.0 else scale
  }

  /** A length, speed or acceleration in base units, in display units. */
  function Scaled(x: real, scale: real): real
  {
    x * ScaleOr1(scale)
  }

  lemma ScaledNonneg(x: real, scale: real)
    requires 0.0 <= x && 0.0 <= scale
    ensures 0.0 <= Scaled(x, scale)
    ensures 0.0 < x ==> 0.0 < Scaled(x, scale)
  {
    MulNonneg(x, ScaleOr1(scale));
  }

  lemma ScaleMonotone(x: real, y: real, sc: real)
    requires x <= y && 0.0 < sc
    ensures x * sc <= y * sc
  {
    MulNonneg(y - x, sc);
  }

  lemma ScaledMonotone(x: real, y: real, scale: real)
    requires x <= y && 0.0 <= scale
    ensures Scaled(x, scale) <= Scaled(y, scale)
  {
    ScaleMonotone(x, y, ScaleOr1(scale));
  }
}
