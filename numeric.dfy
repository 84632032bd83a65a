/** Scalar helpers of the scene: interpolation, easing, angles and the
    rounding/remainder operators of JavaScript, stated over exact reals. */
module Numeric {

  /** Math.PI as written by the engine (the double nearest to pi). */
  const PI: real := 3.141592653589793
  /** The module-level TAU constant, Math.PI * 2. */
  const TAU: real := 6.283185307179586

  function Min(a: real, b: real): real { if a <= b then a else b }
  function Max(a: real, b: real): real { if a >= b then a else b }

  /** Math.min(1, Math.max(0, t)). */
  function Clamp01(t: real): (c: real)
    ensures 0.0 <= c <= 1.0
    ensures 0.0 <= t <= 1.0 ==> c == t
    ensures t <= 0.0 ==> c == 0.0
    ensures t >= 1.0 ==> c == 1.0
  {
    Min(1.0, Max(0.0, t))
  }

  /** Math.round: the nearest integer, halves rounded up. */
  function Round(x: real): (r: int)
    ensures r as real - 0.5 <= x < r as real + 0.5
  {
    (x + 0.5).Floor
  }

  /** Rounding a value that is already an integer gives it back. */
  lemma RoundOfInt(k: int)
    ensures Round(k as real) == k
  {
  }

  /** Rounding is monotone. */
  lemma RoundMono(x: real, y: real)
    requires x <= y
    ensures Round(x) <= Round(y)
  {
  }

  /** Math.ceil. */
  function Ceil(x: real): (r: int)
    ensures x <= r as real < x + 1.0
  {
    -((-x).Floor)
  }

  /** Truncation toward zero, as the double remainder operator uses. */
  function Trunc(x: real): (q: int)
    ensures x >= 0.0 ==> q as real <= x < q as real + 1.0
    ensures x < 0.0 ==> q as real - 1.0 < x <= q as real
  {
    if x >= 0.0 then x.Floor else -((-x).Floor)
  }

  /** The quotient JavaScript's `x % TAU` removes: x % TAU == x - TAU * RemQuot(x). */
  function RemQuot(x: real): int
  {
    Trunc(x / TAU)
  }

  /** JavaScript's `x % TAU`: the remainder keeps the sign of x. */
  function RemTau(x: real): (r: real)
    ensures x >= 0.0 ==> 0.0 <= r < TAU
    ensures x < 0.0 ==> -TAU < r <= 0.0
    ensures r == x - TAU * RemQuot(x) as real
  {
    var q := RemQuot(x);
    assert x >= 0.0 ==> TAU * q as real <= x < TAU * q as real + TAU;
    assert x < 0.0 ==> TAU * q as real - TAU < x <= TAU * q as real;
    x - TAU * q as real
  }

  /** k whole turns. */
  function Turns(k: int): real
  {
    k as real * TAU
  }

  /** x and y denote the same angle. */
  ghost predicate SameAngle(x: real, y: real)
  {
    exists k: int :: x == y + Turns(k)
  }

  lemma MulNonneg(x: real, y: real)
    requires x >= 0.0 && y >= 0.0
    ensures x * y >= 0.0
  {
  }

  /** lerp(a, b, t) = a + (b - a) * t. */
  function Lerp(a: real, b: real, t: real): (r: real)
    ensures t == 0.0 ==> r == a
    ensures t == 1.0 ==> r == b
    ensures a == b ==> r == a
  {
    a + (b - a) * t
  }

  /** For t in [0, 1] the interpolant stays between its ends. */
  lemma LerpBetween(a: real, b: real, t: real)
    requires 0.0 <= t <= 1.0
    ensures Min(a, b) <= Lerp(a, b, t) <= Max(a, b)
  {
    if a <= b {
      MulNonneg(b - a, t);
      MulNonneg(b - a, 1.0 - t);
    } else {
      MulNonneg(a - b, t);
      MulNonneg(a - b, 1.0 - t);
    }
  }

  /** easeOutCubic: clamps t to [0, 1], then 1 - (1 - t)^3. */
  function EaseOutCubic(t: real): (r: real)
    ensures 0.0 <= r <= 1.0
    ensures t <= 0.0 ==> r == 0.0
    ensures t >= 1.0 ==> r == 1.0
  {
    var c := Clamp01(t);
    var d := 1.0 - c;
    assert 0.0 <= d * d <= 1.0;
    assert 0.0 <= d * d * d <= d * d;
    1.0 - d * d * d
  }

  lemma CubeMono(x: real, y: real)
    requires 0.0 <= x <= y
    ensures x * x * x <= y * y * y
  {
    assert x * x <= y * y by {
      assert x * x <= x * y;
      assert x * y <= y * y;
    }
    assert x * x * x <= y * y * x;
    assert y * y * x <= y * y * y;
  }

  /** easeOutCubic never runs backwards. */
  lemma EaseOutCubicMonotone(s: real, t: real)
    requires s <= t
    ensures EaseOutCubic(s) <= EaseOutCubic(t)
  {
    var cs, ct := Clamp01(s), Clamp01(t);
    assert cs <= ct;
    CubeMono(1.0 - ct, 1.0 - cs);
  }

  /** Cubic Hermite from 0 to 1 with end slopes m0 and m1, t clamped to [0, 1]. */
  function Hermite01(t: real, m0: real, m1: real): real
  {
    var c := Clamp01(t);
    var c2 := c * c;
    var c3 := c2 * c;
    (2.0 * c3 - 3.0 * c2 + 1.0) * 0.0 + (c3 - 2.0 * c2 + c) * m0 + (-2.0 * c3 + 3.0 * c2) * 1.0 + (c3 - c2) * m1
  }

  /** Whatever the slopes, the curve starts at 0 and ends at 1 (and clamps outside). */
  lemma Hermite01Ends(t: real, m0: real, m1: real)
    ensures t <= 0.0 ==> Hermite01(t, m0, m1) == 0.0
    ensures t >= 1.0 ==> Hermite01(t, m0, m1) == 1.0
  {
  }

  /** With an arrival slope of 0 the curve is the smoothstep c^2 (3 - 2c) plus
      m0 times the start-slope basis c (1 - c)^2. */
  lemma Hermite01Factored(t: real, m0: real)
    requires 0.0 <= t <= 1.0
    ensures Hermite01(t, m0, 0.0) == m0 * t * (1.0 - t) * (1.0 - t) + t * t * (3.0 - 2.0 * t)
  {
  }

  /** With an arrival slope of 0 and a start slope in [0, 1] the curve never leaves [0, 1]. */
  lemma Hermite01Bounded(t: real, m0: real)
    requires 0.0 <= m0 <= 1.0
    ensures 0.0 <= Hermite01(t, m0, 0.0) <= 1.0
  {
    var c := Clamp01(t);
    var d := 1.0 - c;
    var a := c * d * d;
    var b := c * c * (3.0 - 2.0 * c);
    Hermite01Factored(c, m0);
    assert Hermite01(t, m0, 0.0) == m0 * a + b;
    MulNonneg(c, d);
    MulNonneg(c * d, d);
    MulNonneg(c, c);
    MulNonneg(c * c, 3.0 - 2.0 * c);
    MulNonneg(m0, a);
    MulNonneg(1.0 - m0, a);
    assert m0 * a <= a by {
      assert a - m0 * a == (1.0 - m0) * a;
    }
    assert 1.0 - (a + b) == d * d * (1.0 + c);
    MulNonneg(d, d);
    MulNonneg(d * d, 1.0 + c);
  }

  /** Shortest signed difference b - a:
      ((((b - a + PI) % TAU) + TAU) % TAU) - PI. */
  function AngleDiffShortest(a: real, b: real): (r: real)
    ensures -PI <= r < PI
  {
    var inner := RemTau(b - a + PI);
    RemTau(inner + TAU) - PI
  }

  /** The shortest difference is b - a up to whole turns. */
  lemma AngleDiffShortestCongruent(a: real, b: real)
    ensures SameAngle(AngleDiffShortest(a, b), b - a)
  {
    var x := b - a + PI;
    var inner := RemTau(x);
    var k := 1 - RemQuot(x) - RemQuot(inner + TAU);
    assert AngleDiffShortest(a, b) == b - a + Turns(k);
  }

  /** If b - a is already in [-PI, PI) no turn is added. */
  lemma AngleDiffShortestExact(a: real, b: real)
    requires -PI <= b - a < PI
    ensures AngleDiffShortest(a, b) == b - a
  {
    var x := b - a + PI;
    assert 0.0 <= x < TAU;
    assert RemQuot(x) == 0;
    assert RemQuot(x + TAU) == 1;
  }

  /** ((a % TAU) + TAU) % TAU: the angle brought into [0, TAU). */
  function NormalizeAngle(a: real): (r: real)
    ensures 0.0 <= r < TAU
  {
    RemTau(RemTau(a) + TAU)
  }

  lemma NormalizeAngleCongruent(a: real)
    ensures SameAngle(NormalizeAngle(a), a)
  {
    var k := -RemQuot(a) + 1 - RemQuot(RemTau(a) + TAU);
    assert NormalizeAngle(a) == a + Turns(k);
  }

  /** Math.sign. */
  function Sign(x: real): (s: real)
    ensures s == -1.0 || s == 0.0 || s == 1.0
    ensures s * x >= 0.0 && (x != 0.0 ==> s * x > 0.0)
  {
    if x > 0.0 then 1.0 else if x < 0.0 then -1.0 else 0.0
  }

  function Abs(x: real): (r: real)
    ensures r >= 0.0 && (r == x || r == -x)
  {
    if x >= 0.0 then x else -x
  }
}
