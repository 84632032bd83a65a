/** Value noise and its fractal sum, used to synthesise the sun's emissive map. */
module Noise {
  import opened Numeric

  /** An unsigned 32-bit integer, the result of `h >>> 0`. */
  type Uint32 = h: int | 0 <= h < 0x1_0000_0000

  /** The integer mixing inside hash3 (a weighted sum of the lattice
      coordinates and the seed, an xor-shift, a second multiply and the
      final unsigned coercion). Its products exceed 2^53 before the 32-bit
      coercion, so it is a parameter. */
  type Mixer = (int, int, int, int) -> Uint32

  /** A value of the unit interval, the range of every noise sample. */
  type Unit = r: real | 0.0 <= r <= 1.0

  /** hash3: the mixed unsigned 32-bit value over 2^32 - 1, in [0, 1]. */
  function Hash3(mix: Mixer, xi: int, yi: int, zi: int, seed: int): Unit
  {
    mix(xi, yi, zi, seed) as real / 4294967295.0
  }

  /** The smoothstep fade f*f*(3 - 2f) of valueNoise3: it maps [0, 1] onto
      itself, fixing both ends. */
  function Fade(f: Unit): (r: Unit)
    ensures f == 0.0 ==> r == 0.0
    ensures f == 1.0 ==> r == 1.0
  {
    MulNonneg(f, f);
    MulNonneg(f * f, 3.0 - 2.0 * f);
    assert 1.0 - f * f * (3.0 - 2.0 * f) == (1.0 - f) * (1.0 - f) * (1.0 + 2.0 * f);
    MulNonneg(1.0 - f, 1.0 - f);
    MulNonneg((1.0 - f) * (1.0 - f), 1.0 + 2.0 * f);
    f * f * (3.0 - 2.0 * f)
  }

  /** lerp(a, b, t) on the unit interval: the result lies between a and b. */
  function Mix01(a: Unit, b: Unit, t: Unit): (r: Unit)
    ensures Min(a, b) <= r <= Max(a, b)
  {
    LerpBetween(a, b, t);
    Lerp(a, b, t)
  }

  function Pow2(n: nat): (p: nat)
    ensures p >= 1
  {
    if n == 0 then 1 else 2 * Pow2(n - 1)
  }

  /** Multilinear interpolation of the 2^|ts| corner values c: the first
      weight blends the lower and upper halves of c, each interpolated with
      the remaining weights. With c ordered x fastest, then y, then z, and
      ts == [w, v, u], this is valueNoise3's lerp along x, then y, then z. */
  function Interp(c: seq<Unit>, ts: seq<Unit>): Unit
    requires |c| == Pow2(|ts|)
  {
    if |ts| == 0 then c[0]
    else
      var h := |c| / 2;
      Mix01(Interp(c[..h], ts[1..]), Interp(c[h..], ts[1..]), ts[0])
  }

  /** The interpolant stays within the range of its corners. */
  lemma {:induction false} InterpWithinCorners(c: seq<Unit>, ts: seq<Unit>, lo: real, hi: real)
    requires |c| == Pow2(|ts|)
    requires forall k :: 0 <= k < |c| ==> lo <= c[k] <= hi
    ensures lo <= Interp(c, ts) <= hi
  {
    if |ts| > 0 {
      var h := |c| / 2;
      InterpWithinCorners(c[..h], ts[1..], lo, hi);
      InterpWithinCorners(c[h..], ts[1..], lo, hi);
    }
  }

  /** At a corner (all weights 0) the interpolant is the first corner value. */
  lemma {:induction false} InterpAtOrigin(c: seq<Unit>, ts: seq<Unit>)
    requires |c| == Pow2(|ts|)
    requires forall k :: 0 <= k < |ts| ==> ts[k] == 0.0
    ensures Interp(c, ts) == c[0]
  {
    if |ts| > 0 {
      InterpAtOrigin(c[..|c| / 2], ts[1..]);
    }
  }

  /** The eight lattice hashes of the cell with lowest corner (xi, yi, zi),
      x varying fastest. */
  function Corners(mix: Mixer, xi: int, yi: int, zi: int, seed: int): (c: seq<Unit>)
    ensures |c| == 8
  {
    [Hash3(mix, xi, yi, zi, seed), Hash3(mix, xi + 1, yi, zi, seed),
     Hash3(mix, xi, yi + 1, zi, seed), Hash3(mix, xi + 1, yi + 1, zi, seed),
     Hash3(mix, xi, yi, zi + 1, seed), Hash3(mix, xi + 1, yi, zi + 1, seed),
     Hash3(mix, xi, yi + 1, zi + 1, seed), Hash3(mix, xi + 1, yi + 1, zi + 1, seed)]
  }

  /** The fractional part of x, in [0, 1). */
  function Frac(x: real): Unit
  {
    x - x.Floor as real
  }

  /** valueNoise3: the eight lattice hashes around (x, y, z), interpolated
      along x, y and z with the faded fractional parts as weights. */
  function ValueNoise3(mix: Mixer, x: real, y: real, z: real, seed: int): Unit
  {
    Interp(Corners(mix, x.Floor, y.Floor, z.Floor, seed), [Fade(Frac(z)), Fade(Frac(y)), Fade(Frac(x))])
  }

  /** At a lattice point the noise is that point's hash. */
  lemma ValueNoise3AtLattice(mix: Mixer, i: int, j: int, k: int, seed: int)
    ensures ValueNoise3(mix, i as real, j as real, k as real, seed) == Hash3(mix, i, j, k, seed)
  {
    InterpAtOrigin(Corners(mix, i, j, k, seed), [0.0, 0.0, 0.0]);
  }

  /** The noise of a point lies between the least and greatest hash of its cell. */
  lemma ValueNoise3WithinCell(mix: Mixer, x: real, y: real, z: real, seed: int, lo: real, hi: real)
    requires forall k :: 0 <= k < 8 ==> lo <= Corners(mix, x.Floor, y.Floor, z.Floor, seed)[k] <= hi
    ensures lo <= ValueNoise3(mix, x, y, z, seed) <= hi
  {
    InterpWithinCorners(Corners(mix, x.Floor, y.Floor, z.Floor, seed), [Fade(Frac(z)), Fade(Frac(y)), Fade(Frac(x))], lo, hi);
  }

  function Pow(b: real, i: nat): real
  {
    if i == 0 then 1.0 else Pow(b, i - 1) * b
  }

  lemma PowNonneg(b: real, i: nat)
    requires b >= 0.0
    ensures Pow(b, i) >= 0.0
  {
    if i > 0 {
      PowNonneg(b, i - 1);
      MulNonneg(Pow(b, i - 1), b);
    }
  }

  /** The parameters of one fbmPeriodic3D call, after the (u, v) -> unit
      sphere mapping (sx, sy, sz), which uses trigonometry and is an input. */
  datatype FbmParams = FbmParams(mix: Mixer, sx: real, sy: real, sz: real, seed: int,
                                 scaleU: real, scaleV: real, lac: real, gain: real)

  function BaseScale(p: FbmParams): real
  {
    (p.scaleU + p.scaleV) * 0.5
  }

  /** The noise sample of octave i at frequency freq: the sphere point
      scaled by baseScale * freq, shifted by i * (0.73, 1.11, 0.57), with seed + 101 i. */
  function OctaveAt(p: FbmParams, i: nat, freq: real): Unit
  {
    ValueNoise3(p.mix, p.sx * BaseScale(p) * freq + i as real * 0.73,
                p.sy * BaseScale(p) * freq + i as real * 1.11,
                p.sz * BaseScale(p) * freq + i as real * 0.57, p.seed + i * 101)
  }

  /** The per-octave sampler of one fbmPeriodic3D call: octave index and
      frequency to a noise value. */
  function Sampler(p: FbmParams): (nat, real) -> Unit
  {
    (i: nat, freq: real) => OctaveAt(p, i, freq)
  }

  /** sum after n octaves: sample k taken at frequency lac^k, weighted by gain^k. */
  function WeightedSum(f: (nat, real) -> Unit, gain: real, lac: real, n: nat): real
  {
    if n == 0 then 0.0 else WeightedSum(f, gain, lac, n - 1) + Pow(gain, n - 1) * f(n - 1, Pow(lac, n - 1))
  }

  /** norm after n octaves: the total weight. */
  function TotalWeight(gain: real, n: nat): real
  {
    if n == 0 then 0.0 else TotalWeight(gain, n - 1) + Pow(gain, n - 1)
  }

  /** Adding a sample of [0, 1] with weight a to the sum, and a to the weight. */
  lemma WeightedStep(s: real, w: real, a: real, o: real)
    requires 0.0 <= s <= w && a >= 0.0 && 0.0 <= o <= 1.0
    ensures 0.0 <= s + a * o <= w + a
  {
    MulNonneg(a, o);
    MulNonneg(a, 1.0 - o);
  }

  /** With a non-negative gain the weighted sum never exceeds its total
      weight, and the first octave's weight 1 keeps the total weight at least 1. */
  lemma {:induction false} WeightedSumWithinTotal(f: (nat, real) -> Unit, gain: real, lac: real, n: nat)
    requires gain >= 0.0
    ensures 0.0 <= WeightedSum(f, gain, lac, n) <= TotalWeight(gain, n)
    ensures n >= 1 ==> TotalWeight(gain, n) >= 1.0
  {
    if n > 0 {
      WeightedSumWithinTotal(f, gain, lac, n - 1);
      PowNonneg(gain, n - 1);
      WeightedStep(WeightedSum(f, gain, lac, n - 1), TotalWeight(gain, n - 1), Pow(gain, n - 1), f(n - 1, Pow(lac, n - 1)));
    }
  }

  lemma DivUnit(a: real, b: real)
    requires 0.0 <= a <= b && b > 0.0
    ensures 0.0 <= a / b <= 1.0
  {
  }

  /** sum / norm after n octaves, in [0, 1]. */
  function Normalised(f: (nat, real) -> Unit, gain: real, lac: real, n: nat): (r: real)
    requires n >= 1 && gain >= 0.0
    ensures 0.0 <= r <= 1.0
  {
    var s, w := WeightedSum(f, gain, lac, n), TotalWeight(gain, n);
    WeightedSumWithinTotal(f, gain, lac, n);
    DivUnit(s, w);
    s / w
  }

  /** The octave loop of fbmPeriodic3D over a sampler f: amplitude and
      frequency start at 1 and are multiplied by gain and lacunarity after
      each octave; the result is sum / norm. */
  method OctaveLoop(f: (nat, real) -> Unit, gain: real, lac: real, octaves: nat) returns (r: real)
    requires octaves >= 1 && gain >= 0.0
    ensures r == Normalised(f, gain, lac, octaves)
    ensures 0.0 <= r <= 1.0
  {
    var amp, freq, sum, norm := 1.0, 1.0, 0.0, 0.0;
    var i := 0;
    while i < octaves
      invariant 0 <= i <= octaves
      invariant amp == Pow(gain, i) && freq == Pow(lac, i)
      invariant sum == WeightedSum(f, gain, lac, i) && norm == TotalWeight(gain, i)
    {
      sum := sum + amp * f(i, freq);
      norm := norm + amp;
      amp := amp * gain;
      freq := freq * lac;
      i := i + 1;
    }
    WeightedSumWithinTotal(f, gain, lac, octaves);
    r := sum / norm;
  }

  /** fbmPeriodic3D at a sphere point: the octave loop over valueNoise3.
      Every call passes at least four octaves and a positive gain. */
  method FbmPeriodic3D(p: FbmParams, octaves: nat) returns (r: real)
    requires octaves >= 1 && p.gain >= 0.0
    ensures r == Normalised(Sampler(p), p.gain, p.lac, octaves)
    ensures 0.0 <= r <= 1.0
  {
    r := OctaveLoop(Sampler(p), p.gain, p.lac, octaves);
  }
}
