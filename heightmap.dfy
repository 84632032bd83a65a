/** Pixel loops over RGBA byte buffers: the height (bump) map integrated
    from a tangent-space normal map, and the Earth roughness mask. */
module HeightMap {
  import opened Numeric
  import opened Wrappers

  type Byte = b: int | 0 <= b <= 255

  /** The four bytes of pixel i of an RGBA buffer. */
  datatype Pixel = Pixel(r: Byte, g: Byte, b: Byte, a: Byte)

  function PixelAt(s: seq<Byte>, i: nat): Pixel
    requires 4 * i + 3 < |s|
  {
    Pixel(s[4 * i], s[4 * i + 1], s[4 * i + 2], s[4 * i + 3])
  }

  /** Index of column x of row y in a row-major W-wide buffer. */
  function Idx(W: nat, y: nat, x: nat): nat
  {
    y * W + x
  }

  lemma MulMono(a: nat, b: nat, W: nat)
    requires a <= b
    ensures a * W <= b * W
  {
  }

  /** Every (row, column) of a W x H grid has its own index in [0, W*H). */
  lemma IdxInGrid(W: nat, H: nat, y: nat, x: nat)
    requires y < H && x < W
    ensures Idx(W, y, x) < W * H
  {
    MulMono(y + 1, H, W);
    assert (y + 1) * W == y * W + W;
    assert H * W == W * H;
  }

  /** Row a ends no later than row b starts. */
  lemma RowsOrdered(W: nat, a: nat, b: nat)
    requires a < b
    ensures a * W + W <= b * W
  {
    MulMono(a + 1, b, W);
    assert (a + 1) * W == a * W + W;
  }

  lemma IdxInjective(W: nat, y1: nat, x1: nat, y2: nat, x2: nat)
    requires x1 < W && x2 < W
    requires Idx(W, y1, x1) == Idx(W, y2, x2)
    ensures y1 == y2 && x1 == x2
  {
    if y1 < y2 {
      RowsOrdered(W, y1, y2);
    } else if y2 < y1 {
      RowsOrdered(W, y2, y1);
    }
  }

  lemma RowEnd(W: nat, y: nat)
    ensures Idx(W, y, W) == Idx(W, y + 1, 0)
  {
    assert (y + 1) * W == y * W + W;
  }

  /** A colour byte read as a normal component: (b / 255) * 2 - 1, in [-1, 1]. */
  function Component(b: Byte): (c: real)
    ensures -1.0 <= c <= 1.0
  {
    (b as real / 255.0) * 2.0 - 1.0
  }

  /** The z component of the normal, floored at 1e-3 so it can divide. */
  function Nz(b: Byte): (z: real)
    ensures 0.001 <= z <= 1.0
  {
    Max(0.001, Component(b))
  }

  /** The surface slope along x of pixel i: (nx / nz) * strength. */
  function GradX(src: seq<Byte>, i: nat, strength: real): real
    requires 4 * i + 3 < |src|
  {
    (Component(src[4 * i]) / Nz(src[4 * i + 2])) * strength
  }

  /** The surface slope along y of pixel i: (ny / nz) * strength. */
  function GradY(src: seq<Byte>, i: nat, strength: real): real
    requires 4 * i + 3 < |src|
  {
    (Component(src[4 * i + 1]) / Nz(src[4 * i + 2])) * strength
  }

  lemma MulPosLe(s: real, c: real, z: real)
    requires z > 0.0 && s * z <= c * z
    ensures s <= c
  {
  }

  lemma SlopeBound(n: real, z: real)
    requires -1.0 <= n <= 1.0 && 0.001 <= z
    ensures -1000.0 <= n / z <= 1000.0
  {
    var s := n / z;
    assert s * z == n;
    MulPosLe(s, 1000.0, z);
    MulPosLe(-1000.0, s, z);
  }

  /** Because nz is at least 1e-3, each slope is at most 1000 times the strength. */
  lemma GradBounded(src: seq<Byte>, i: nat, strength: real)
    requires 4 * i + 3 < |src| && strength >= 0.0
    ensures -1000.0 * strength <= GradX(src, i, strength) <= 1000.0 * strength
    ensures -1000.0 * strength <= GradY(src, i, strength) <= 1000.0 * strength
  {
    var z := Nz(src[4 * i + 2]);
    var sx, sy := Component(src[4 * i]) / z, Component(src[4 * i + 1]) / z;
    SlopeBound(Component(src[4 * i]), z);
    SlopeBound(Component(src[4 * i + 1]), z);
    MulNonneg(1000.0 - sx, strength);
    MulNonneg(1000.0 + sx, strength);
    MulNonneg(1000.0 - sy, strength);
    MulNonneg(1000.0 + sy, strength);
  }

  /** The gradient pass: for every pixel, the slopes nx/nz and ny/nz scaled by strength. */
  method Gradients(src: array<Byte>, W: nat, H: nat, strength: real) returns (p: array<real>, q: array<real>)
    requires src.Length == 4 * (W * H)
    ensures fresh(p) && fresh(q) && p.Length == W * H && q.Length == W * H
    ensures forall i :: 0 <= i < W * H ==> p[i] == GradX(src[..], i, strength) && q[i] == GradY(src[..], i, strength)
  {
    p := new real[W * H];
    q := new real[W * H];
    var y, i := 0, 0;
    while y < H
      invariant 0 <= y <= H && i == Idx(W, y, 0) && i <= W * H
      invariant forall k :: 0 <= k < i ==> p[k] == GradX(src[..], k, strength) && q[k] == GradY(src[..], k, strength)
    {
      var x := 0;
      while x < W
        invariant 0 <= x <= W && i == Idx(W, y, x) && i <= W * H
        invariant forall k :: 0 <= k < i ==> p[k] == GradX(src[..], k, strength) && q[k] == GradY(src[..], k, strength)
      {
        IdxInGrid(W, H, y, x);
        var nx := (src[4 * i] as real / 255.0) * 2.0 - 1.0;
        var ny := (src[4 * i + 1] as real / 255.0) * 2.0 - 1.0;
        var nz := Max(0.001, (src[4 * i + 2] as real / 255.0) * 2.0 - 1.0);
        assert nx == Component(src[..][4 * i]) && ny == Component(src[..][4 * i + 1]);
        assert nz == Nz(src[..][4 * i + 2]);
        p[i] := (nx / nz) * strength;
        q[i] := (ny / nz) * strength;
        assert p[i] == GradX(src[..], i, strength) && q[i] == GradY(src[..], i, strength);
        x, i := x + 1, i + 1;
      }
      RowEnd(W, y);
      y := y + 1;
    }
  }

  /** Hx at column x of row y: the slopes of columns 1..x of that row summed. */
  function RowSum(p: seq<real>, W: nat, y: nat, x: nat): real
    requires x < W && Idx(W, y, x) < |p|
  {
    if x == 0 then 0.0 else RowSum(p, W, y, x - 1) + p[Idx(W, y, x)]
  }

  /** Hy at row y of column x: the slopes of rows 1..y of that column summed. */
  function ColSum(q: seq<real>, W: nat, y: nat, x: nat): real
    requires x < W && Idx(W, y, x) < |q|
  {
    if y == 0 then 0.0 else ColSum(q, W, y - 1, x) + q[Idx(W, y, x)]
  }

  /** The row pass: Hx is 0 in column 0 and the running sum of the x slopes along each row. */
  method IntegrateRows(p: array<real>, W: nat, H: nat) returns (hx: array<real>)
    requires p.Length == W * H
    ensures fresh(hx) && hx.Length == W * H
    ensures forall y: nat, x: nat :: y < H && x < W ==> Idx(W, y, x) < W * H && hx[Idx(W, y, x)] == RowSum(p[..], W, y, x)
  {
    hx := new real[W * H];
    var y := 0;
    while y < H
      invariant 0 <= y <= H
      invariant forall yy: nat, xx: nat :: yy < y && xx < W ==> Idx(W, yy, xx) < W * H && hx[Idx(W, yy, xx)] == RowSum(p[..], W, yy, xx)
    {
      var h := 0.0;
      var x := 0;
      while x < W
        invariant 0 <= x <= W
        invariant forall yy: nat, xx: nat :: (yy < y && xx < W) || (yy == y && xx < x) ==>
          Idx(W, yy, xx) < W * H && hx[Idx(W, yy, xx)] == RowSum(p[..], W, yy, xx)
        invariant x == 0 ==> h == 0.0
        invariant x > 0 ==> Idx(W, y, x - 1) < W * H && h == RowSum(p[..], W, y, x - 1)
      {
        IdxInGrid(W, H, y, x);
        if x > 0 {
          h := h + p[Idx(W, y, x)];
        }
        ghost var before := hx[..];
        hx[Idx(W, y, x)] := h;
        RowWrite(before, hx[..], p[..], W, H, y, x, h);
        x := x + 1;
      }
      y := y + 1;
    }
  }

  /** The column pass: Hy is 0 in row 0 and the running sum of the y slopes down each column. */
  method IntegrateColumns(q: array<real>, W: nat, H: nat) returns (hy: array<real>)
    requires q.Length == W * H
    ensures fresh(hy) && hy.Length == W * H
    ensures forall y: nat, x: nat :: y < H && x < W ==> Idx(W, y, x) < W * H && hy[Idx(W, y, x)] == ColSum(q[..], W, y, x)
  {
    hy := new real[W * H];
    var x := 0;
    while x < W
      invariant 0 <= x <= W
      invariant forall yy: nat, xx: nat :: xx < x && yy < H ==> Idx(W, yy, xx) < W * H && hy[Idx(W, yy, xx)] == ColSum(q[..], W, yy, xx)
    {
      var h := 0.0;
      var y := 0;
      while y < H
        invariant 0 <= y <= H
        invariant forall yy: nat, xx: nat :: (xx < x && yy < H) || (xx == x && yy < y) ==>
          Idx(W, yy, xx) < W * H && hy[Idx(W, yy, xx)] == ColSum(q[..], W, yy, xx)
        invariant y == 0 ==> h == 0.0
        invariant y > 0 ==> Idx(W, y - 1, x) < W * H && h == ColSum(q[..], W, y - 1, x)
      {
        IdxInGrid(W, H, y, x);
        if y > 0 {
          h := h + q[Idx(W, y, x)];
        }
        ghost var before := hy[..];
        hy[Idx(W, y, x)] := h;
        ColumnWrite(before, hy[..], q[..], W, H, y, x, h);
        y := y + 1;
      }
      x := x + 1;
    }
  }

  /** Writing Hx for column x of row y keeps every cell written before it:
      row by row, each row from the left. */
  lemma RowWrite(before: seq<real>, after: seq<real>, p: seq<real>, W: nat, H: nat, y: nat, x: nat, h: real)
    requires |before| == W * H && |p| == W * H && y < H && x < W && Idx(W, y, x) < W * H
    requires after == before[Idx(W, y, x) := h] && h == RowSum(p, W, y, x)
    requires forall yy: nat, xx: nat :: (yy < y && xx < W) || (yy == y && xx < x) ==>
      Idx(W, yy, xx) < W * H && before[Idx(W, yy, xx)] == RowSum(p, W, yy, xx)
    ensures forall yy: nat, xx: nat :: (yy < y && xx < W) || (yy == y && xx <= x) ==>
      Idx(W, yy, xx) < W * H && after[Idx(W, yy, xx)] == RowSum(p, W, yy, xx)
  {
    forall yy: nat, xx: nat | (yy < y && xx < W) || (yy == y && xx <= x)
      ensures Idx(W, yy, xx) < W * H && after[Idx(W, yy, xx)] == RowSum(p, W, yy, xx)
    {
      if (yy != y || xx != x) && Idx(W, yy, xx) == Idx(W, y, x) {
        IdxInjective(W, yy, xx, y, x);
      }
    }
  }

  /** Writing Hy for row y of column x keeps every cell written before it:
      column by column, each column from the top. */
  lemma ColumnWrite(before: seq<real>, after: seq<real>, q: seq<real>, W: nat, H: nat, y: nat, x: nat, h: real)
    requires |before| == W * H && |q| == W * H && y < H && x < W && Idx(W, y, x) < W * H
    requires after == before[Idx(W, y, x) := h] && h == ColSum(q, W, y, x)
    requires forall yy: nat, xx: nat :: (xx < x && yy < H) || (xx == x && yy < y) ==>
      Idx(W, yy, xx) < W * H && before[Idx(W, yy, xx)] == ColSum(q, W, yy, xx)
    ensures forall yy: nat, xx: nat :: (xx < x && yy < H) || (xx == x && yy <= y) ==>
      Idx(W, yy, xx) < W * H && after[Idx(W, yy, xx)] == ColSum(q, W, yy, xx)
  {
    forall yy: nat, xx: nat | (xx < x && yy < H) || (xx == x && yy <= y)
      ensures Idx(W, yy, xx) < W * H && after[Idx(W, yy, xx)] == ColSum(q, W, yy, xx)
    {
      if (yy != y || xx != x) && Idx(W, yy, xx) == Idx(W, y, x) {
        IdxInjective(W, yy, xx, y, x);
      }
    }
  }

  /** A row of equal slopes c integrates to the ramp c * x. */
  lemma {:induction false} RowSumOfConstantSlope(p: seq<real>, W: nat, y: nat, x: nat, c: real)
    requires x < W && Idx(W, y, x) < |p|
    requires forall k :: 1 <= k <= x ==> p[Idx(W, y, k)] == c
    ensures RowSum(p, W, y, x) == c * x as real
  {
    if x > 0 {
      RowSumOfConstantSlope(p, W, y, x - 1, c);
    }
  }

  /** Heights along a row differ by exactly the slope between them:
      the integration is undone by differencing. */
  lemma {:induction false} RowSumDifference(p: seq<real>, W: nat, y: nat, x1: nat, x2: nat)
    requires x1 <= x2 < W && Idx(W, y, x2) < |p|
    ensures RowSum(p, W, y, x2) - RowSum(p, W, y, x1) == SliceSum(p, Idx(W, y, x1) + 1, Idx(W, y, x2) + 1)
  {
    if x1 < x2 {
      RowSumDifference(p, W, y, x1, x2 - 1);
      SliceSumSnoc(p, Idx(W, y, x1) + 1, Idx(W, y, x2));
    }
  }

  /** The sum of p[lo..hi]. */
  function SliceSum(p: seq<real>, lo: nat, hi: nat): real
    requires lo <= hi <= |p|
    decreases hi - lo
  {
    if lo == hi then 0.0 else p[lo] + SliceSum(p, lo + 1, hi)
  }

  lemma {:induction false} SliceSumSnoc(p: seq<real>, lo: nat, hi: nat)
    requires lo <= hi < |p|
    ensures SliceSum(p, lo, hi + 1) == SliceSum(p, lo, hi) + p[hi]
    decreases hi - lo
  {
    if lo < hi {
      SliceSumSnoc(p, lo + 1, hi);
    }
  }

  /** The height of pixel i: the mean of the two integrations. */
  function Height(hx: seq<real>, hy: seq<real>, i: nat): real
    requires i < |hx| && i < |hy|
  {
    0.5 * (hx[i] + hy[i])
  }

  /** The min/max pass: the least and the greatest height, each attained by
      some pixel. The source starts from +/-Infinity; the first pixel replaces
      both, so starting from the first pixel gives the same pair. */
  method HeightRange(hx: array<real>, hy: array<real>) returns (minV: real, maxV: real)
    requires hx.Length == hy.Length > 0
    ensures forall i :: 0 <= i < hx.Length ==> minV <= Height(hx[..], hy[..], i) <= maxV
    ensures exists i :: 0 <= i < hx.Length && Height(hx[..], hy[..], i) == minV
    ensures exists i :: 0 <= i < hx.Length && Height(hx[..], hy[..], i) == maxV
  {
    minV := 0.5 * (hx[0] + hy[0]);
    maxV := minV;
    assert Height(hx[..], hy[..], 0) == minV;
    var i := 1;
    while i < hx.Length
      invariant 1 <= i <= hx.Length
      invariant forall k :: 0 <= k < i ==> minV <= Height(hx[..], hy[..], k) <= maxV
      invariant exists k :: 0 <= k < i && Height(hx[..], hy[..], k) == minV
      invariant exists k :: 0 <= k < i && Height(hx[..], hy[..], k) == maxV
    {
      var v := 0.5 * (hx[i] + hy[i]);
      assert v == Height(hx[..], hy[..], i);
      if v < minV {
        minV := v;
      }
      if v > maxV {
        maxV := v;
      }
      i := i + 1;
    }
  }

  /** The grey level of a height: its position in [minV, minV + range],
      scaled to 255, clamped and rounded. */
  function Gray(v: real, minV: real, range: real): Byte
    requires range > 0.0
  {
    var t := (v - minV) / range;
    Round(Min(255.0, Max(0.0, t * 255.0)))
  }

  /** The lowest height becomes black. */
  lemma GrayOfMinimum(minV: real, range: real)
    requires range > 0.0
    ensures Gray(minV, minV, range) == 0
  {
  }

  /** When the heights span at least 1e-6 the highest becomes white. */
  lemma GrayOfMaximum(minV: real, maxV: real)
    requires maxV - minV >= 0.000001
    ensures Gray(maxV, minV, Max(0.000001, maxV - minV)) == 255
  {
    var range := Max(0.000001, maxV - minV);
    assert range == maxV - minV;
    assert (maxV - minV) / range == 1.0;
    RoundOfInt(255);
  }

  /** Higher ground is never darker. */
  lemma GrayMonotone(v1: real, v2: real, minV: real, range: real)
    requires range > 0.0 && v1 <= v2
    ensures Gray(v1, minV, range) <= Gray(v2, minV, range)
  {
    var t1, t2 := (v1 - minV) / range, (v2 - minV) / range;
    assert t1 <= t2 by {
      assert t2 - t1 == (v2 - v1) / range;
    }
    RoundMono(Min(255.0, Max(0.0, t1 * 255.0)), Min(255.0, Max(0.0, t2 * 255.0)));
  }

  /** The output pass: every pixel is the opaque grey of its height. */
  method Quantise(hx: array<real>, hy: array<real>, minV: real, maxV: real) returns (out: array<Byte>)
    requires hx.Length == hy.Length
    ensures fresh(out) && out.Length == 4 * hx.Length
    ensures forall i :: 0 <= i < hx.Length ==>
      var g := Gray(Height(hx[..], hy[..], i), minV, Max(0.000001, maxV - minV));
      PixelAt(out[..], i) == Pixel(g, g, g, 255)
  {
    out := new Byte[4 * hx.Length];
    var range := Max(0.000001, maxV - minV);
    var i := 0;
    while i < hx.Length
      invariant 0 <= i <= hx.Length
      invariant forall k :: 0 <= k < i ==>
        var g := Gray(Height(hx[..], hy[..], k), minV, range);
        PixelAt(out[..], k) == Pixel(g, g, g, 255)
    {
      var t := (0.5 * (hx[i] + hy[i]) - minV) / range;
      var g := Round(Min(255.0, Max(0.0, t * 255.0)));
      assert g == Gray(Height(hx[..], hy[..], i), minV, range);
      var j := i * 4;
      out[j] := g;
      out[j + 1] := g;
      out[j + 2] := g;
      out[j + 3] := 255;
      assert PixelAt(out[..], i) == Pixel(g, g, g, 255);
      i := i + 1;
    }
  }

  /** The x slopes of every pixel of an n-pixel image, as the gradient pass fills pGrad. */
  function SlopesX(src: seq<Byte>, n: nat, strength: real): (p: seq<real>)
    requires |src| == 4 * n
    ensures |p| == n
  {
    seq(n, i requires 0 <= i < n => GradX(src, i, strength))
  }

  /** The y slopes of every pixel of an n-pixel image, as the gradient pass fills qGrad. */
  function SlopesY(src: seq<Byte>, n: nat, strength: real): (q: seq<real>)
    requires |src| == 4 * n
    ensures |q| == n
  {
    seq(n, i requires 0 <= i < n => GradY(src, i, strength))
  }

  /** The height the normal map src gives the pixel in row y, column x: the
      mean of the x slopes summed along its row and the y slopes summed down
      its column. */
  function SurfaceHeight(src: seq<Byte>, W: nat, H: nat, strength: real, y: nat, x: nat): real
    requires |src| == 4 * (W * H) && y < H && x < W
  {
    IdxInGrid(W, H, y, x);
    0.5 * (RowSum(SlopesX(src, W * H, strength), W, y, x) + ColSum(SlopesY(src, W * H, strength), W, y, x))
  }

  /** minH and maxH are the least and the greatest surface height of the
      image, each attained by some pixel. */
  ghost predicate HeightExtremes(src: seq<Byte>, W: nat, H: nat, strength: real, minH: real, maxH: real)
    requires |src| == 4 * (W * H)
  {
    && (forall y: nat, x: nat :: y < H && x < W ==> minH <= SurfaceHeight(src, W, H, strength, y, x) <= maxH)
    && (exists y: nat, x: nat :: y < H && x < W && SurfaceHeight(src, W, H, strength, y, x) == minH)
    && (exists y: nat, x: nat :: y < H && x < W && SurfaceHeight(src, W, H, strength, y, x) == maxH)
  }

  /** Every pixel of out, in row y and column x, is the opaque grey of the
      surface height of that cell within [minH, maxH]. */
  ghost predicate GreyOfHeights(src: seq<Byte>, W: nat, H: nat, strength: real, out: seq<Byte>, minH: real, maxH: real)
    requires |src| == 4 * (W * H) && |out| == 4 * (W * H)
  {
    forall y: nat, x: nat :: y < H && x < W ==>
      var g := Gray(SurfaceHeight(src, W, H, strength, y, x), minH, Max(0.000001, maxH - minH));
      Idx(W, y, x) < W * H && PixelAt(out, Idx(W, y, x)) == Pixel(g, g, g, 255)
  }

  /** Every index of a W x H grid is the index of some (row, column). */
  lemma GridCell(W: nat, H: nat, i: nat) returns (y: nat, x: nat)
    requires i < W * H
    ensures y < H && x < W && Idx(W, y, x) == i
  {
    y, x := i / W, i % W;
    if y >= H {
      MulMono(H, y, W);
    }
  }

  /** The least and greatest height over the flat pixel indices are the
      extremes of the surface heights over the grid, when each index holds
      the surface height of its cell. */
  lemma ExtremesFromIndices(src: seq<Byte>, W: nat, H: nat, strength: real, hx: seq<real>, hy: seq<real>, minV: real, maxV: real)
    requires |src| == 4 * (W * H) && |hx| == W * H && |hy| == W * H
    requires forall y: nat, x: nat :: y < H && x < W ==>
      Idx(W, y, x) < W * H && Height(hx, hy, Idx(W, y, x)) == SurfaceHeight(src, W, H, strength, y, x)
    requires forall i :: 0 <= i < |hx| ==> minV <= Height(hx, hy, i) <= maxV
    requires exists i :: 0 <= i < |hx| && Height(hx, hy, i) == minV
    requires exists i :: 0 <= i < |hx| && Height(hx, hy, i) == maxV
    ensures HeightExtremes(src, W, H, strength, minV, maxV)
  {
    var k :| 0 <= k < |hx| && Height(hx, hy, k) == minV;
    var ky, kx := GridCell(W, H, k);
    var j :| 0 <= j < |hx| && Height(hx, hy, j) == maxV;
    var jy, jx := GridCell(W, H, j);
    assert SurfaceHeight(src, W, H, strength, ky, kx) == minV;
    assert SurfaceHeight(src, W, H, strength, jy, jx) == maxV;
  }

  /** The passes compute the surface height: with p and q the slopes of
      src and hx, hy their row and column sums, each cell's height is its
      surface height. */
  lemma HeightsFromPasses(src: seq<Byte>, W: nat, H: nat, strength: real, p: seq<real>, q: seq<real>, hx: seq<real>, hy: seq<real>)
    requires |src| == 4 * (W * H) && |p| == W * H && |q| == W * H && |hx| == W * H && |hy| == W * H
    requires forall i :: 0 <= i < W * H ==> p[i] == GradX(src, i, strength) && q[i] == GradY(src, i, strength)
    requires forall y: nat, x: nat :: y < H && x < W ==> Idx(W, y, x) < W * H && hx[Idx(W, y, x)] == RowSum(p, W, y, x)
    requires forall y: nat, x: nat :: y < H && x < W ==> Idx(W, y, x) < W * H && hy[Idx(W, y, x)] == ColSum(q, W, y, x)
    ensures forall y: nat, x: nat :: y < H && x < W ==>
      Idx(W, y, x) < W * H && Height(hx, hy, Idx(W, y, x)) == SurfaceHeight(src, W, H, strength, y, x)
  {
    assert p == SlopesX(src, W * H, strength);
    assert q == SlopesY(src, W * H, strength);
  }

  /** Quantised pixels by flat index are the greys of the surface heights by cell. */
  lemma PixelsFromHeights(src: seq<Byte>, W: nat, H: nat, strength: real, hx: seq<real>, hy: seq<real>, out: seq<Byte>, minV: real, maxV: real)
    requires |src| == 4 * (W * H) && |hx| == W * H && |hy| == W * H && |out| == 4 * (W * H)
    requires forall y: nat, x: nat :: y < H && x < W ==>
      Idx(W, y, x) < W * H && Height(hx, hy, Idx(W, y, x)) == SurfaceHeight(src, W, H, strength, y, x)
    requires forall i :: 0 <= i < |hx| ==>
      var g := Gray(Height(hx, hy, i), minV, Max(0.000001, maxV - minV));
      PixelAt(out, i) == Pixel(g, g, g, 255)
    ensures GreyOfHeights(src, W, H, strength, out, minV, maxV)
  {
  }

  /** normalToHeightTexture's pixel pipeline: no texture when the image has
      no width or height; otherwise an opaque grey image of the same size in
      which every pixel is the grey of its surface height within the range
      [minH, maxH] of all heights, so the lowest pixel is black (and the
      highest white when the heights span at least 1e-6). The extremes are
      returned for the contract only. */
  method NormalToHeight(src: array<Byte>, W: nat, H: nat, strength: real)
    returns (res: Option<array<Byte>>, ghost minH: real, ghost maxH: real)
    requires src.Length == 4 * (W * H)
    ensures W == 0 || H == 0 <==> res.None?
    ensures res.Some? ==> fresh(res.value) && res.value.Length == 4 * (W * H)
    ensures res.Some? ==> HeightExtremes(src[..], W, H, strength, minH, maxH)
    ensures res.Some? ==> GreyOfHeights(src[..], W, H, strength, res.value[..], minH, maxH)
    ensures res.Some? ==> exists i :: 0 <= i < W * H && PixelAt(res.value[..], i) == Pixel(0, 0, 0, 255)
  {
    if W == 0 || H == 0 {
      return None, 0.0, 0.0;
    }
    IdxInGrid(W, H, 0, 0);
    var p, q := Gradients(src, W, H, strength);
    var hx := IntegrateRows(p, W, H);
    var hy := IntegrateColumns(q, W, H);
    HeightsFromPasses(src[..], W, H, strength, p[..], q[..], hx[..], hy[..]);
    var minV, maxV := HeightRange(hx, hy);
    var out := Quantise(hx, hy, minV, maxV);
    minH, maxH := minV, maxV;
    ExtremesFromIndices(src[..], W, H, strength, hx[..], hy[..], minV, maxV);
    PixelsFromHeights(src[..], W, H, strength, hx[..], hy[..], out[..], minV, maxV);
    var k :| 0 <= k < hx.Length && Height(hx[..], hy[..], k) == minV;
    GrayOfMinimum(minV, Max(0.000001, maxV - minV));
    assert PixelAt(out[..], k) == Pixel(0, 0, 0, 255);
    res := Some(out);
  }

  /** The roughness byte of the water mask: round(255 * 0.15) for bright
      (water) pixels, round(255 * 0.92) for land. */
  function Roughness(lum: real): (v: Byte)
    ensures lum > 0.5 ==> v == 38
    ensures lum <= 0.5 ==> v == 235
  {
    Round(255.0 * (if lum > 0.5 then 0.15 else 0.92))
  }

  /** Rec. 601 luma of a pixel, scaled to [0, 1]. */
  function Luma(px: Pixel): (l: real)
    ensures 0.0 <= l <= 1.0
  {
    (0.299 * px.r as real + 0.587 * px.g as real + 0.114 * px.b as real) / 255.0
  }

  /** The Earth roughness mask: every pixel becomes the opaque grey roughness
      of its luma. */
  method WaterMask(src: array<Byte>) returns (out: array<Byte>)
    requires src.Length % 4 == 0
    ensures fresh(out) && out.Length == src.Length
    ensures forall k :: 0 <= k < src.Length / 4 ==>
      var v := Roughness(Luma(PixelAt(src[..], k)));
      PixelAt(out[..], k) == Pixel(v, v, v, 255)
  {
    out := new Byte[src.Length];
    var i := 0;
    while i < src.Length
      invariant 0 <= i <= src.Length && i % 4 == 0
      invariant forall k :: 0 <= k < i / 4 ==>
        var v := Roughness(Luma(PixelAt(src[..], k)));
        PixelAt(out[..], k) == Pixel(v, v, v, 255)
    {
      var r, g, b := src[i], src[i + 1], src[i + 2];
      var lum := (0.299 * r as real + 0.587 * g as real + 0.114 * b as real) / 255.0;
      var v := Round(255.0 * (if lum > 0.5 then 0.15 else 0.92));
      assert v == Roughness(Luma(PixelAt(src[..], i / 4)));
      out[i] := v;
      out[i + 1] := v;
      out[i + 2] := v;
      out[i + 3] := 255;
      assert PixelAt(out[..], i / 4) == Pixel(v, v, v, 255);
      i := i + 4;
    }
  }
}
