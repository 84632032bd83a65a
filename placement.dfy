/** randomizeMoonsOffsets: each moon of a set gets a direction on a golden
    spiral around the front direction and a jittered distance from its
    planet, which is shrunk until the moon's projected quad fits on screen. */
module Placement {
  import opened Numeric
  import opened Wrappers

  /** Whether moon k's quad, at a given distance along its spiral direction,
      projects inside the padded viewport of the predicted follow camera.
      The projection goes through the camera matrices, so it is a parameter. */
  type FitTest = (nat, real) -> bool

  /** The largest number of shrink attempts per moon. */
  const ATTEMPTS: nat := 24

  /** Why the shrink loop stopped. */
  datatype Stop = Fits | NoProgress | Exhausted

  /** The distance a moon ends at, how many times it was shrunk, and why the loop stopped. */
  datatype Placed = Placed(len: real, shrinks: nat, stop: Stop)

  /** Rmid = (2.1 r + 2.2 r) / 2, jittered by the factor 0.9 + 0.2 u; the
      offset is a unit direction scaled by it, so its length is the absolute value. */
  function StartLength(r: real, u: real): real
  {
    Abs((r * 2.1 + r * 2.2) * 0.5 * (0.9 + u * 0.2))
  }

  /** The smallest distance allowed, 1.7 r. */
  function MinRadius(r: real): real
  {
    r * 1.7
  }

  /** The shrink loop with `attempts` tries left at distance len: stop when
      the quad fits; otherwise the next distance is 0.92 len but not below
      minR, and the loop stops when that is no shorter by more than 1e-6. */
  function Shrink(fits: FitTest, k: nat, len: real, minR: real, attempts: nat): Placed
    decreases attempts
  {
    if attempts == 0 then Placed(len, 0, Exhausted)
    else if fits(k, len) then Placed(len, 0, Fits)
    else
      var next := Max(minR, len * 0.92);
      if next >= len - 0.000001 then Placed(len, 0, NoProgress)
      else
        var p := Shrink(fits, k, next, minR, attempts - 1);
        p.(shrinks := p.shrinks + 1)
  }

  /** The loop never lengthens the offset and never goes below the floor
      (or the start, if that is already below it); it stops on a fitting
      quad, on a floor reached, or after shrinking once per attempt. */
  lemma {:induction false} ShrinkFacts(fits: FitTest, k: nat, len: real, minR: real, attempts: nat)
    ensures var p := Shrink(fits, k, len, minR, attempts);
      && p.shrinks <= attempts
      && Min(len, minR) <= p.len <= len
      && (p.stop == Fits ==> fits(k, p.len))
      && (p.stop == NoProgress ==> Max(minR, p.len * 0.92) >= p.len - 0.000001)
      && (p.stop == Exhausted ==> p.shrinks == attempts)
      && (p.shrinks == 0 ==> p.len == len)
    decreases attempts
  {
    if attempts > 0 && !fits(k, len) {
      var next := Max(minR, len * 0.92);
      if next < len - 0.000001 {
        ShrinkFacts(fits, k, next, minR, attempts - 1);
      }
    }
  }

  /** The while (attempts-- > 0) loop for moon k, starting at distance start. */
  method ShrinkToFit(fits: FitTest, k: nat, start: real, minR: real) returns (p: Placed)
    ensures p == Shrink(fits, k, start, minR, ATTEMPTS)
  {
    var len := start;
    var attempts := ATTEMPTS;
    ghost var budget := attempts;
    var done := 0;
    var stop := Exhausted;
    var running := true;
    while running && attempts > 0
      invariant done + attempts == budget
      invariant running ==>
        var rest := Shrink(fits, k, len, minR, attempts);
        Shrink(fits, k, start, minR, budget) == rest.(shrinks := rest.shrinks + done)
      invariant running ==> stop == Exhausted
      invariant !running ==> Shrink(fits, k, start, minR, budget) == Placed(len, done, stop)
      decreases attempts, if running then 1 else 0
    {
      if fits(k, len) {
        assert Shrink(fits, k, len, minR, attempts) == Placed(len, 0, Fits);
        stop, running := Fits, false;
      } else {
        var next := Max(minR, len * 0.92);
        if next >= len - 0.000001 {
          assert Shrink(fits, k, len, minR, attempts) == Placed(len, 0, NoProgress);
          stop, running := NoProgress, false;
        } else {
          ghost var rest := Shrink(fits, k, next, minR, attempts - 1);
          assert Shrink(fits, k, len, minR, attempts) == rest.(shrinks := rest.shrinks + 1);
          len := next;
          done := done + 1;
          attempts := attempts - 1;
        }
      }
    }
    p := Placed(len, done, stop);
  }

  /** With a positive radius and u in [0, 1) the start distance lies in
      [1.935 r, 2.365 r), above the 1.7 r floor. */
  lemma StartLengthBounds(r: real, u: real)
    requires r > 0.0 && 0.0 <= u < 1.0
    ensures r * 1.935 <= StartLength(r, u) < r * 2.365
    ensures MinRadius(r) < StartLength(r, u)
  {
    var s := (r * 2.1 + r * 2.2) * 0.5 * (0.9 + u * 0.2);
    assert s == r * 1.935 + r * u * 0.43;
    MulNonneg(r, u);
    MulNonneg(r, 1.0 - u);
    assert r * u < r by {
      assert r - r * u == r * (1.0 - u);
      if r * (1.0 - u) == 0.0 {
        assert 1.0 - u > 0.0;
      }
    }
  }

  /** Every moon of a planet with positive radius ends between 1.7 r and 2.365 r. */
  lemma PlacedWithinShell(fits: FitTest, k: nat, r: real, u: real)
    requires r > 0.0 && 0.0 <= u < 1.0
    ensures MinRadius(r) <= Shrink(fits, k, StartLength(r, u), MinRadius(r), ATTEMPTS).len < r * 2.365
    ensures Shrink(fits, k, StartLength(r, u), MinRadius(r), ATTEMPTS).shrinks <= ATTEMPTS
  {
    StartLengthBounds(r, u);
    ShrinkFacts(fits, k, StartLength(r, u), MinRadius(r), ATTEMPTS);
  }

  /** The distance moon k of a planet of radius r ends at, with random draw u. */
  function PlacedLength(fits: FitTest, k: nat, r: real, u: real): real
  {
    Shrink(fits, k, StartLength(r, u), MinRadius(r), ATTEMPTS).len
  }

  /** randomizeMoonsOffsets over the offset lengths of a set: with no host
      planet (hostR None) or no moons nothing changes; otherwise moon k gets
      the distance its shrink loop ends at, with us[k] the Math.random()
      draw taken for it. */
  method RandomizeMoonsOffsets(lengths: array<real>, hostR: Option<real>, us: seq<real>, fits: FitTest)
    requires |us| == lengths.Length
    modifies lengths
    ensures hostR.None? ==> lengths[..] == old(lengths[..])
    ensures hostR.Some? ==> forall k :: 0 <= k < lengths.Length ==> lengths[k] == PlacedLength(fits, k, hostR.value, us[k])
  {
    if hostR.None? || lengths.Length == 0 {
      return;
    }
    var r := hostR.value;
    var k := 0;
    while k < lengths.Length
      invariant 0 <= k <= lengths.Length
      invariant forall j :: 0 <= j < k ==> lengths[j] == PlacedLength(fits, j, r, us[j])
    {
      var p := ShrinkToFit(fits, k, StartLength(r, us[k]), MinRadius(r));
      lengths[k] := p.len;
      k := k + 1;
    }
  }

  /** After randomizeMoonsOffsets with draws in [0, 1), every moon of a
      planet with positive radius sits between 1.7 r and 2.365 r. */
  lemma AllPlacedWithinShell(fits: FitTest, r: real, us: seq<real>, lengths: seq<real>)
    requires r > 0.0
    requires forall k :: 0 <= k < |us| ==> 0.0 <= us[k] < 1.0
    requires |lengths| == |us|
    requires forall k :: 0 <= k < |lengths| ==> lengths[k] == PlacedLength(fits, k, r, us[k])
    ensures forall k :: 0 <= k < |lengths| ==> r * 1.7 <= lengths[k] < r * 2.365
  {
    forall k | 0 <= k < |lengths|
      ensures r * 1.7 <= lengths[k] < r * 2.365
    {
      PlacedWithinShell(fits, k, r, us[k]);
    }
  }
}
