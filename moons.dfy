/** The moons of a planet (its project or publication sprites): showing and
    hiding them, the entry animation that brings them in on one orbit
    around the planet before settling each on its own offset, and the
    per-set settle sequencer.

    Positions are kept in cylinder coordinates around the planet's y axis:
    an angle in the xz plane, the distance from the axis and the height.
    The direction dirFromAngle(angle) and atan2 stay abstract: an offset
    carries the atan2 angle of its planar part. */
module Moons {
  import opened Numeric
  import opened Wrappers
  import opened SettleOrder

  datatype Pos = Pos(angle: real, planeR: real, y: real)

  /** A moon's target offset: the atan2 angle of its xz part, the length of
      that part, its height and its full length. */
  datatype Offset = Offset(angle: real, planeR: real, y: real, len: real)

  /** The three animation phases; Orbit is the legacy phase nothing assigns. */
  datatype Phase = EntryOrbit | Orbit | Settle

  /** userData.anim. The settle fields are written when the settle phase begins. */
  datatype Anim = Anim(
    phase: Phase,
    startTime: real,
    orbitStartAngle: real,
    orbitEndAngle: real,
    targetAngle: real,
    targetPlaneR: real,
    targetY: real,
    targetR: real,
    startR: real,
    settleStartTime: real,
    settleStartAngle: Option<real>,
    settleStartPlaneR: Option<real>,
    settleStartY: Option<real>)

  /** One moon sprite: visibility, the opacity its material is at or is
      being tweened to, the fade and freeze flags, its animation, its
      target offset and its position. */
  datatype Sprite = Sprite(
    visible: bool,
    opacity: real,
    fadeStarted: bool,
    freezePos: bool,
    anim: Option<Anim>,
    offset: Option<Offset>,
    pos: Pos)

  /** The planet the set belongs to, with its spec.r if any. */
  datatype Host = Host(specR: Option<real>)

  const ENTRY_DUR: real := 800.0
  const SETTLE_DUR: real := 600.0

  /** spec.r || 12. */
  function PlanetR(h: Host): (r: real)
    ensures r != 0.0
    ensures h.specR.Some? && h.specR.value != 0.0 ==> r == h.specR.value
  {
    if h.specR.Some? && h.specR.value != 0.0 then h.specR.value else 12.0
  }

  /** Start time offset of moon i of n: the n moons start evenly over the
      entry duration. */
  function Delay(i: nat, n: nat): real
  {
    (i as real / (if n >= 1 then n else 1) as real) * ENTRY_DUR
  }

  /** Every moon starts within the entry duration, the first at once. */
  lemma DelayBounds(i: nat, n: nat)
    ensures i < n ==> 0.0 <= Delay(i, n) < ENTRY_DUR
    ensures i == 0 ==> Delay(i, n) == 0.0
  {
    if i < n {
      var q := i as real / n as real;
      assert q < 1.0 by {
        assert q * n as real == i as real;
      }
    }
  }

  /** Later moons never start earlier. */
  lemma DelayMonotone(i: nat, j: nat, n: nat)
    requires i <= j
    ensures Delay(i, n) <= Delay(j, n)
  {
    var d := (if n >= 1 then n else 1) as real;
    assert i as real / d <= j as real / d;
  }

  /** The fallback target (0, 0, 2.2 planetR) for a moon without an offset:
      on the z axis, so at angle +-PI/2. */
  function FallbackOffset(planetR: real): Offset
  {
    Offset(if planetR >= 0.0 then PI / 2.0 else -PI / 2.0, Abs(planetR * 2.2), 0.0, Abs(planetR * 2.2))
  }

  function Target(s: Sprite, planetR: real): Offset
  {
    if s.offset.Some? then s.offset.value else FallbackOffset(planetR)
  }

  /** atan2 of the planar target direction, which is (1, 0, 0) when the
      planar part is too short (squared length at most 1e-6). */
  function TargetAngle(o: Offset): real
  {
    if o.planeR * o.planeR > 0.000001 then o.angle else 0.0
  }

  /** The angle the settle order sorts by: the target angle brought into [0, TAU). */
  function SortAngle(s: Sprite, planetR: real): (a: real)
    ensures 0.0 <= a < TAU
  {
    NormalizeAngle(TargetAngle(Target(s, planetR)))
  }

  /** The sort keys of a whole set, by moon index. */
  function SortAngles(sprites: seq<Sprite>, planetR: real): (keys: seq<real>)
    ensures |keys| == |sprites|
    ensures forall i :: 0 <= i < |sprites| ==> keys[i] == SortAngle(sprites[i], planetR)
  {
    if sprites == [] then []
    else SortAngles(sprites[..|sprites| - 1], planetR) + [SortAngle(sprites[|sprites| - 1], planetR)]
  }

  /** The entry animation record startMoonsEntryAnimation gives moon i of n. */
  function EntryAnim(s: Sprite, i: nat, n: nat, now: real, planetR: real, startAngle: real): (a: Anim)
    ensures a.phase == EntryOrbit
    ensures a.orbitEndAngle == a.orbitStartAngle + TAU
    ensures a.startR == 2.2 * planetR
    ensures i < n ==> now <= a.startTime < now + ENTRY_DUR
  {
    DelayBounds(i, n);
    var target := Target(s, planetR);
    Anim(EntryOrbit, now + Delay(i, n), startAngle, startAngle + TAU,
         TargetAngle(target), target.planeR, target.y, target.len, planetR * 2.2,
         0.0, None, None, None)
  }

  /** The sprite after its entry setup: the new anim, placed behind the
      planet at the orbit radius. */
  function EntrySprite(s: Sprite, i: nat, n: nat, now: real, planetR: real, startAngle: real): Sprite
  {
    s.(anim := Some(EntryAnim(s, i, n, now, planetR, startAngle)), pos := Pos(startAngle, planetR * 2.2, 0.0))
  }

  /** showMoons' per-sprite reset: visible, unfrozen, transparent, fade not yet started. */
  function Reveal(s: Sprite): Sprite
  {
    s.(visible := true, freezePos := false, opacity := 0.0, fadeStarted := false)
  }

  /** hideMoons' per-sprite step: animation cancelled, position frozen, fade
      flag cleared, material tweened to opacity 0 (the sprite becomes
      invisible when that tween completes). */
  function Conceal(s: Sprite): (r: Sprite)
    ensures r.freezePos && r.anim.None? && !r.fadeStarted && r.opacity == 0.0
    ensures r.pos == s.pos && r.offset == s.offset && r.visible == s.visible
  {
    s.(anim := None, freezePos := true, fadeStarted := false, opacity := 0.0)
  }

  /** The settle-phase start slope: the orbit's angular speed over the
      settle duration, relative to the angle still to cover, clamped to 1 in
      magnitude and signed like delta. */
  function SettleSlope(a: Anim, delta: real): (v: real)
    ensures -1.0 <= v <= 1.0
    ensures delta > 0.0 ==> v >= 0.0
    ensures delta < 0.0 ==> v <= 0.0
  {
    var omegaEntry := (a.orbitEndAngle - a.orbitStartAngle) / Max(1.0, ENTRY_DUR);
    var raw := (omegaEntry * SETTLE_DUR) / Max(0.001, Abs(delta));
    Sign(delta) * Min(1.0, Abs(raw))
  }

  /** The settle curve never passes 1 for a start slope of magnitude at most 1. */
  lemma Hermite01AtMostOne(t: real, m0: real)
    requires -1.0 <= m0 <= 1.0
    ensures Hermite01(t, m0, 0.0) <= 1.0
  {
    var c := Clamp01(t);
    Hermite01Factored(c, m0);
    assert Hermite01(t, m0, 0.0) == Hermite01(c, m0, 0.0);
    assert 1.0 - Hermite01(c, m0, 0.0) == (1.0 - c) * (1.0 - c) * (1.0 + 2.0 * c - m0 * c);
    MulNonneg(1.0 - c, 1.0 - c);
    MulNonneg(1.0 - m0, c);
    MulNonneg((1.0 - c) * (1.0 - c), 1.0 + 2.0 * c - m0 * c);
  }

  /** The outcome of one frame for one sprite: its new state and whether it
      finished settling (which releases the sequencer). */
  datatype Stepped = Stepped(sprite: Sprite, released: bool)

  /** The angle the settle phase starts from. */
  function SettleStartAngle(a: Anim): real
  {
    if a.settleStartAngle.Some? then a.settleStartAngle.value else a.orbitEndAngle
  }

  /** The signed angle the settle phase covers: the shortest way to the target. */
  function SettleDelta(a: Anim): real
  {
    AngleDiffShortest(SettleStartAngle(a), a.targetAngle)
  }

  /** The settle angle at progress t: the start angle plus delta scaled by
      the Hermite curve whose start slope matches the orbit. */
  function SettleAngle(a: Anim, t: real): real
  {
    CurveAngle(SettleStartAngle(a), SettleDelta(a), SettleSlope(a, SettleDelta(a)), t)
  }

  /** The angle start + delta * hermite01(t, v, 0). */
  function CurveAngle(start: real, delta: real, v: real, t: real): real
  {
    start + delta * Hermite01(t, v, 0.0)
  }

  /** The settle position at progress t: planar radius and height eased out
      from their start values to the target's. */
  function SettlePos(a: Anim, t: real): Pos
  {
    var kPos := EaseOutCubic(t);
    Pos(SettleAngle(a, t),
        Lerp(if a.settleStartPlaneR.Some? then a.settleStartPlaneR.value else a.targetPlaneR, a.targetPlaneR, kPos),
        Lerp(if a.settleStartY.Some? then a.settleStartY.value else 0.0, a.targetY, kPos))
  }

  /** The settle phase at time now. */
  function SettleStep(s: Sprite, a: Anim, now: real): Stepped
  {
    var t := Min(1.0, (now - a.settleStartTime) / SETTLE_DUR);
    if t >= 1.0 then
      var snapped := if s.offset.Some? then Pos(s.offset.value.angle, s.offset.value.planeR, s.offset.value.y) else SettlePos(a, t);
      Stepped(s.(pos := snapped, anim := None), true)
    else
      Stepped(s.(pos := SettlePos(a, t)), false)
  }

  /** The entry orbit at time now (tNow = now - startTime > 0): one turn at
      constant angular speed at radius startR, switching to settle at its end. */
  function EntryOrbitStep(s: Sprite, a: Anim, now: real): Stepped
  {
    var t := Min(1.0, (now - a.startTime) / ENTRY_DUR);
    var angle := Lerp(a.orbitStartAngle, a.orbitEndAngle, t);
    var pos := Pos(angle, a.startR, 0.0);
    if t >= 1.0 then
      Stepped(s.(pos := pos, anim := Some(a.(phase := Settle, settleStartTime := now, settleStartAngle := Some(angle),
                                            settleStartPlaneR := Some(a.startR), settleStartY := Some(0.0)))), false)
    else
      Stepped(s.(pos := pos), false)
  }

  /** updateMoonPositions for one sprite at time now. */
  function Step(s: Sprite, now: real): Stepped
  {
    if s.freezePos then Stepped(s, false)
    else if s.anim.Some? then
      var a := s.anim.value;
      var tNow := now - a.startTime;
      var s1 := if tNow > 0.0 && !s.fadeStarted then s.(fadeStarted := true, opacity := 1.0) else s;
      if tNow <= 0.0 then Stepped(s1.(pos := Pos(a.orbitStartAngle, a.startR, 0.0)), false)
      else if a.phase == EntryOrbit then EntryOrbitStep(s1, a, now)
      else if a.phase == Orbit then
        Stepped(s1.(pos := Pos(a.orbitEndAngle, a.targetPlaneR, 0.0)), false)
      else SettleStep(s1, a, now)
    else if s.offset.Some? then
      Stepped(s.(pos := Pos(s.offset.value.angle, s.offset.value.planeR, s.offset.value.y)), false)
    else Stepped(s, false)
  }

  /** A frozen sprite is never moved or changed. */
  lemma FrozenStaysPut(s: Sprite, now: real)
    requires s.freezePos
    ensures Step(s, now) == Stepped(s, false)
  {
  }

  /** During the entry orbit the moon stays exactly at the orbit radius,
      at height 0, and the orbit is not over before entryDur. */
  lemma EntryOrbitKeepsRadius(s: Sprite, now: real)
    requires !s.freezePos && s.anim.Some? && s.anim.value.phase == EntryOrbit
    ensures Step(s, now).sprite.pos.planeR == s.anim.value.startR
    ensures Step(s, now).sprite.pos.y == 0.0
    ensures now - s.anim.value.startTime < ENTRY_DUR ==> Step(s, now).sprite.anim == s.anim
    ensures !Step(s, now).released
  {
  }

  /** At the end of the orbit the moon switches to settle from where it is:
      angle orbitEndAngle, radius startR, height 0. */
  lemma EntryOrbitHandsOver(s: Sprite, now: real)
    requires !s.freezePos && s.anim.Some? && s.anim.value.phase == EntryOrbit
    requires now - s.anim.value.startTime >= ENTRY_DUR
    ensures var r := Step(s, now).sprite;
      && r.anim.Some? && r.anim.value.phase == Settle
      && r.anim.value.settleStartTime == now
      && r.anim.value.settleStartAngle == Some(s.anim.value.orbitEndAngle)
      && r.anim.value.settleStartPlaneR == Some(s.anim.value.startR)
      && r.anim.value.settleStartY == Some(0.0)
      && r.pos == Pos(s.anim.value.orbitEndAngle, s.anim.value.startR, 0.0)
  {
    var a := s.anim.value;
    assert (now - a.startTime) / ENTRY_DUR >= 1.0;
  }

  /** At progress 0 the settle angle is its start angle, whatever the slope. */
  lemma SettleAngleAtStart(a: Anim)
    ensures SettleAngle(a, 0.0) == SettleStartAngle(a)
  {
    var delta := SettleDelta(a);
    var v := SettleSlope(a, delta);
    Hermite01Ends(0.0, v, 0.0);
    MulZero(delta, Hermite01(0.0, v, 0.0));
  }

  lemma MulZero(x: real, y: real)
    requires y == 0.0
    ensures x * y == 0.0
  {
  }

  /** The settle phase begins where the orbit left the moon: at progress
      0 the moon is at the settle start (no jump). */
  lemma SettleStartsInPlace(a: Anim)
    requires a.settleStartAngle.Some? && a.settleStartPlaneR.Some? && a.settleStartY.Some?
    ensures SettlePos(a, 0.0) == Pos(a.settleStartAngle.value, a.settleStartPlaneR.value, a.settleStartY.value)
  {
    SettleAngleAtStart(a);
    assert EaseOutCubic(0.0) == 0.0;
  }

  /** A settle step at or after settleDur snaps the moon onto its offset,
      drops the animation and releases the sequencer. */
  lemma SettleFinishes(s: Sprite, now: real)
    requires !s.freezePos && s.anim.Some? && s.anim.value.phase == Settle
    requires now - s.anim.value.startTime > 0.0
    requires now - s.anim.value.settleStartTime >= SETTLE_DUR
    ensures Step(s, now).released && Step(s, now).sprite.anim.None?
    ensures s.offset.Some? ==> Step(s, now).sprite.pos == Pos(s.offset.value.angle, s.offset.value.planeR, s.offset.value.y)
  {
    assert (now - s.anim.value.settleStartTime) / SETTLE_DUR >= 1.0;
  }

  /** While settling the angle never passes the target: it moves from the
      start angle by at most delta, the shortest difference to the target.
      With delta positive it also never falls behind the start; with delta
      negative the start slope still points the way the orbit turned, so
      the moon may first swing forward before it turns back, and only the
      target side is bounded. */
  lemma SettleNoOvershoot(a: Anim, t: real)
    ensures var start, delta := SettleStartAngle(a), SettleDelta(a);
      && (delta >= 0.0 ==> start <= SettleAngle(a, t) <= start + delta)
      && (delta < 0.0 ==> start + delta <= SettleAngle(a, t))
  {
    var delta := SettleDelta(a);
    CurveAngleWithin(SettleStartAngle(a), delta, SettleSlope(a, delta), t);
  }

  /** With a start slope v of magnitude at most 1, signed like delta, the
      curve angle stays on the near side of start + delta, and behind start
      only when delta is negative. */
  lemma CurveAngleWithin(start: real, delta: real, v: real, t: real)
    requires -1.0 <= v <= 1.0
    requires delta > 0.0 ==> v >= 0.0
    ensures delta >= 0.0 ==> start <= CurveAngle(start, delta, v, t) <= start + delta
    ensures delta < 0.0 ==> start + delta <= CurveAngle(start, delta, v, t)
  {
    var h := Hermite01(t, v, 0.0);
    Hermite01AtMostOne(t, v);
    if delta > 0.0 {
      Hermite01Bounded(t, v);
      MulNonneg(delta, h);
      MulNonneg(delta, 1.0 - h);
    } else if delta < 0.0 {
      MulNonneg(-delta, 1.0 - h);
    }
  }

  /** Once the fade has started it stays started while the sprite animates. */
  lemma FadeStartsOnce(s: Sprite, now: real)
    requires s.fadeStarted
    ensures Step(s, now).sprite.fadeStarted
  {
  }

  /** The moment a sprite's animation begins (tNow > 0) its fade-in starts. */
  lemma FadeStartsWithAnimation(s: Sprite, now: real)
    requires !s.freezePos && s.anim.Some? && now - s.anim.value.startTime > 0.0
    ensures Step(s, now).sprite.fadeStarted
  {
  }

  /** The number of sprites among s that finish settling at time now. */
  function Releases(s: seq<Sprite>, now: real): (r: nat)
    ensures r <= |s|
  {
    if s == [] then 0
    else Releases(s[..|s| - 1], now) + (if Step(s[|s| - 1], now).released then 1 else 0)
  }

  /** No release is counted exactly when no sprite finishes settling. */
  lemma {:induction false} ReleasesZero(s: seq<Sprite>, now: real)
    ensures Releases(s, now) == 0 <==> forall k :: 0 <= k < |s| ==> !Step(s[k], now).released
  {
    if s != [] {
      var init := s[..|s| - 1];
      ReleasesZero(init, now);
      assert forall k :: 0 <= k < |init| ==> init[k] == s[k];
    }
  }

  /** The cursor c advanced once per release, never past total:
      min(c + releases, total), which is what releasing one at a time with
      Math.min(cursor + 1, total) leaves when c starts at most total. */
  function AdvanceCursor(c: nat, releases: nat, total: nat): (r: nat)
    requires c <= total
    ensures c <= r <= total
    ensures r == total || r == c + releases
    ensures releases == 0 ==> r == c
  {
    if c + releases <= total then c + releases else total
  }

  /** Releases add up over consecutive runs of sprites. */
  lemma {:induction false} ReleasesAppend(s: seq<Sprite>, t: seq<Sprite>, now: real)
    ensures Releases(s + t, now) == Releases(s, now) + Releases(t, now)
  {
    if t != [] {
      var init := t[..|t| - 1];
      ReleasesAppend(s, init, now);
      assert (s + t)[..|s + t| - 1] == s + init;
      assert (s + t)[|s + t| - 1] == t[|t| - 1];
    } else {
      assert s + t == s;
    }
  }

  /** Advancing the cursor in two batches lands where one batch of both
      lands: releasing moons one at a time, Math.min(cursor + 1, total)
      each, is min(cursor + releases, total). */
  lemma AdvanceCursorTwice(c: nat, r1: nat, r2: nat, total: nat)
    requires c <= total
    ensures AdvanceCursor(AdvanceCursor(c, r1, total), r2, total) == AdvanceCursor(c, r1 + r2, total)
  {
  }

  /** No anim in the given sprites is in the legacy Orbit phase. */
  ghost predicate NoLegacyOrbit(sprites: seq<Sprite>)
  {
    forall k :: 0 <= k < |sprites| ==> sprites[k].anim.Some? ==> sprites[k].anim.value.phase != Orbit
  }

  /** A frame never puts a sprite into the legacy Orbit phase. */
  lemma StepNeverOrbits(s: Sprite, now: real)
    requires s.anim.Some? ==> s.anim.value.phase != Orbit
    ensures Step(s, now).sprite.anim.Some? ==> Step(s, now).sprite.anim.value.phase != Orbit
  {
  }

  /** The sprite runSettleSequencer would move to settle: none for an
      empty set, while a moon is settling, or once the cursor has passed the
      last moon; otherwise the moon at the cursor in settle order (or the
      cursor itself without an order), when it is in the legacy Orbit phase. */
  function SequencerPick(sprites: seq<Sprite>, order: Option<seq<nat>>, cursor: nat, active: bool): (pick: Option<nat>)
    ensures pick.Some? ==> pick.value < |sprites| && sprites[pick.value].anim.Some?
                           && sprites[pick.value].anim.value.phase == Orbit
  {
    if |sprites| == 0 || active || cursor >= |sprites| then None
    else
      var idx := if order.Some? then (if cursor < |order.value| then order.value[cursor] else |sprites|) else cursor;
      if idx < |sprites| && sprites[idx].anim.Some? && sprites[idx].anim.value.phase == Orbit then Some(idx)
      else None
  }

  /** The legacy Orbit-to-settle switch: the orbit's current angle (its end
      angle, since the loop start fields are never set), the full target
      length as starting plane radius, height 0. */
  function StartSettle(s: Sprite, now: real): Sprite
  {
    if s.anim.None? then s
    else
      var a := s.anim.value;
      s.(anim := Some(a.(phase := Settle, settleStartTime := now, settleStartAngle := Some(a.orbitEndAngle),
                         settleStartPlaneR := Some(a.targetR), settleStartY := Some(0.0))))
  }

  /** The sequencer never finds a moon to move: nothing is ever in the
      Orbit phase, so moons settle independently of it. */
  lemma SequencerInert(sprites: seq<Sprite>, order: Option<seq<nat>>, cursor: nat, active: bool)
    requires NoLegacyOrbit(sprites)
    ensures SequencerPick(sprites, order, cursor, active) == None
  {
  }

  /** Revealing sprites changes no offset, so their sort keys stay the same. */
  lemma RevealKeepsSortAngles(s: seq<Sprite>, t: seq<Sprite>, planetR: real)
    requires |s| == |t| && forall k :: 0 <= k < |s| ==> t[k] == Reveal(s[k])
    ensures SortAngles(t, planetR) == SortAngles(s, planetR)
  {
    assert forall k :: 0 <= k < |s| ==> SortAngles(t, planetR)[k] == SortAngles(s, planetR)[k];
  }

  /** A moon set: the sprites and the per-set settle bookkeeping. */
  class MoonSet {
    const sprites: array<Sprite>
    /** __settleOrder; None until the first entry animation. */
    var settleOrder: Option<seq<nat>>
    /** __settleCursor, read as `|| 0` before the first entry animation. */
    var settleCursor: nat
    var settleActive: bool

    /** The `total` of the sequencer release: the order's length when there
        is one, otherwise the number of sprites. */
    function Total(): nat
      reads this
    {
      if settleOrder.Some? then |settleOrder.value| else sprites.Length
    }

    /** The order is a permutation of the sprite indices and the cursor
        never passes the total. */
    ghost predicate ValidOrder()
      reads this
    {
      && (settleOrder.Some? ==>
            multiset(settleOrder.value) == multiset(Range(sprites.Length))
            && Below(settleOrder.value, sprites.Length))
      && settleCursor <= Total()
    }

    /** ValidOrder, and no sprite is in the legacy Orbit phase. */
    ghost predicate Valid()
      reads this, sprites
    {
      ValidOrder() && NoLegacyOrbit(sprites[..])
    }

    constructor (sprites: array<Sprite>)
      requires NoLegacyOrbit(sprites[..])
      ensures Valid()
      ensures this.sprites == sprites && settleOrder == None && settleCursor == 0 && !settleActive
    {
      this.sprites := sprites;
      settleOrder := None;
      settleCursor := 0;
      settleActive := false;
    }

    /** hideMoons: every sprite concealed. */
    method HideMoons()
      requires Valid()
      modifies sprites
      ensures Valid()
      ensures forall k :: 0 <= k < sprites.Length ==> sprites[k] == Conceal(old(sprites[k]))
    {
      var k := 0;
      while k < sprites.Length
        invariant 0 <= k <= sprites.Length
        invariant forall j :: 0 <= j < k ==> sprites[j] == Conceal(old(sprites[j]))
        invariant forall j :: k <= j < sprites.Length ==> sprites[j] == old(sprites[j])
      {
        sprites[k] := Conceal(sprites[k]);
        k := k + 1;
      }
    }

    /** The entry setup of every sprite, in place. */
    method EnterAll(now: real, planetR: real, startAngle: real)
      modifies sprites
      ensures forall k :: 0 <= k < sprites.Length ==>
        sprites[k] == EntrySprite(old(sprites[k]), k, sprites.Length, now, planetR, startAngle)
    {
      var n := sprites.Length;
      var k := 0;
      while k < n
        invariant 0 <= k <= n
        invariant forall j :: 0 <= j < k ==> sprites[j] == EntrySprite(old(sprites[j]), j, n, now, planetR, startAngle)
        invariant forall j :: k <= j < n ==> sprites[j] == old(sprites[j])
      {
        sprites[k] := EntrySprite(sprites[k], k, n, now, planetR, startAngle);
        k := k + 1;
      }
    }

    /** showMoons' forEach: every sprite revealed in place. */
    method RevealAll()
      requires Valid()
      modifies sprites
      ensures Valid()
      ensures forall k :: 0 <= k < sprites.Length ==> sprites[k] == Reveal(old(sprites[k]))
    {
      var k := 0;
      while k < sprites.Length
        invariant 0 <= k <= sprites.Length
        invariant forall j :: 0 <= j < k ==> sprites[j] == Reveal(old(sprites[j]))
        invariant forall j :: k <= j < sprites.Length ==> sprites[j] == old(sprites[j])
      {
        sprites[k] := Reveal(sprites[k]);
        k := k + 1;
      }
    }

    /** startMoonsEntryAnimation, with the host planet (None when the set
        has no planet) and the atan2 angle of the start direction behind
        the planet: nothing happens for an empty set or a missing host;
        otherwise every moon gets its entry anim, the cursor and active flag
        are reset and the settle order is the stable sort by descending
        target angle. */
    method StartEntryAnimation(now: real, host: Option<Host>, startAngle: real)
      requires Valid()
      modifies this, sprites
      ensures Valid()
      ensures sprites.Length == 0 || host.None? ==>
        sprites[..] == old(sprites[..]) && settleOrder == old(settleOrder)
        && settleCursor == old(settleCursor) && settleActive == old(settleActive)
      ensures sprites.Length > 0 && host.Some? ==>
        && settleCursor == 0 && !settleActive
        && settleOrder == Some(SortByAngle(SortAngles(old(sprites[..]), PlanetR(host.value)), sprites.Length))
        && forall k :: 0 <= k < sprites.Length ==>
             sprites[k] == EntrySprite(old(sprites[k]), k, sprites.Length, now, PlanetR(host.value), startAngle)
    {
      if sprites.Length == 0 || host.None? {
        return;
      }
      var planetR := PlanetR(host.value);
      var n := sprites.Length;
      settleCursor := 0;
      settleActive := false;
      var keys := SortAngles(sprites[..], planetR);
      EnterAll(now, planetR, startAngle);
      SortIsPermutation(keys, n);
      SortBelow(keys, n);
      settleOrder := Some(SortByAngle(keys, n));
    }

    /** showMoons: every sprite revealed, then the entry animation started;
        the raycast pause is extended to at least now + 450 ms. Revealing
        changes no offset, so the settle order is that of the sprites as
        they were. */
    method ShowMoons(now: real, pauseUntil: real, host: Option<Host>, startAngle: real) returns (pause: real)
      requires Valid()
      modifies this, sprites
      ensures Valid()
      ensures pause == Max(pauseUntil, now + 450.0)
      ensures sprites.Length > 0 && host.Some? ==>
        && settleCursor == 0 && !settleActive
        && settleOrder == Some(SortByAngle(SortAngles(old(sprites[..]), PlanetR(host.value)), sprites.Length))
        && forall k :: 0 <= k < sprites.Length ==>
             sprites[k] == EntrySprite(Reveal(old(sprites[k])), k, sprites.Length, now, PlanetR(host.value), startAngle)
      ensures sprites.Length == 0 || host.None? ==>
        && settleOrder == old(settleOrder) && settleCursor == old(settleCursor) && settleActive == old(settleActive)
        && forall k :: 0 <= k < sprites.Length ==> sprites[k] == Reveal(old(sprites[k]))
    {
      pause := Max(pauseUntil, now + 450.0);
      RevealAll();
      if host.Some? {
        RevealKeepsSortAngles(old(sprites[..]), sprites[..], PlanetR(host.value));
      }
      StartEntryAnimation(now, host, startAngle);
    }

    /** updateMoonPositions: every sprite takes one step; once the cursor
        exists (it is set together with the settle order), each sprite that
        finishes settling clears the active flag and advances the cursor by
        one, never past the total. */
    method UpdatePositions(now: real)
      requires Valid()
      modifies this, sprites
      ensures Valid()
      ensures forall k :: 0 <= k < sprites.Length ==> sprites[k] == Step(old(sprites[k]), now).sprite
      ensures settleOrder == old(settleOrder)
      ensures var r := Releases(old(sprites[..]), now);
        if settleOrder.Some? && r > 0 then
          settleCursor == AdvanceCursor(old(settleCursor), r, Total()) && !settleActive
        else
          settleCursor == old(settleCursor) && settleActive == old(settleActive)
    {
      var k := 0;
      while k < sprites.Length
        invariant 0 <= k <= sprites.Length
        invariant forall j :: 0 <= j < k ==> sprites[j] == Step(old(sprites[j]), now).sprite
        invariant forall j :: k <= j < sprites.Length ==> sprites[j] == old(sprites[j])
        invariant settleOrder == old(settleOrder)
        invariant var r := Releases(old(sprites[..])[..k], now);
          if settleOrder.Some? && r > 0 then
            settleCursor == AdvanceCursor(old(settleCursor), r, Total()) && !settleActive
          else
            settleCursor == old(settleCursor) && settleActive == old(settleActive)
      {
        var st := Step(sprites[k], now);
        assert old(sprites[..])[..k + 1][..k] == old(sprites[..])[..k];
        sprites[k] := st.sprite;
        if st.released && settleOrder.Some? {
          settleActive := false;
          settleCursor := if settleCursor + 1 <= Total() then settleCursor + 1 else Total();
        }
        k := k + 1;
      }
      assert old(sprites[..])[..sprites.Length] == old(sprites[..]);
      forall j | 0 <= j < sprites.Length
        ensures sprites[j].anim.Some? ==> sprites[j].anim.value.phase != Orbit
      {
        assert old(sprites[..])[j] == old(sprites[j]);
        StepNeverOrbits(old(sprites[j]), now);
      }
    }

    /** runSettleSequencer: the next moon in settle order is moved from the
        legacy Orbit phase to settle and the sequencer becomes active. */
    method RunSettleSequencer(now: real)
      requires ValidOrder()
      modifies this, sprites
      ensures ValidOrder()
      ensures settleOrder == old(settleOrder) && settleCursor == old(settleCursor)
      ensures var pick := SequencerPick(old(sprites[..]), settleOrder, settleCursor, old(settleActive));
        && (pick.None? ==> sprites[..] == old(sprites[..]) && settleActive == old(settleActive))
        && (pick.Some? ==>
              settleActive && sprites[..] == old(sprites[..])[pick.value := StartSettle(old(sprites[pick.value]), now)])
    {
      var pick := SequencerPick(sprites[..], settleOrder, settleCursor, settleActive);
      if pick.Some? {
        sprites[pick.value] := StartSettle(sprites[pick.value], now);
        settleActive := true;
      }
    }
  }

  /** One rendered frame for a moon set: positions advance, then the
      sequencer runs, which leaves the set as the positions step left it. */
  method MoonFrame(moons: MoonSet, now: real)
    requires moons.Valid()
    modifies moons, moons.sprites
    ensures moons.Valid()
    ensures forall k :: 0 <= k < moons.sprites.Length ==> moons.sprites[k] == Step(old(moons.sprites[k]), now).sprite
    ensures moons.settleOrder == old(moons.settleOrder)
    ensures var r := Releases(old(moons.sprites[..]), now);
      if moons.settleOrder.Some? && r > 0 then
        moons.settleCursor == AdvanceCursor(old(moons.settleCursor), r, moons.Total()) && !moons.settleActive
      else
        moons.settleCursor == old(moons.settleCursor) && moons.settleActive == old(moons.settleActive)
  {
    moons.UpdatePositions(now);
    SequencerInert(moons.sprites[..], moons.settleOrder, moons.settleCursor, moons.settleActive);
    moons.RunSettleSequencer(now);
  }
}
