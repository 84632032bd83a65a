/** The performance governor of the render loop: a smoothed frame-rate
    estimate, dynamic resolution scaling of the renderer's pixel ratio, and a
    low-fidelity mode that strips displacement, halves bump strength and hides
    clouds while the frame rate is poor. */
module Governor {
  import opened Numeric
  import opened Wrappers

  // ---------------------------------------------------------------------
  // Start-up configuration

  /** The pixel-ratio band of dynamic resolution scaling. */
  datatype Config = Config(prMax: real, prMin: real)

  /** Math.min(window.devicePixelRatio || 1, 2). */
  function DevicePR(dpr: real): (pr: real)
    requires dpr >= 0.0
    ensures 0.0 < pr <= 2.0
    ensures 0.0 < dpr <= 2.0 ==> pr == dpr
  {
    Min(if dpr == 0.0 then 1.0 else dpr, 2.0)
  }

  /** A low-tier device: ratio at most 1.25 or a viewport side under 900 px. */
  predicate LowTier(pr: real, width: real, height: real)
  {
    pr <= 1.25 || Min(width, height) < 900.0
  }

  /** The floor the source gives the band: 0.66 on low-tier devices, else 0.8. */
  function TierFloor(pr: real, width: real, height: real): real
  {
    if LowTier(pr, width, height) then 0.66 else 0.8
  }

  /** The band exactly as the source computes it; its floor can exceed its
      ceiling when the device ratio is below 0.66 (a zoomed-out page). */
  function ConfigAsWritten(dpr: real, width: real, height: real): Config
    requires dpr >= 0.0
  {
    var pr := DevicePR(dpr);
    Config(pr, TierFloor(pr, width, height))
  }

  /** The band with its floor capped at the device ratio, so that it is never empty. */
  function StartConfig(dpr: real, width: real, height: real): (c: Config)
    requires dpr >= 0.0
    ensures 0.0 < c.prMin <= c.prMax <= 2.0
  {
    var pr := DevicePR(dpr);
    Config(pr, Min(TierFloor(pr, width, height), pr))
  }

  /** On every device whose ratio reaches the tier floor the capped band is the source's band. */
  lemma StartConfigAgrees(dpr: real, width: real, height: real)
    requires dpr >= 0.0
    requires DevicePR(dpr) >= TierFloor(DevicePR(dpr), width, height)
    ensures StartConfig(dpr, width, height) == ConfigAsWritten(dpr, width, height)
  {
  }

  // ---------------------------------------------------------------------
  // Per-frame state

  /** The module-level governor variables. `started` is `__t0 !== null`. */
  datatype GovState = GovState(started: bool, lastTime: real, fpsEMA: real,
                               targetPR: real, rendererPR: real, lastDRSChange: real,
                               lowMode: bool, lastLowModeToggleAt: real)

  /** The values at load: the target and the renderer at the device ratio, a
      60 fps estimate, and both cooldown clocks at 0. `clock` is the
      performance.now() reading that initialises lastTime. */
  function InitState(c: Config, clock: real): GovState
  {
    GovState(false, clock, 60.0, c.prMax, c.prMax, 0.0, false, 0.0)
  }

  /** The pixel ratio clamped into the band. */
  function ClampPR(c: Config, pr: real): real
  {
    Max(c.prMin, Min(c.prMax, pr))
  }

  /** __setRendererPixelRatio: the clamped ratio is applied only when it
      differs from the renderer's by more than 0.01. */
  function ApplyPR(c: Config, current: real, pr: real): (r: real)
    ensures r == current || r == ClampPR(c, pr)
  {
    var clamped := ClampPR(c, pr);
    if Abs(clamped - current) > 0.01 then clamped else current
  }

  /** The frame-rate sample of a frame: 1/dt, or 60 when no time passed. */
  function FpsSample(dt: real): (fps: real)
    requires dt >= 0.0
    ensures fps > 0.0
  {
    if dt > 0.0 then 1.0 / dt else 60.0
  }

  /** The frame-time part of render: time origin on the first frame, dt in
      seconds (never negative), and the exponential moving average. */
  function Clock(s: GovState, now: real): GovState
  {
    var last := if s.started then s.lastTime else now;
    var dt := Max(0.0, (now - last) / 1000.0);
    s.(started := true, lastTime := now, fpsEMA := s.fpsEMA * 0.9 + FpsSample(dt) * 0.1)
  }

  /** Dynamic resolution: after a 1.2 s cooldown, step the ratio down by 10%
      under 40 fps or up by 5% over 55 fps, clamp it, and adopt it when it
      moved by more than 0.02. */
  function DrsStep(c: Config, s: GovState, now: real): GovState
  {
    if now - s.lastDRSChange > 1200.0 then
      var next0 :=
        if s.fpsEMA < 40.0 then Max(c.prMin, s.targetPR * 0.9)
        else if s.fpsEMA > 55.0 then Min(c.prMax, s.targetPR * 1.05)
        else s.targetPR;
      var next := ClampPR(c, next0);
      if Abs(next - s.targetPR) > 0.02 then
        s.(targetPR := next, rendererPR := ApplyPR(c, s.rendererPR, next), lastDRSChange := now)
      else s
    else s
  }

  /** The low-fidelity toggle: after a 1.5 s cooldown, enter under 24 fps
      when off, leave over 36 fps when on. */
  function LowModeStep(s: GovState, now: real): GovState
  {
    if now - s.lastLowModeToggleAt > 1500.0 then
      if !s.lowMode && s.fpsEMA < 24.0 then s.(lowMode := true, lastLowModeToggleAt := now)
      else if s.lowMode && s.fpsEMA > 36.0 then s.(lowMode := false, lastLowModeToggleAt := now)
      else s
    else s
  }

  /** One render frame: a hidden page only updates the clock and the estimate. */
  function Step(c: Config, s: GovState, now: real, hidden: bool): GovState
  {
    var s1 := Clock(s, now);
    if hidden then s1 else LowModeStep(DrsStep(c, s1, now), now)
  }

  /** A frame: its timestamp and whether the page was hidden. */
  datatype Frame = Frame(now: real, hidden: bool)

  /** The state after a sequence of frames. */
  function Run(c: Config, s: GovState, frames: seq<Frame>): GovState
    decreases |frames|
  {
    if |frames| == 0 then s else Run(c, Step(c, s, frames[0].now, frames[0].hidden), frames[1..])
  }

  /** Both the target and the applied pixel ratio lie in the band. */
  predicate InBand(c: Config, s: GovState)
  {
    c.prMin <= s.targetPR <= c.prMax && c.prMin <= s.rendererPR <= c.prMax
  }

  /** The estimate moves toward the new sample: it ends between the old
      estimate and the frame-rate sample. */
  lemma ClockAveragesSample(s: GovState, now: real)
    requires s.started
    ensures var fps := FpsSample(Max(0.0, (now - s.lastTime) / 1000.0));
      Min(s.fpsEMA, fps) <= Clock(s, now).fpsEMA <= Max(s.fpsEMA, fps)
  {
  }

  /** A frame arriving 1000/f ms after the last one, at an estimate of f fps,
      leaves the estimate at f. */
  lemma ClockSteadyRate(s: GovState, now: real, f: real)
    requires s.started && f > 0.0 && s.fpsEMA == f && now - s.lastTime == 1000.0 / f
    ensures Clock(s, now).fpsEMA == f
  {
    var dt := (now - s.lastTime) / 1000.0;
    assert dt == 1.0 / f;
    assert 1.0 / dt == f;
  }

  /** One frame keeps a non-empty band's ratios inside it. */
  lemma StepKeepsBand(c: Config, s: GovState, now: real, hidden: bool)
    requires c.prMin <= c.prMax && InBand(c, s)
    ensures InBand(c, Step(c, s, now, hidden))
  {
  }

  /** Starting from the device ratio, no sequence of frames moves the target
      or the renderer's ratio out of a non-empty band. */
  lemma {:induction false} RunKeepsBand(c: Config, s: GovState, frames: seq<Frame>)
    requires c.prMin <= c.prMax && InBand(c, s)
    ensures InBand(c, Run(c, s, frames))
    decreases |frames|
  {
    if |frames| > 0 {
      StepKeepsBand(c, s, frames[0].now, frames[0].hidden);
      RunKeepsBand(c, Step(c, s, frames[0].now, frames[0].hidden), frames[1..]);
    }
  }

  /** The target ratio changes only on a visible frame more than 1.2 s after
      the last change, by more than 0.02, and that frame becomes the last
      change; otherwise the last-change time stays. */
  lemma StepTargetChange(c: Config, s: GovState, now: real, hidden: bool)
    ensures var t := Step(c, s, now, hidden);
      t.targetPR != s.targetPR ==>
        !hidden && now - s.lastDRSChange > 1200.0 && Abs(t.targetPR - s.targetPR) > 0.02 && t.lastDRSChange == now
    ensures var t := Step(c, s, now, hidden);
      t.targetPR == s.targetPR ==> t.lastDRSChange == s.lastDRSChange
  {
  }

  /** Low mode is entered only from off with the estimate under 24, left only
      from on with the estimate over 36, each time more than 1.5 s after the
      previous toggle, and a toggle stamps its frame's time; without a toggle
      the stamp stays. So any two toggles are more than 1.5 s apart. */
  lemma StepLowModeToggle(c: Config, s: GovState, now: real, hidden: bool)
    ensures var t := Step(c, s, now, hidden);
      t.lowMode && !s.lowMode ==>
        !hidden && t.fpsEMA < 24.0 && now - s.lastLowModeToggleAt > 1500.0 && t.lastLowModeToggleAt == now
    ensures var t := Step(c, s, now, hidden);
      !t.lowMode && s.lowMode ==>
        !hidden && t.fpsEMA > 36.0 && now - s.lastLowModeToggleAt > 1500.0 && t.lastLowModeToggleAt == now
    ensures var t := Step(c, s, now, hidden);
      t.lowMode == s.lowMode ==> t.lastLowModeToggleAt == s.lastLowModeToggleAt
  {
  }

  /** With the source's band on a device of ratio 0.5 the first visible frame
      after 1.2 s raises the target to 0.66, above the device ratio 0.5. */
  lemma AsWrittenExceedsDeviceRatio()
    ensures var c := ConfigAsWritten(0.5, 1920.0, 1080.0);
      c.prMax == 0.5 && c.prMin == 0.66 &&
      Step(c, InitState(c, 0.0), 2000.0, false).targetPR == 0.66
  {
    var c := ConfigAsWritten(0.5, 1920.0, 1080.0);
    var s1 := Clock(InitState(c, 0.0), 2000.0);
    assert s1.fpsEMA == 60.0;
  }

  /** With the capped band the same frame keeps the target at the device ratio. */
  lemma CappedKeepsDeviceRatio()
    ensures var c := StartConfig(0.5, 1920.0, 1080.0);
      Step(c, InitState(c, 0.0), 2000.0, false).targetPR == 0.5
  {
    var c := StartConfig(0.5, 1920.0, 1080.0);
    var s1 := Clock(InitState(c, 0.0), 2000.0);
    assert s1.fpsEMA == 60.0;
  }

  // ---------------------------------------------------------------------
  // Planet materials in and out of low mode

  /** A texture handle. */
  type Texture = nat

  /** The material fields low mode touches, with the `userData` save slots. */
  datatype Material = Material(displacementMap: Option<Texture>, bumpMap: Option<Texture>,
                               bumpScale: real, savedDisp: Option<Texture>, savedBump: Option<Texture>)

  /** A cloud layer's visibility and its `_savedVis` slot. */
  datatype Clouds = Clouds(visible: bool, savedVis: bool)

  /** An entry of the planets array; planets without a mesh are skipped. */
  datatype PlanetLook = PlanetLook(hasMesh: bool, material: Option<Material>, clouds: Option<Clouds>)

  /** `x || 1` on a scale: a zero scale counts as 1. */
  function OrOne(x: real): real
  {
    if x == 0.0 then 1.0 else x
  }

  function EnterMaterial(m: Material): Material
  {
    var m1 := if m.displacementMap.Some? && m.savedDisp.None?
      then m.(savedDisp := m.displacementMap, displacementMap := None) else m;
    if m1.bumpMap.Some? && m1.savedBump.None?
      then m1.(savedBump := m1.bumpMap, bumpScale := OrOne(m1.bumpScale) * 0.5) else m1
  }

  function ExitMaterial(m: Material): Material
  {
    var m1 := if m.savedDisp.Some?
      then m.(displacementMap := m.savedDisp, savedDisp := None) else m;
    if m1.savedBump.Some?
      then m1.(bumpMap := m1.savedBump, savedBump := None, bumpScale := OrOne(m1.bumpScale) * 2.0) else m1
  }

  /** __enterLowMode on one planet. */
  function EnterLow(p: PlanetLook): PlanetLook
  {
    if !p.hasMesh then p
    else
      var mat := if p.material.Some? then Some(EnterMaterial(p.material.value)) else None;
      var clouds := if p.clouds.Some? && p.clouds.value.visible then Some(Clouds(false, true)) else p.clouds;
      p.(material := mat, clouds := clouds)
  }

  /** __exitLowMode on one planet. */
  function ExitLow(p: PlanetLook): PlanetLook
  {
    if !p.hasMesh then p
    else
      var mat := if p.material.Some? then Some(ExitMaterial(p.material.value)) else None;
      var clouds := if p.clouds.Some? && p.clouds.value.savedVis then Some(Clouds(true, false)) else p.clouds;
      p.(material := mat, clouds := clouds)
  }

  /** No save slot is in use (the state of every planet outside low mode). */
  predicate Clean(p: PlanetLook)
  {
    p.hasMesh ==>
      (p.material.Some? ==> p.material.value.savedDisp.None? && p.material.value.savedBump.None?) &&
      (p.clouds.Some? ==> !p.clouds.value.savedVis)
  }

  /** The bump scale survives a halve-and-double: no bump map, or a non-zero scale. */
  predicate BumpRestorable(p: PlanetLook)
  {
    !p.hasMesh || p.material.None? || p.material.value.bumpMap.None? || p.material.value.bumpScale != 0.0
  }

  /** Entering low mode twice is entering it once: the save slots guard
      against halving the bump scale again. */
  lemma EnterLowIdempotent(p: PlanetLook)
    ensures EnterLow(EnterLow(p)) == EnterLow(p)
  {
  }

  /** Leaving low mode always empties the save slots. */
  lemma ExitLowCleans(p: PlanetLook)
    ensures Clean(ExitLow(p))
  {
  }

  /** Entering then leaving low mode restores the displacement map and the
      bump map, makes visible clouds visible again and empties the save slots;
      the whole planet comes back exactly when its bump scale was restorable. */
  lemma ExitAfterEnter(p: PlanetLook)
    requires Clean(p)
    ensures var q := ExitLow(EnterLow(p));
      q.hasMesh == p.hasMesh && q.material.Some? == p.material.Some? &&
      (q.material.Some? ==> q.material.value.displacementMap == p.material.value.displacementMap &&
                            q.material.value.bumpMap == p.material.value.bumpMap) &&
      (q.clouds.Some? <==> p.clouds.Some?) &&
      (q.clouds.Some? ==> q.clouds.value.visible == p.clouds.value.visible) &&
      Clean(q)
    ensures ExitLow(EnterLow(p)) == p <==> BumpRestorable(p)
  {
    if p.hasMesh && p.material.Some? {
      var m := p.material.value;
      if m.bumpMap.Some? {
        var h := OrOne(m.bumpScale) * 0.5;
        assert h != 0.0;
        assert OrOne(h) * 2.0 == OrOne(m.bumpScale);
      }
    }
  }

  /** __enterLowMode: every planet of the array in turn. */
  method EnterLowMode(planets: array<PlanetLook>)
    modifies planets
    ensures forall i :: 0 <= i < planets.Length ==> planets[i] == EnterLow(old(planets[i]))
  {
    var i := 0;
    while i < planets.Length
      invariant 0 <= i <= planets.Length
      invariant forall k :: 0 <= k < i ==> planets[k] == EnterLow(old(planets[k]))
      invariant forall k :: i <= k < planets.Length ==> planets[k] == old(planets[k])
    {
      planets[i] := EnterLow(planets[i]);
      i := i + 1;
    }
  }

  /** __exitLowMode: every planet of the array in turn. */
  method ExitLowMode(planets: array<PlanetLook>)
    modifies planets
    ensures forall i :: 0 <= i < planets.Length ==> planets[i] == ExitLow(old(planets[i]))
  {
    var i := 0;
    while i < planets.Length
      invariant 0 <= i <= planets.Length
      invariant forall k :: 0 <= k < i ==> planets[k] == ExitLow(old(planets[k]))
      invariant forall k :: i <= k < planets.Length ==> planets[k] == old(planets[k])
    {
      planets[i] := ExitLow(planets[i]);
      i := i + 1;
    }
  }

  // ---------------------------------------------------------------------
  // The governor as the render loop runs it

  class PerformanceGovernor {
    const config: Config
    const planets: array<PlanetLook>
    var started: bool
    var lastTime: real
    var fpsEMA: real
    var targetPR: real
    var rendererPR: real
    var lastDRSChange: real
    var lowMode: bool
    var lastLowModeToggleAt: real

    ghost function State(): GovState
      reads this
    {
      GovState(started, lastTime, fpsEMA, targetPR, rendererPR, lastDRSChange, lowMode, lastLowModeToggleAt)
    }

    /** The ratios stay in a non-empty band, and outside low mode no planet
        has a save slot in use. */
    ghost predicate Valid()
      reads this, planets
    {
      config.prMin <= config.prMax && InBand(config, State()) &&
      (!lowMode ==> forall i :: 0 <= i < planets.Length ==> Clean(planets[i]))
    }

    /** Module load: the band from the device, the state of InitState. */
    constructor (dpr: real, width: real, height: real, planets: array<PlanetLook>, clock: real)
      requires dpr >= 0.0
      requires forall i :: 0 <= i < planets.Length ==> Clean(planets[i])
      ensures Valid()
      ensures config == StartConfig(dpr, width, height) && this.planets == planets
      ensures State() == InitState(config, clock)
    {
      config := StartConfig(dpr, width, height);
      this.planets := planets;
      started, lastTime, fpsEMA := false, clock, 60.0;
      targetPR := DevicePR(dpr);
      rendererPR := DevicePR(dpr);
      lastDRSChange, lowMode, lastLowModeToggleAt := 0.0, false, 0.0;
    }

    /** The governor's share of render(now). */
    method Tick(now: real, hidden: bool)
      requires Valid()
      modifies this, planets
      ensures Valid()
      ensures State() == Step(config, old(State()), now, hidden)
      ensures lowMode && !old(lowMode) ==> forall i :: 0 <= i < planets.Length ==> planets[i] == EnterLow(old(planets[i]))
      ensures !lowMode && old(lowMode) ==> forall i :: 0 <= i < planets.Length ==> planets[i] == ExitLow(old(planets[i]))
      ensures lowMode == old(lowMode) ==> forall i :: 0 <= i < planets.Length ==> planets[i] == old(planets[i])
    {
      StepKeepsBand(config, State(), now, hidden);
      UpdateClock(now);
      if hidden {
        return;
      }
      ScaleResolution(now);
      ToggleLowMode(now);
    }

    /** The time origin, dt and the moving average of render. */
    method UpdateClock(now: real)
      modifies this
      ensures State() == Clock(old(State()), now)
    {
      if !started {
        started := true;
        lastTime := now;
      }
      var dt := Max(0.0, (now - lastTime) / 1000.0);
      lastTime := now;
      var fps := if dt > 0.0 then 1.0 / dt else 60.0;
      fpsEMA := fpsEMA * 0.9 + fps * 0.1;
    }

    /** The dynamic-resolution block of render. */
    method ScaleResolution(now: real)
      modifies this
      ensures State() == DrsStep(config, old(State()), now)
    {
      if now - lastDRSChange > 1200.0 {
        var nextPR := targetPR;
        if fpsEMA < 40.0 {
          nextPR := Max(config.prMin, targetPR * 0.9);
        } else if fpsEMA > 55.0 {
          nextPR := Min(config.prMax, targetPR * 1.05);
        }
        nextPR := Max(config.prMin, Min(config.prMax, nextPR));
        if Abs(nextPR - targetPR) > 0.02 {
          targetPR := nextPR;
          SetRendererPixelRatio(targetPR);
          lastDRSChange := now;
        }
      }
    }

    /** The low-fidelity block of render. */
    method ToggleLowMode(now: real)
      requires !lowMode ==> forall i :: 0 <= i < planets.Length ==> Clean(planets[i])
      modifies this, planets
      ensures State() == LowModeStep(old(State()), now)
      ensures !lowMode ==> forall i :: 0 <= i < planets.Length ==> Clean(planets[i])
      ensures lowMode && !old(lowMode) ==> forall i :: 0 <= i < planets.Length ==> planets[i] == EnterLow(old(planets[i]))
      ensures !lowMode && old(lowMode) ==> forall i :: 0 <= i < planets.Length ==> planets[i] == ExitLow(old(planets[i]))
      ensures lowMode == old(lowMode) ==> forall i :: 0 <= i < planets.Length ==> planets[i] == old(planets[i])
    {
      if now - lastLowModeToggleAt > 1500.0 {
        if !lowMode && fpsEMA < 24.0 {
          lowMode := true;
          EnterLowMode(planets);
          lastLowModeToggleAt := now;
        } else if lowMode && fpsEMA > 36.0 {
          lowMode := false;
          ExitLowMode(planets);
          forall i | 0 <= i < planets.Length
            ensures Clean(planets[i])
          {
            ExitLowCleans(old(planets[i]));
          }
          lastLowModeToggleAt := now;
        }
      }
    }

    /** __setRendererPixelRatio. */
    method SetRendererPixelRatio(pr: real)
      modifies this
      ensures rendererPR == ApplyPR(config, old(rendererPR), pr)
      ensures started == old(started) && lastTime == old(lastTime) && fpsEMA == old(fpsEMA)
      ensures targetPR == old(targetPR) && lastDRSChange == old(lastDRSChange)
      ensures lowMode == old(lowMode) && lastLowModeToggleAt == old(lastLowModeToggleAt)
    {
      var clamped := Max(config.prMin, Min(config.prMax, pr));
      if Abs(clamped - rendererPR) > 0.01 {
        rendererPR := clamped;
      }
    }

    /** The reveal step of start-up re-anchors the clock at performance.now(). */
    method ResetTimeAnchor(t: real)
      modifies this
      ensures State() == old(State()).(started := true, lastTime := t)
    {
      started := true;
      lastTime := t;
    }
  }
}
