/** The discrete part of the camera controller: the follow offset chosen
    from a planet's radius, the damping save/restore around follow mode,
    the flags handed to the camera tween, and the per-frame follow step. */
module Camera {
  import opened Numeric
  import opened Wrappers

  datatype Vec3 = Vec3(x: real, y: real, z: real)

  function Add(a: Vec3, b: Vec3): Vec3
  {
    Vec3(a.x + b.x, a.y + b.y, a.z + b.z)
  }

  /** Vector3.lerp: each coordinate interpolated with the same weight. */
  function LerpVec(a: Vec3, b: Vec3, t: real): Vec3
  {
    Vec3(Lerp(a.x, b.x, t), Lerp(a.y, b.y, t), Lerp(a.z, b.z, t))
  }

  /** A planet as the controller sees it: `spec.r`, which may be missing. */
  datatype Planet = Planet(specR: Option<real>)

  /** The radius used for framing: spec.r when present and non-zero (a
      truthy number), otherwise Earth's 13. */
  function FramingRadius(p: Planet): (r: real)
    ensures p.specR.Some? && p.specR.value != 0.0 ==> r == p.specR.value
    ensures p.specR.None? || p.specR.value == 0.0 ==> r == 13.0
  {
    if p.specR.Some? && p.specR.value != 0.0 then p.specR.value else 13.0
  }

  /** Math.max(lo, Math.min(hi, v)). */
  function ClampTo(v: real, lo: real, hi: real): (c: real)
    requires lo <= hi
    ensures lo <= c <= hi
    ensures lo <= v <= hi ==> c == v
    ensures v < lo ==> c == lo
    ensures v > hi ==> c == hi
  {
    Max(lo, Min(hi, v))
  }

  /** The follow offset (0, oy, oz) of focusPlanet: 1.5 r kept in [4, 24]
      above the planet and 5 r kept in [18, 110] behind it. */
  function FollowOffset(p: Planet): (o: Vec3)
    ensures o.x == 0.0
    ensures 4.0 <= o.y <= 24.0 && 18.0 <= o.z <= 110.0
    ensures 4.0 <= 1.5 * FramingRadius(p) <= 24.0 ==> o.y == 1.5 * FramingRadius(p)
    ensures 18.0 <= 5.0 * FramingRadius(p) <= 110.0 ==> o.z == 5.0 * FramingRadius(p)
  {
    var r := FramingRadius(p);
    Vec3(0.0, ClampTo(r * 1.5, 4.0, 24.0), ClampTo(r * 5.0, 18.0, 110.0))
  }

  /** A larger planet is never framed from closer. */
  lemma FollowOffsetMonotone(p: Planet, q: Planet)
    requires FramingRadius(p) <= FramingRadius(q)
    ensures FollowOffset(p).y <= FollowOffset(q).y
    ensures FollowOffset(p).z <= FollowOffset(q).z
  {
    var rp, rq := FramingRadius(p), FramingRadius(q);
    assert rp * 1.5 <= rq * 1.5;
    assert rp * 5.0 <= rq * 5.0;
  }

  /** A planet without a radius is framed like Earth, from (0, 19.5, 65). */
  lemma FallbackFraming(p: Planet)
    requires p.specR.None?
    ensures FollowOffset(p) == Vec3(0.0, 19.5, 65.0)
  {
  }

  /** computeFinalCameraPosForPlanet: null for an index with no planet,
      otherwise the planet's world position plus its follow offset. */
  function FinalCameraPos(planets: seq<Planet>, i: int, world: Vec3): (pos: Option<Vec3>)
    ensures pos.None? <==> !(0 <= i < |planets|)
    ensures pos.Some? ==> pos.value == Add(world, FollowOffset(planets[i]))
  {
    if 0 <= i < |planets| then Some(Add(world, FollowOffset(planets[i]))) else None
  }

  /** The OrbitControls damping factor set at start-up. */
  const DAMPING: real := 0.08

  /** The two destinations focusPlanet hands to the tween. */
  datatype Destination =
    | Overview                 // position (0, 800, 0), looking at the origin
    | FollowPlanet(i: nat)     // the planet's live position plus the follow offset

  datatype Focus = FocusOverview | FocusIndex(i: int)

  /** The camera, its OrbitControls and the follow bookkeeping around them. */
  class CameraController {
    const planets: seq<Planet>
    var cameraPos: Vec3
    var controlsTarget: Vec3
    var controlsEnabled: bool
    var dampingEnabled: bool
    var dampingFactor: real
    var savedDampingFactor: real
    var followDampingAdjusted: bool
    var isAnimatingCam: bool
    var followTarget: Option<nat>
    var followOffset: Vec3
    /** The tween in flight, if any: its destination. */
    var tween: Option<Destination>

    /** Damping is off exactly while follow mode has adjusted it, the
        factor is never lost, and the controls are disabled exactly while a
        camera tween runs. */
    ghost predicate Valid()
      reads this
    {
      && (dampingEnabled <==> !followDampingAdjusted)
      && dampingFactor == DAMPING && savedDampingFactor == DAMPING
      && (controlsEnabled <==> !isAnimatingCam)
      && (isAnimatingCam <==> tween.Some?)
      && (followTarget.Some? ==> followTarget.value < |planets|)
      && (tween.Some? && tween.value.FollowPlanet? ==> tween.value.i < |planets|)
    }

    constructor (planets: seq<Planet>, pos: Vec3)
      ensures Valid()
      ensures this.planets == planets && cameraPos == pos && controlsTarget == Vec3(0.0, 0.0, 0.0)
      ensures dampingEnabled && !followDampingAdjusted && controlsEnabled && !isAnimatingCam
      ensures followTarget == None && followOffset == Vec3(0.0, 18.0, 60.0) && tween == None
    {
      this.planets := planets;
      cameraPos := pos;
      controlsTarget := Vec3(0.0, 0.0, 0.0);
      controlsEnabled := true;
      dampingEnabled := true;
      dampingFactor := DAMPING;
      savedDampingFactor := DAMPING;
      followDampingAdjusted := false;
      isAnimatingCam := false;
      followTarget := None;
      followOffset := Vec3(0.0, 18.0, 60.0);
      tween := None;
    }

    /** __startFollowingMode: damping off, factor saved, at most once. */
    method StartFollowingMode()
      requires Valid()
      modifies this
      ensures Valid()
      ensures !dampingEnabled && followDampingAdjusted && dampingFactor == old(dampingFactor)
      ensures cameraPos == old(cameraPos) && controlsTarget == old(controlsTarget)
      ensures controlsEnabled == old(controlsEnabled) && isAnimatingCam == old(isAnimatingCam)
      ensures followTarget == old(followTarget) && followOffset == old(followOffset) && tween == old(tween)
    {
      if !followDampingAdjusted {
        savedDampingFactor := dampingFactor;
        dampingEnabled := false;
        followDampingAdjusted := true;
      }
    }

    /** __stopFollowingMode: damping back on with the saved factor, at most once. */
    method StopFollowingMode()
      requires Valid()
      modifies this
      ensures Valid()
      ensures dampingEnabled && !followDampingAdjusted && dampingFactor == old(dampingFactor)
      ensures cameraPos == old(cameraPos) && controlsTarget == old(controlsTarget)
      ensures controlsEnabled == old(controlsEnabled) && isAnimatingCam == old(isAnimatingCam)
      ensures followTarget == old(followTarget) && followOffset == old(followOffset) && tween == old(tween)
    {
      if followDampingAdjusted {
        dampingEnabled := true;
        dampingFactor := savedDampingFactor;
        followDampingAdjusted := false;
      }
    }

    /** animateCameraTo: controls disabled and the animating flag raised
        until the tween completes. */
    method AnimateCameraTo(dest: Destination)
      requires Valid()
      requires dest.FollowPlanet? ==> dest.i < |planets|
      modifies this
      ensures Valid()
      ensures !controlsEnabled && isAnimatingCam && tween == Some(dest)
      ensures cameraPos == old(cameraPos) && controlsTarget == old(controlsTarget)
      ensures dampingEnabled == old(dampingEnabled) && followDampingAdjusted == old(followDampingAdjusted)
      ensures followTarget == old(followTarget) && followOffset == old(followOffset)
    {
      controlsEnabled := false;
      isAnimatingCam := true;
      tween := Some(dest);
    }

    /** focusPlanet: the overview drops the follow target and restores
        damping before flying to (0, 800, 0); a planet index sets the follow
        offset from the planet's radius, follows it with damping off, and
        flies to it; an index with no planet changes nothing. */
    method FocusPlanet(f: Focus)
      requires Valid()
      modifies this
      ensures Valid()
      ensures f.FocusOverview? ==>
        followTarget == None && dampingEnabled && !followDampingAdjusted
        && isAnimatingCam && !controlsEnabled && tween == Some(Overview)
        && followOffset == old(followOffset)
      ensures f.FocusIndex? && 0 <= f.i < |planets| ==>
        followTarget == Some(f.i as nat) && followOffset == FollowOffset(planets[f.i])
        && !dampingEnabled && followDampingAdjusted
        && isAnimatingCam && !controlsEnabled && tween == Some(FollowPlanet(f.i as nat))
      ensures f.FocusIndex? && !(0 <= f.i < |planets|) ==>
        followTarget == old(followTarget) && followOffset == old(followOffset)
        && dampingEnabled == old(dampingEnabled) && isAnimatingCam == old(isAnimatingCam)
        && tween == old(tween)
      ensures cameraPos == old(cameraPos) && controlsTarget == old(controlsTarget)
    {
      match f {
        case FocusOverview =>
          followTarget := None;
          StopFollowingMode();
          AnimateCameraTo(Overview);
        case FocusIndex(i) =>
          if 0 <= i < |planets| {
            followOffset := FollowOffset(planets[i]);
            followTarget := Some(i as nat);
            StartFollowingMode();
            AnimateCameraTo(FollowPlanet(i as nat));
          }
      }
    }

    /** The tween's onComplete, with world the followed planet's position at
        that instant: the camera ends on the destination, the controls come
        back and the animating flag drops. */
    method CompleteTween(world: Vec3)
      requires Valid() && tween.Some?
      modifies this
      ensures Valid()
      ensures controlsEnabled && !isAnimatingCam && tween == None
      ensures old(tween).value.Overview? ==>
        cameraPos == Vec3(0.0, 800.0, 0.0) && controlsTarget == Vec3(0.0, 0.0, 0.0)
      ensures old(tween).value.FollowPlanet? ==>
        cameraPos == Add(world, followOffset) && controlsTarget == world
      ensures followTarget == old(followTarget) && followOffset == old(followOffset)
      ensures dampingEnabled == old(dampingEnabled) && followDampingAdjusted == old(followDampingAdjusted)
    {
      match tween.value {
        case Overview =>
          cameraPos := Vec3(0.0, 800.0, 0.0);
          controlsTarget := Vec3(0.0, 0.0, 0.0);
        case FollowPlanet(_) =>
          cameraPos := Add(world, followOffset);
          controlsTarget := world;
      }
      controlsEnabled := true;
      isAnimatingCam := false;
      tween := None;
    }

    /** The follow block of one rendered frame: while following and not
        tweening, camera and controls target move toward the followed
        position by the smoothing weight k; with nothing followed and no
        tween, follow mode is left. */
    method FollowFrame(world: Vec3, k: real)
      requires Valid()
      modifies this
      ensures Valid()
      ensures followTarget.Some? && !isAnimatingCam ==>
        cameraPos == LerpVec(old(cameraPos), Add(world, followOffset), k)
        && controlsTarget == LerpVec(old(controlsTarget), world, k)
        && dampingEnabled == old(dampingEnabled)
      ensures followTarget.None? && !isAnimatingCam ==>
        dampingEnabled && !followDampingAdjusted
        && cameraPos == old(cameraPos) && controlsTarget == old(controlsTarget)
      ensures isAnimatingCam ==>
        cameraPos == old(cameraPos) && controlsTarget == old(controlsTarget)
        && dampingEnabled == old(dampingEnabled)
      ensures followTarget == old(followTarget) && followOffset == old(followOffset)
      ensures isAnimatingCam == old(isAnimatingCam) && tween == old(tween)
    {
      if followTarget.Some? && !isAnimatingCam {
        cameraPos := LerpVec(cameraPos, Add(world, followOffset), k);
        controlsTarget := LerpVec(controlsTarget, world, k);
      }
      if followTarget.None? && !isAnimatingCam {
        StopFollowingMode();
      }
    }
  }

  /** Focusing a planet and letting the tween finish leaves the camera where
      computeFinalCameraPosForPlanet predicts, with damping off while
      following; going back to the overview restores damping. */
  method FocusThenLand(planets: seq<Planet>, start: Vec3, i: int, world: Vec3) returns (landed: Option<Vec3>, damped: bool)
    ensures landed == FinalCameraPos(planets, i, world)
    ensures damped <==> !(0 <= i < |planets|)
  {
    var c := new CameraController(planets, start);
    c.FocusPlanet(FocusIndex(i));
    if c.tween.Some? {
      c.CompleteTween(world);
      landed := Some(c.cameraPos);
    } else {
      landed := None;
    }
    damped := c.dampingEnabled;
  }

  /** Overview after following: damping is back on with its original factor. */
  method FollowThenOverview(planets: seq<Planet>, start: Vec3, i: nat) returns (damped: bool, factor: real, following: bool)
    requires i < |planets|
    ensures damped && factor == DAMPING && !following
  {
    var c := new CameraController(planets, start);
    c.FocusPlanet(FocusIndex(i));
    c.FocusPlanet(FocusOverview);
    damped, factor, following := c.dampingEnabled, c.dampingFactor, c.followTarget.Some?;
  }

  /** With a weight in [0, 1] a follow step keeps each coordinate of the
      camera between where it was and where it is heading. */
  lemma FollowStepBetween(from: Vec3, to: Vec3, k: real)
    requires 0.0 <= k <= 1.0
    ensures Min(from.x, to.x) <= LerpVec(from, to, k).x <= Max(from.x, to.x)
    ensures Min(from.y, to.y) <= LerpVec(from, to, k).y <= Max(from.y, to.y)
    ensures Min(from.z, to.z) <= LerpVec(from, to, k).z <= Max(from.z, to.z)
  {
    LerpBetween(from.x, to.x, k);
    LerpBetween(from.y, to.y, k);
    LerpBetween(from.z, to.z, k);
  }
}
