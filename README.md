# Solar-system portfolio scene: a verified model of its control logic

The site renders a three.js solar system. Its planets carry "moons": sprites
for projects and publications, each with a text overlay and link pills. This
project models the control and bookkeeping layer of `static/app.js` in Dafny
and proves properties of it. That layer has six parts:

- **The performance governor.** A frame-rate estimate, dynamic resolution
  scaling, and a low-fidelity mode that saves and restores planet material
  fields.
- **The camera controller.** The planet follow offset, the follow-damping
  toggle, and the fly-to tween flags.
- **Moon placement.** A jittered start distance on a golden spiral, then a
  bounded shrink loop that runs until the moon fits on screen.
- **The moon entry animation.** A one-turn orbit, then a Hermite settle to
  the target. The settle order is sorted by angle, and there is a settle
  sequencer.
- **The moon overlay.** A greedy label wrap with a font-shrink loop, a row
  of link pills, and the pointer hit-test shared by click and hover.
- **Pure helpers.** Easing, angles, colours, value noise with fractal
  sums, the sphere level of detail with a geometry cache, and the pixel
  loops that turn a normal map into a height map and build the water
  roughness mask.

Modelling conventions:

- Numbers are Dafny `real`, exact, with no floating-point rounding.
- `Math.round(x)` is `floor(x + 0.5)`.
- JavaScript's `%` on doubles is a truncated remainder (`Numeric.RemTau`).
- Trigonometry, projection and the three.js scene are kept abstract.
  Positions are (angle, planar radius, height).
- `dirFromAngle`, `atan2` and the on-screen fit test are inputs or
  function parameters.
- `Math.random()` draws are parameters.
- `startMoonsEntryAnimation` sets `__settleCursor` and `__settleOrder`
  together. So the release guard `typeof __settleCursor === "number"` is
  read as "the settle order is set".

Modules:

| file | module | contents |
|---|---|---|
| numeric.dfy | Numeric | clamp, round, lerp, easing, Hermite, shortest angle |
| wrappers.dfy | Wrappers | `Option` |
| color.dfy | Color | packed 0xRRGGBB colours |
| noise.dfy | Noise | hash3, value noise, fractal sum |
| heightmap.dfy | HeightMap | normal map to height map, water roughness mask |
| sphere.dfy | Sphere | segment LOD table, geometry memo cache |
| governor.dfy | Governor | frame-rate estimate, resolution scaling, low mode |
| camera.dfy | Camera | follow offset, damping toggle, tweens |
| placement.dfy | Placement | `randomizeMoonsOffsets` |
| settle_order.dfy | SettleOrder | the stable sort of the settle order |
| moons.dfy | Moons | show, hide, entry, per-frame step, sequencer |
| overlay.dfy | Overlay | label wrap, font loop, pill layout |
| pointer.dfy | Pointer | sprite rectangle, pill hit-test, click, cursor |

Where the code and its comments disagree, the model follows the code. The
comment on `angleDiffShortest` (static/app.js:52) promises [-π, π]. The
expression gives [-π, π), and that is what `Numeric.AngleDiffShortest`
states.

## Model

| member | source | states |
|---|---|---|
| Numeric.Clamp01 | static/app.js:43 | the clamp of t lies in [0, 1], is t inside it and the nearer end outside it |
| Numeric.Round | static/app.js:36-38 | Math.round(x) is the integer within half a unit of x, ties rounding up |
| Numeric.Ceil | static/app.js:942 | Math.ceil(x) is the least integer at or above x |
| Numeric.RemTau | static/app.js:55 | the JavaScript remainder by 2π keeps the sign of x, has magnitude below 2π, and differs from x by whole turns |
| Numeric.Lerp | static/app.js:32-34 | lerp gives a at t = 0, b at t = 1 and a when a = b |
| Numeric.LerpBetween | static/app.js:32-34 | for t in [0, 1] lerp stays between a and b |
| Numeric.EaseOutCubic | static/app.js:42-45 | easeOutCubic lies in [0, 1], is 0 for t ≤ 0 and 1 for t ≥ 1 |
| Numeric.EaseOutCubicMonotone | static/app.js:42-45 | easeOutCubic never decreases |
| Numeric.Hermite01Ends | static/app.js:58-64 | hermite01 is 0 for t ≤ 0 and 1 for t ≥ 1 whatever the slopes |
| Numeric.Hermite01Factored | static/app.js:58-64 | with arrival slope 0, hermite01 is smoothstep plus m0 times the start-slope basis |
| Numeric.Hermite01Bounded | static/app.js:58-64 | with arrival slope 0 and start slope in [0, 1], hermite01 stays in [0, 1] |
| Numeric.AngleDiffShortest | static/app.js:53-56 | the shortest difference lies in [-π, π) |
| Numeric.AngleDiffShortestCongruent | static/app.js:53-56 | it differs from b - a by a whole number of turns |
| Numeric.AngleDiffShortestExact | static/app.js:53-56 | when b - a already lies in [-π, π) it is exactly b - a |
| Numeric.NormalizeAngle | static/app.js:1614 | ((a % 2π) + 2π) % 2π lies in [0, 2π) |
| Numeric.NormalizeAngleCongruent | static/app.js:1614 | it differs from a by a whole number of turns |
| Numeric.Sign | static/app.js:2075 | Math.sign is -1, 0 or 1, agrees with the sign of x, and is 0 only at 0 |
| Numeric.Abs | static/app.js:2074 | Math.abs is non-negative and is x or -x |
| Color.Pack | static/app.js:39 | (r << 16) \| (g << 8) \| b is a 24-bit colour |
| Color.UnpackPack | static/app.js:36-39 | unpacking the channels of a packed colour gives back r, g and b |
| Color.ChannelsAreLowBits | static/app.js:30 | the three extracted channels rebuild the low 24 bits of n |
| Color.ToRGBA | static/app.js:29-31 | toRGBA's channels pack back to n's low 24 bits, with alpha as given |
| Color.ToRGBARoundTrip | static/app.js:29-31 | for a 24-bit colour, packing toRGBA's channels gives the colour back |
| Color.LerpChannel | static/app.js:36-38 | a rounded channel lerp stays within half a unit of the two channels' range |
| Color.LerpColor | static/app.js:35-40 | lerpColor is a 24-bit colour whose every channel is the rounded lerp of the inputs' channels |
| Color.LerpColorEnds | static/app.js:35-40 | lerpColor gives c1 at t = 0 and c2 at t = 1 (as 24-bit colours) |
| Color.LerpColorSame | static/app.js:35-40 | lerpColor between a colour and itself is that colour for every t in [0, 1] |
| Noise.Fade | static/app.js:80-82 | the fade f²(3 - 2f) maps [0, 1] into itself, fixing 0 and 1 |
| Noise.Mix01 | static/app.js:91-97 | a lerp of unit values stays between them |
| Noise.Corners | static/app.js:83-90 | valueNoise3 reads the eight hash values at the cell's corners |
| Noise.InterpWithinCorners | static/app.js:91-97 | the trilinear blend stays between the least and greatest corner value |
| Noise.InterpAtOrigin | static/app.js:91-97 | at offsets 0 the blend is the first corner's value |
| Noise.ValueNoise3AtLattice | static/app.js:73-98 | on a lattice point valueNoise3 is that point's hash |
| Noise.ValueNoise3WithinCell | static/app.js:73-98 | valueNoise3 stays within the range of its cell's corner hashes |
| Noise.WeightedSumWithinTotal | static/app.js:113-118 | the octave sum lies between 0 and the total weight, which is at least 1 |
| Noise.Normalised | static/app.js:119 | sum / norm lies in [0, 1] |
| Noise.OctaveLoop | static/app.js:109-119 | the accumulator loop returns the normalised weighted sum, a value in [0, 1] |
| Noise.FbmPeriodic3D | static/app.js:101-120 | fbmPeriodic3D is the normalised sum of its octaves and lies in [0, 1] |
| HeightMap.Component | static/app.js:161-162 | a byte mapped to (b / 255) * 2 - 1 lies in [-1, 1] |
| HeightMap.Nz | static/app.js:163 | the clamped normal z lies in [0.001, 1], so the slope division is defined |
| HeightMap.GradBounded | static/app.js:161-165 | each slope is at most 1000 times the strength in magnitude |
| HeightMap.Gradients | static/app.js:156-167 | the first loop fills pGrad and qGrad with each pixel's slopes |
| HeightMap.IntegrateRows | static/app.js:168-176 | Hx at (y, x) is the running sum of pGrad along row y, from 0 at column 0 |
| HeightMap.IntegrateColumns | static/app.js:177-183 | Hy at (y, x) is the running sum of qGrad down column x, from 0 at row 0 |
| HeightMap.RowSumOfConstantSlope | static/app.js:170-176 | a constant slope c integrates to c times the column |
| HeightMap.RowSumDifference | static/app.js:170-176 | the height difference between two columns is the sum of the slopes between them |
| HeightMap.HeightRange | static/app.js:185-191 | the min/max loop returns bounds of every height that are themselves attained |
| HeightMap.GrayOfMinimum | static/app.js:192-195 | the lowest height maps to grey 0 |
| HeightMap.GrayOfMaximum | static/app.js:192-195 | with a range of at least 1e-6 the highest height maps to grey 255 |
| HeightMap.GrayMonotone | static/app.js:193-195 | a higher point is never darker |
| HeightMap.Quantise | static/app.js:193-201 | every output pixel is the opaque grey of its normalised height |
| HeightMap.HeightsFromPasses | static/app.js:156-183 | the gradient and integration passes give each cell the mean of its row sum of x slopes and its column sum of y slopes of the normal map |
| HeightMap.ExtremesFromIndices | static/app.js:185-191 | the min/max over flat pixel indices are the least and greatest surface height over the grid, each attained |
| HeightMap.PixelsFromHeights | static/app.js:193-201 | the grey written at each flat index is the grey of that cell's surface height |
| HeightMap.NormalToHeight | static/app.js:144-201 | an empty image gives null; otherwise every pixel, at row y and column x, is the opaque grey of the height integrated from the normal map at that cell, placed in the range [min, max] of all heights, so the lowest pixel is black |
| HeightMap.Roughness | static/app.js:605 | bright pixels (luma over 0.5) get roughness 38, the rest 235 |
| HeightMap.Luma | static/app.js:604 | the Rec. 601 luma over 255 lies in [0, 1] |
| HeightMap.WaterMask | static/app.js:597-610 | every output pixel is the opaque grey roughness of its source luma |
| Sphere.SphereSegmentsForRadius | static/app.js:1088-1093 | the LOD gives 56 to 96 width and 40 to 64 height segments, fewer rings than segments |
| Sphere.SegmentsMonotone | static/app.js:1088-1093 | a larger sphere never gets fewer segments |
| Sphere.SphereGeometryCache.constructor | static/app.js:1076 | the cache starts empty |
| Sphere.SphereGeometryCache.GetSphereGeometry | static/app.js:1077-1085 | a cached key returns the same geometry and leaves the cache alone; a new key builds a geometry of those parameters and adds only it |
| Governor.DevicePR | static/app.js:413 | min(devicePixelRatio \|\| 1, 2) is positive, at most 2, and the device ratio when that is in (0, 2] |
| Governor.StartConfig | static/app.js:413-419 | the corrected band: 0 < floor ≤ ceiling ≤ 2 |
| Governor.StartConfigAgrees | static/app.js:413-419 | when the device ratio is at least the tier floor the corrected band is the band as written |
| Governor.ApplyPR | static/app.js:340-346 | the renderer ratio is either kept or becomes the clamped request |
| Governor.FpsSample | static/app.js:1975-1978 | the frame-rate sample 1/dt (60 for dt = 0) is positive |
| Governor.ClockAveragesSample | static/app.js:1975-1979 | the new estimate lies between the old estimate and the frame's sample |
| Governor.ClockSteadyRate | static/app.js:1975-1979 | frames arriving at the estimated rate leave the estimate unchanged |
| Governor.StepKeepsBand | static/app.js:2289-2305 | one frame keeps the target and the renderer ratio inside the band |
| Governor.RunKeepsBand | static/app.js:2289-2305 | any sequence of frames keeps both ratios inside the band |
| Governor.StepTargetChange | static/app.js:2289-2305 | the target changes only on a visible frame more than 1200 ms after the last change, by more than 0.02, and stamps that frame |
| Governor.StepLowModeToggle | static/app.js:2307-2324 | low mode is entered only from off under 24 fps, left only from on over 36 fps, each more than 1500 ms after the last toggle |
| Governor.AsWrittenExceedsDeviceRatio | static/app.js:413-419 | with the band as written, a 0.5 device ratio is raised to 0.66 on the first eligible frame |
| Governor.CappedKeepsDeviceRatio | static/app.js:413-419 | with the corrected band the same frame keeps the ratio at 0.5 |
| Governor.EnterLowIdempotent | static/app.js:348-372 | entering low mode twice equals entering it once, so the bump scale is not halved again |
| Governor.ExitLowCleans | static/app.js:374-395 | leaving low mode empties every save slot |
| Governor.ExitAfterEnter | static/app.js:348-395 | enter then exit restores the displacement and bump maps and cloud visibility, empties the slots, and restores the planet exactly when its bump scale was non-zero |
| Governor.EnterLowMode | static/app.js:348-372 | every planet of the array is put into low mode in place |
| Governor.ExitLowMode | static/app.js:374-395 | every planet of the array is taken out of low mode in place |
| Governor.PerformanceGovernor.constructor | static/app.js:418-424 | the band is the corrected start band, the target starts at its ceiling, low mode is off |
| Governor.PerformanceGovernor.Tick | static/app.js:2289-2324 | one frame steps the state as Step does, and the planets change only on a toggle, by entering or leaving low mode |
| Governor.PerformanceGovernor.UpdateClock | static/app.js:1969-1979 | the clock block updates the time anchor and the estimate |
| Governor.PerformanceGovernor.ScaleResolution | static/app.js:2289-2305 | the resolution block steps the target as DrsStep does |
| Governor.PerformanceGovernor.ToggleLowMode | static/app.js:2307-2324 | the toggle block steps the mode and enters or leaves low mode on the planets exactly when it toggles |
| Governor.PerformanceGovernor.SetRendererPixelRatio | static/app.js:340-346 | only the renderer's ratio changes, to the kept or clamped value |
| Governor.PerformanceGovernor.ResetTimeAnchor | static/app.js:2355-2360 | unfreezing sets the time anchor and nothing else |
| Camera.FramingRadius | static/app.js:1382 | the planet's radius when set and non-zero, otherwise 13 |
| Camera.ClampTo | static/app.js:1383-1384 | max(lo, min(hi, v)) lies in [lo, hi] and is v inside it |
| Camera.FollowOffset | static/app.js:1381-1385 | the follow offset is (0, oy, oz) with oy in [4, 24] and oz in [18, 110], equal to 1.5 r and 5 r when those fit |
| Camera.FollowOffsetMonotone | static/app.js:1381-1385 | a larger planet never gets a closer camera |
| Camera.FallbackFraming | static/app.js:1382-1385 | a planet without a radius is framed from (0, 19.5, 65) |
| Camera.FinalCameraPos | static/app.js:1709-1717 | null exactly for a missing planet, otherwise the planet's position plus its follow offset |
| Camera.CameraController.constructor | static/app.js:441-451 | damping on at 0.08, controls on, no tween, nothing followed, offset (0, 18, 60) |
| Camera.CameraController.StartFollowingMode | static/app.js:452-458 | damping is switched off and marked adjusted, its factor kept |
| Camera.CameraController.StopFollowingMode | static/app.js:459-465 | damping is back on with the saved factor and the mark cleared |
| Camera.CameraController.AnimateCameraTo | static/app.js:1322-1353 | the controls are disabled and the animating flag set for the tween |
| Camera.CameraController.FocusPlanet | static/app.js:1372-1396 | overview drops the follow and restores damping; a planet sets its offset, follows it with damping off; a missing planet changes nothing |
| Camera.CameraController.CompleteTween | static/app.js:1347-1351 | on completion the camera sits on the destination, the controls come back and the flag drops |
| Camera.CameraController.FollowFrame | static/app.js:2276-2286 | while following, camera and target move toward the planet by k; with nothing followed damping is restored |
| Camera.FocusThenLand | static/app.js:1372-1396 | a finished focus lands exactly where computeFinalCameraPosForPlanet predicts, with damping off iff a planet was followed |
| Camera.FollowThenOverview | static/app.js:1373-1377 | the overview after following restores damping with factor 0.08 and follows nothing |
| Camera.FollowStepBetween | static/app.js:2276-2283 | a follow step with weight in [0, 1] keeps each coordinate between the current and the desired one |
| Placement.ShrinkFacts | static/app.js:1445-1487 | the loop shrinks at most once per attempt, never lengthens, never goes below the floor, and each stop reason holds |
| Placement.ShrinkToFit | static/app.js:1450-1487 | the while (attempts-- > 0) loop computes the shrink result |
| Placement.StartLengthBounds | static/app.js:1405-1407 | with u in [0, 1) the jittered start lies in [1.935 r, 2.365 r), above 1.7 r |
| Placement.PlacedWithinShell | static/app.js:1445-1487 | a placed moon ends in [1.7 r, 2.365 r) |
| Placement.RandomizeMoonsOffsets | static/app.js:1402-1490 | without a host nothing changes; otherwise each moon gets its shrink loop's distance |
| Placement.AllPlacedWithinShell | static/app.js:1402-1490 | after placement every moon lies in [1.7 r, 2.365 r) |
| SettleOrder.Range | static/app.js:1573-1615 | orderData's indices are 0 .. n-1 in order |
| SettleOrder.InsertContents | static/app.js:1620 | one insertion step adds exactly the new index |
| SettleOrder.InsertBelow | static/app.js:1620 | an insertion step keeps every index in range |
| SettleOrder.InsertOrdered | static/app.js:1620 | an insertion step keeps the order sorted |
| SettleOrder.SortBelow | static/app.js:1620-1621 | the settle order holds only moon indices |
| SettleOrder.SortIsPermutation | static/app.js:1620-1621 | the settle order holds each moon index exactly once |
| SettleOrder.SortIsOrdered | static/app.js:1620-1621 | the settle order runs by descending angle, ties in index order |
| Moons.PlanetR | static/app.js:1555 | spec.r \|\| 12: never 0, the radius when set and non-zero |
| Moons.DelayBounds | static/app.js:1592 | moon i of n starts within [0, 800) ms, the first at once |
| Moons.DelayMonotone | static/app.js:1592 | later moons never start earlier |
| Moons.SortAngle | static/app.js:1614 | the sort key lies in [0, 2π) |
| Moons.SortAngles | static/app.js:1574-1615 | key i is moon i's normalised target angle |
| Moons.EntryAnim | static/app.js:1590-1612 | each anim starts in entryOrbit, ends one full turn after its start angle, at radius 2.2 planetR, within 800 ms of now |
| Moons.Conceal | static/app.js:1522-1530 | hiding freezes the moon, drops its anim and fade flag and keeps its position |
| Moons.SettleSlope | static/app.js:2072-2075 | the start slope is clamped to [-1, 1] with delta's sign |
| Moons.Hermite01AtMostOne | static/app.js:2074-2076 | with the clamped slope the settle curve never exceeds 1 |
| Moons.FrozenStaysPut | static/app.js:2029 | a frozen moon is never moved |
| Moons.EntryOrbitKeepsRadius | static/app.js:2043-2051 | during the entry orbit the radius is exactly startR at height 0 |
| Moons.EntryOrbitHandsOver | static/app.js:2052-2060 | at the orbit's end the moon switches to settle from its current place, with no radius jump |
| Moons.SettleAngleAtStart | static/app.js:2068-2077 | at progress 0 the settle angle is its start angle |
| Moons.SettleStartsInPlace | static/app.js:2067-2083 | at progress 0 the settle position is its stored start |
| Moons.SettleFinishes | static/app.js:2084-2093 | a finished settle snaps to the stored offset, clears the anim and releases the sequencer |
| Moons.CurveAngleWithin | static/app.js:2068-2077 | start + delta * hermite01(t, v, 0) with the slope v in [-1, 1] signed like delta stays on the near side of start + delta |
| Moons.SettleNoOvershoot | static/app.js:2068-2077 | the settle angle never passes the target |
| Moons.FadeStartsOnce | static/app.js:2034-2039 | a started fade stays started |
| Moons.FadeStartsWithAnimation | static/app.js:2034-2039 | the fade has started once the animation has begun |
| Moons.StepNeverOrbits | static/app.js:2043-2098 | no step puts a moon into the legacy orbit phase |
| Moons.SequencerPick | static/app.js:2101-2109 | the sequencer only picks a moon in range that is in the orbit phase |
| Moons.SequencerInert | static/app.js:2109 | with no moon in the orbit phase the sequencer never picks one |
| Moons.MoonSet.constructor | static/app.js:1398 | a new set has no order, cursor 0, not active |
| Moons.MoonSet.HideMoons | static/app.js:1522-1544 | every moon of the set is concealed in place |
| Moons.MoonSet.EnterAll | static/app.js:1574-1618 | every moon gets its entry anim and start position in place |
| Moons.MoonSet.StartEntryAnimation | static/app.js:1547-1622 | nothing for an empty set or missing host; otherwise cursor 0, not active, every moon entered, order the sorted angles |
| Moons.MoonSet.RevealAll | static/app.js:1501-1516 | every moon is revealed in place: visible, unfrozen, transparent, fade not started |
| Moons.MoonSet.ShowMoons | static/app.js:1498-1521 | every moon revealed then entered, the cursor reset and the order set to the moons sorted by target angle; for an empty set or missing host only the reveal, with order, cursor and active flag unchanged; the raycast pause reaches at least now + 450 ms |
| Moons.ReleasesZero | static/app.js:2084-2093 | no release is counted exactly when no moon finishes settling |
| Moons.ReleasesAppend | static/app.js:2084-2093 | releases add up over consecutive runs of moons |
| Moons.AdvanceCursor | static/app.js:2091-2092 | the cursor advanced by the releases stays between its old value and the total, and is either the total or old value plus releases |
| Moons.AdvanceCursorTwice | static/app.js:2092 | advancing by Math.min(cursor + 1, total) in two batches equals one batch of both |
| Moons.MoonSet.UpdatePositions | static/app.js:2025-2100 | every moon steps; once the cursor exists, any release clears the active flag and the cursor becomes min(cursor + releases, total); with no release, or before the first entry animation, cursor and flag are unchanged |
| Moons.MoonSet.RunSettleSequencer | static/app.js:2101-2120 | the picked moon, if any, starts settling and the set becomes active; otherwise nothing changes |
| Moons.MoonFrame | static/app.js:2121-2128 | a frame steps every moon, keeps the order, sets the cursor to min(cursor + releases, total) and clears the active flag when a moon is released, and changes neither otherwise |
| Overlay.FontBounds | static/app.js:879-880 | the label font runs from 15 px down to 3 px |
| Overlay.WrapLinesFit | static/app.js:882-898 | every wrapped line fits the width unless it is one over-wide word |
| Overlay.WrapKeepsText | static/app.js:882-898 | joining the wrapped lines gives back the words, none lost and none added |
| Overlay.WrapKeepsTextState | static/app.js:886-895 | the wrap loop's invariant: finished lines plus the current line spell the words so far |
| Overlay.FitLabel | static/app.js:899-904 | the label ends at the largest font of at most 15 px with at most 4 lines, or at 3 px |
| Overlay.PillConstants | static/app.js:936-937 | pill padding 4 px, gap 3 px |
| Overlay.PillWidth | static/app.js:942 | every pill is at least 8 px wide |
| Overlay.LayoutPills | static/app.js:935-991 | one hotspot per link, left to right from the centred start, each a gap after the previous, with its link's href and text |
| Overlay.PillsSpaced | static/app.js:985 | neighbouring pills are one gap apart and never overlap |
| Overlay.RowCentred | static/app.js:945-946 | the row's left and right margins differ by at most one pixel |
| Overlay.RowEndsAtTotal | static/app.js:945-946 | the last pill ends at the row start plus the total width |
| Pointer.SpriteRect | static/app.js:1910-1915 | the sprite's rectangle has non-negative size and is centred on the projected centre |
| Pointer.Pad | static/app.js:1924 | the hit slop is at least 2 px, and exactly 2 for canvases up to 208 px |
| Pointer.FirstHitFromFinds | static/app.js:1925-1931 | the scan finds the earliest pill hit, and none exactly when no pill is hit |
| Pointer.FirstHit | static/app.js:1925-1931 | the hotspot loop returns the first pill hit |
| Pointer.HotspotLink | static/app.js:1889-1931 | openHotspotLinkIfAny gives the href of the pill under the pointer, null when it is empty or there is none |
| Pointer.PillHoverIndex | static/app.js:2143-2186 | the hover pass gives the pill under the pointer's index, or -1 |
| Pointer.PillUnderIsFirstHit | static/app.js:2170-2184 | the pill under the pointer is on the rectangle and is the first pill hit; there is none off the rectangle or off every pill |
| Pointer.ClickAgreesWithHover | static/app.js:1918-1931 | a link a click opens is the href of the pill the hover highlights |
| Pointer.Click | static/app.js:1886-1951 | with pills, only a pill's link opens; without pills, the sprite's own href |
| Pointer.ClickWithPills | static/app.js:1886-1944 | a click on a sprite with pills opens a non-empty pill href, and nothing off the rectangle or without a positive canvas size |
| Pointer.CursorFor | static/app.js:2214-2215 | the hand over a pill, or over a sprite without pills; the default otherwise |

## Left out

- The three.js scene graph, WebGLRenderer, OrbitControls and `onResize` are left out. They are library calls. The renderer's pixel ratio is a field.
- `dirFromAngle`, `atan2`, `Math.sqrt`, camera projection and `toScreen` are inputs. Positions are (angle, planar radius, height). The on-screen fit test is a function parameter.
- Kepler orbit numerics (`solveKeplerE`, `trueAnomalyFromE`, `elementsToWorldPosition`) and orbit lines are transcendental and are not modelled. The follow smoothing weight `1 - exp(-6 dt)` is the parameter k.
- Asset loading, promises, `requestIdleCallback`, `waitForSpritesReady` and the preloader are asynchronous I/O and are not modelled.
- gsap tweens are modelled only by the values and flags handed to them. The moon fade's target opacity is set at once. The camera tween's in-between frames are not modelled; its completion is `CompleteTween`. Overlapping tweens and `overwrite` are not modelled.
- Noise.Hash3: the integer mixing is an abstract function to unsigned 32-bit values. Its products pass 2^53 before the 32-bit coercion. Only the division by 2^32 - 1 is modelled.
- Noise.FbmPeriodic3D: the (u, v) to unit-sphere mapping uses trigonometry and is an input. A call with 0 octaves, which divides 0 by 0, is excluded; every caller passes at least one.
- Color: `>>`, `&` and `|` are modelled as integer division and remainder. This agrees with 32-bit arithmetic for colours below 2^31, and every colour in the scene is a 24-bit literal.
- Canvas drawing (the sun texture, the starfield, overlay text and pill shapes, hover styles) is rendering. The description wrap is drawn but produces no state and is not modelled.
- Overlay.FitLabel: `measureText` is a parameter, and the label's words are an input, as `split(/\s+/)` yields them.
- Overlay.WrapKeepsText: requires non-empty words. The empty strings `split` yields at the ends of padded text are not covered.
- Placement.RandomizeMoonsOffsets: the golden-spiral direction and the persisted `__frontDir` are trigonometric and are not modelled. Each moon is modelled by the length of its offset.
- Moons.MoonSet.HideMoons: the sprite becomes invisible only when the fade-out tween completes, and that is not modelled.
- The `orbit` branch of the per-frame step reads `orbitLoopStartAngle` and `orbitLoopStartTime`. Nothing ever sets them, so the model uses `orbitEndAngle`.
- Moon arrays never hold null entries, so the `if (!m) return` guards are not modelled.
- `pointerDirty`, the raycast throttle, `hoveredMoon`'s overlay opacity tweens and `window.open` are UI effects. A click is the `OpenLink` action.
- Pointer.HotspotLink: the projected corners of the sprite are inputs to `SpriteRect`.
- Sphere.SphereGeometryCache.GetSphereGeometry: the string key `${radius}|${w}|${h}` is a record key. Two radii with the same decimal string are treated as distinct.
- The keyboard handler, navigation, `setCenter`, `static/index.js` and the email form are DOM and network code and are not modelled.
- `try`/`catch` paths that swallow exceptions from library calls are not modelled.
- Floating-point rounding is not modelled: every number is an exact real.

## Findings

| source | as written | input that shows it | evidently intended | confidence | as-written member | corrected member |
|---|---|---|---|---|---|---|
| static/app.js:413-419 | the resolution floor `__PR_MIN` is 0.66 or 0.8 whatever the device ratio, so it can exceed the ceiling `__PR_MAX` | devicePixelRatio 0.5 (a zoomed-out page): ceiling 0.5, floor 0.66, and the first resolution step after 1.2 s sets the target to 0.66 | the target stays in a band whose ceiling is the device ratio, with the floor capped at it | not executed | Governor.AsWrittenExceedsDeviceRatio | Governor.CappedKeepsDeviceRatio |
