# Scroll-driven 3D scene and floating dock of a portfolio site, in Dafny

This project models the animation core of a personal portfolio site and
proves properties of the model. The models are:

- **Scroll sampler** (`ScrollSampler`, scroll_sampler.dfy). A scroll listener
  throttled to one accepted event per 16 ms. Each accepted event cancels the
  pending animation-frame request and issues a new one. The frame callback
  turns the scroll geometry into a progress value clamped to [0, 1].
- **Camera director** (`CameraDirector`, camera_director.dfy). The
  `FlightDirector` frame step. It searches the six-entry keyframe table for
  the segment that brackets the progress, computes the segment-local
  progress, applies an ease-in-out-quad curve and blends position and
  look-at. Then it damps the camera toward that target by 8% per frame.
- **Intro sequencer** (`IntroSequencer`, intro_sequencer.dfy). The
  `SR71Model` frame step. It takes the start time on the first frame and
  flies the model in from z = -20 to z = 0 over 1.5 s with a cubic ease-out.
  It also writes the idle bob and damps the rotation by 30% per frame toward
  the bank / pitch / yaw target.
- **Streamlines** (`Streamlines`, streamlines.dfy). A pool of 20 particles
  in an array, updated in place every frame. A particle drifts along z,
  wobbles sideways, and is recycled behind the inlet once it passes z = 12.
  Its opacity is the product of two depth ramps.
- **Afterburner flicker** (`Afterburner`, afterburner.dfy). A weighted sum
  of three sines, normalised and mapped to opacity and emissive intensity.
- **Floating dock** (`FloatingDock`, floating_dock.dfy). The expand/collapse
  state machine over `isExpanded` and `isManuallyOpen`, and the
  active-section cascade. Also the ease-in-out-cubic scroll easing, the
  mobile test and the dock size.

`Numeric` (numeric.dfy) holds the two interpolation rules of three.js:
`THREE.MathUtils.lerp` and the in-place `Vector3.lerp`. It also holds
repeated damping and the facts about powers and cubes that the easing
proofs use.

Inputs the model takes as parameters:
- `Math.sin` / `Math.cos` values, bounded in [-1, 1] where a property needs it;
- `Math.random()` draws, in [0, 1);
- `Date.now()` in integer milliseconds, and the render clock in seconds;
- the page geometry: `scrollY`, `innerHeight`, `scrollHeight`, and the
  section elements.

All arithmetic is over `real`.

Points where the code does something one might not expect; the model
follows the code:
- **Throttle.** An event less than 16 ms after the last accepted one is
  dropped (`BurstKeepsFirst`, `AcceptedSnoc`). It does not replace the
  earlier event.
- **Keyframe thresholds.** The thresholds rise strictly
  (`ThresholdsIncrease`), so no segment has zero length. The camera holds
  still because neighbouring keyframes have equal position and look-at
  (`HoldAbout`, `HoldEngineering`). The only zero-length bracket is at or
  past the last threshold (`Target`).
- **Particle opacity.** It is not always in [0, 1]. A particle respawned or
  created behind z = -10 has a negative fade-in. Its opacity then lies in
  (-0.1, 0) (`Streamlines.Opacity`).
- **Dock click at the top.** The dock's scroll effect depends on
  `isManuallyOpen`. React re-runs the effect, and with it the listener,
  every time a render has changed that cell. After a dot click at
  scrollY = 0 the first re-run clears both flags. That changes the cell
  again, so a second re-run applies the standard rule at scrollY = 0. The
  dock therefore ends collapsed, unless the hero section ends above the
  page top (`ClickAtTopCollapses`). On this site the hero is the first
  section of the page, so it always collapses. Below the top a click keeps
  the dock open by hand (`ClickBelowTopOpens`).

## Model

| member | source | states |
|---|---|---|
| `ScrollSampler.Progress` | src/components/AeroWireframe.tsx:489-493 | progress is in [0, 1]; it is 0 when the scrollable range is not positive or scrollY is not positive, 1 at or past the end of the range, and otherwise progress × range = scrollY |
| `ScrollSampler.ProgressMonotone` | src/components/AeroWireframe.tsx:490-492 | scrolling further down never lowers the progress |
| `ScrollSampler.ProgressHalfWay` | src/components/AeroWireframe.tsx:489-493 | scrollY 600 on a 2000 px page in an 800 px window gives exactly 0.5 |
| `ScrollSampler.AcceptedTimes` | src/components/AeroWireframe.tsx:496-502 | the throttle keeps no more events than arrive, and every kept time is one of the arrival times |
| `ScrollSampler.AcceptedAreSpaced` | src/components/AeroWireframe.tsx:496-502 | every accepted event comes at least 16 ms after the previously accepted one |
| `ScrollSampler.SpacedAreAccepted` | src/components/AeroWireframe.tsx:496-502 | events that are already 16 ms apart are all accepted (converse of the above) |
| `ScrollSampler.Accepts` | src/components/AeroWireframe.tsx:498 | the throttle test: an event at `now` passes iff now − lastUpdate ≥ 16; its role over a stream of events is stated by `AcceptedSnoc` |
| `ScrollSampler.AcceptedSnoc` | src/components/AeroWireframe.tsx:496-502 | event by event: a new event is kept iff it comes 16 ms or more after the last kept time (or after the initial lastUpdate when none was kept); otherwise it is dropped and the kept times stay as they were |
| `ScrollSampler.AcceptedIsSubsequence` | src/components/AeroWireframe.tsx:496-502 | the kept times are the arrival times with some left out, in arrival order |
| `ScrollSampler.ThrottleExample` | src/components/AeroWireframe.tsx:497-501 | with lastUpdate 0, events at 16, 30 and 40 ms keep 16 and 40: the event at 30 is dropped and 40 is measured from 16 |
| `ScrollSampler.BurstKeepsFirst` | src/components/AeroWireframe.tsx:497-498 | of two events less than 16 ms apart only the first is accepted; the later one is dropped |
| `ScrollSampler.Sampler.constructor` | src/components/AeroWireframe.tsx:486-505 | the refs start at 0 and the progress at 0; the listener runs once on mount, and the event is accepted iff now ≥ 16 |
| `ScrollSampler.Sampler.HandleScroll` | src/components/AeroWireframe.tsx:496-502 | the event is accepted iff now − lastUpdate ≥ 16; a rejected event changes nothing; an accepted one sets lastUpdate := now and cancels the pending request, so exactly one new request is pending; at most one request is ever pending |
| `ScrollSampler.Sampler.RunFrame` | src/components/AeroWireframe.tsx:489-493 | running the pending request stores Progress of the geometry at that moment and leaves nothing pending |
| `ScrollSampler.Sampler.Unmount` | src/components/AeroWireframe.tsx:507-510 | teardown cancels the pending frame request |
| `CameraDirector.ThresholdsIncrease` | src/components/AeroWireframe.tsx:93-102 | the keyframe thresholds rise strictly (0, 0.23, 0.28, 0.4, 0.786453, 1.0) |
| `CameraDirector.FirstSegment` | src/components/AeroWireframe.tsx:320-326 | the search returns the first segment from i on whose thresholds hold p, and no earlier segment holds p |
| `CameraDirector.SegmentFound` | src/components/AeroWireframe.tsx:317-332 | every p from the first threshold up to (not including) the last threshold lies in some segment |
| `CameraDirector.Bracket` | src/components/AeroWireframe.tsx:316-332 | for p ≥ the last threshold both ends are the last keyframe; for 0 ≤ p below it the pair is (i, i+1) for the first i with kf[i].scroll ≤ p ≤ kf[i+1].scroll; for p < 0 it is the initial pair (0, 1) |
| `CameraDirector.FindBracket` | src/components/AeroWireframe.tsx:316-332 | the loop with break, followed by the past-the-end override, returns exactly Bracket(p) |
| `CameraDirector.SegmentProgress` | src/components/AeroWireframe.tsx:334-338 | 1 for a zero range; in [0, 1] for p inside a positive range; 0 at the start and 1 at the end of the range |
| `CameraDirector.EaseInOutQuad` | src/components/AeroWireframe.tsx:340-343 | maps 0, 0.5 and 1 to themselves and [0, 1] into [0, 1] |
| `CameraDirector.EaseSymmetric` | src/components/AeroWireframe.tsx:340-343 | ease(1 − s) = 1 − ease(s) for every s, so the two branches mirror each other |
| `CameraDirector.EaseMonotone` | src/components/AeroWireframe.tsx:340-343 | the curve never decreases on [0, 1] |
| `CameraDirector.LerpVec` | src/components/AeroWireframe.tsx:346-355 | the component-wise blend gives its first vector at 0, its second at 1, and a vector blended with itself is unchanged |
| `CameraDirector.SegmentTarget` | src/components/AeroWireframe.tsx:345-355 | a zero-length bracket gives its keyframe; a segment's blend is its first keyframe at its start threshold and its second keyframe at its end threshold, so neighbouring segments agree where they meet |
| `CameraDirector.Target` | src/components/AeroWireframe.tsx:316-355 | the blend of the bracketing keyframes; for p ≥ the last threshold it is the last keyframe; its values at the thresholds and on the flat stretches are stated by `TargetAtKeyframe`, `HoldAbout` and `HoldEngineering` |
| `CameraDirector.TargetAtKeyframe` | src/components/AeroWireframe.tsx:316-355 | at every keyframe's threshold the target is that keyframe's position and look-at |
| `CameraDirector.HoldAbout` | src/components/AeroWireframe.tsx:95-96 | for p in [0.23, 0.28] the target is the About keyframe |
| `CameraDirector.HoldEngineering` | src/components/AeroWireframe.tsx:99-100 | for p in [0.4, 0.786453] the target is the Engineering keyframe |
| `CameraDirector.HalfWayExample` | src/components/AeroWireframe.tsx:316-355 | at p = 0.5 the bracket is (3, 4); segment progress lies in (0.25, 0.26), the eased value in (0.13, 0.14), and the target is the Engineering keyframe |
| `CameraDirector.Step` | src/components/AeroWireframe.tsx:357-359 | each frame leaves exactly 0.92 of every component's distance to Target(p), and a state at its target stays put |
| `CameraDirector.StepsConverge` | src/components/AeroWireframe.tsx:357-359 | after n frames at a fixed progress, 0.92^n of every component's initial distance is left |
| `CameraDirector.StepsShrink` | src/components/AeroWireframe.tsx:357-359 | the factor 0.92^n left after n frames is positive and falls strictly with every frame |
| `Numeric.PowDecreasing` | src/components/AeroWireframe.tsx:358-359 | powers of a base strictly between 0 and 1 are positive and fall strictly |
| `CameraDirector.MountedAtRest` | src/components/AeroWireframe.tsx:305-311 | the camera mounted at keyframe 0 stays exactly there for any number of frames at progress 0 |
| `CameraDirector.FlightDirector.constructor` | src/components/AeroWireframe.tsx:305-311 | on mount the camera state is keyframe 0's position and look-at |
| `CameraDirector.FlightDirector.Frame` | src/components/AeroWireframe.tsx:313-363 | the new camera state is one damping step (factor 0.08) from the old state toward Target(p); the camera receives the new state |
| `Numeric.Lerp` | src/components/AeroWireframe.tsx:234 | MathUtils.lerp: gives its ends at t = 0 and t = 1, stays between them for t in [0, 1], and leaves (1 − t) of the distance to the far end |
| `Numeric.Approach` | src/components/AeroWireframe.tsx:358-359 | one Vector3.lerp step leaves exactly (1 − alpha) of the distance to the goal |
| `Numeric.DampedDistance` | src/components/AeroWireframe.tsx:358-359 | n damping steps toward a fixed goal leave (1 − alpha)^n of the distance |
| `IntroSequencer.EaseOutCubic` | src/components/AeroWireframe.tsx:64 | maps 0 to 0 and 1 to 1, and [0, 1] into [0, 1] |
| `IntroSequencer.EaseOutCubicMonotone` | src/components/AeroWireframe.tsx:64 | the curve never decreases on [0, 1] |
| `IntroSequencer.IntroProgress` | src/components/AeroWireframe.tsx:226-232 | 0 at the first frame, exactly 1 once 1.5 s have passed, always in [0, 1] |
| `IntroSequencer.IntroProgressMonotone` | src/components/AeroWireframe.tsx:226-232 | the intro progress never decreases as time passes, including across the 1.5 s boundary |
| `IntroSequencer.IntroZ` | src/components/AeroWireframe.tsx:234 | −20 at the first frame, exactly 0 from 1.5 s on, always in [−20, 0] |
| `IntroSequencer.IntroZMonotone` | src/components/AeroWireframe.tsx:226-234 | the model only moves toward its resting depth |
| `IntroSequencer.TiltTarget` | src/components/AeroWireframe.tsx:239-257 | the rotation target is (0.25·bank, yaw, bank); with trig values in [−1, 1] it lies in the box ±0.0625 × ±0.04 × ±0.25 |
| `IntroSequencer.RotationStep` | src/components/AeroWireframe.tsx:243-257 | each frame leaves exactly 0.7 of every rotation component's distance to its target |
| `IntroSequencer.RotationStaysInRange` | src/components/AeroWireframe.tsx:243-257 | damping toward targets inside the tilt box never leaves the box |
| `IntroSequencer.Bob` | src/components/AeroWireframe.tsx:239 | the bob offset stays within ±0.25 |
| `IntroSequencer.Sr71Model.constructor` | src/components/AeroWireframe.tsx:184-265 | the refs at 184-186: no start time yet, intro progress 0; the group as declared at 265: z = −20, with zero rotation |
| `IntroSequencer.Sr71Model.Frame` | src/components/AeroWireframe.tsx:218-262 | the start time is taken on the first frame only and never changes; on that frame z = −20; progress and z follow IntroProgress / IntroZ of the time since start; y is the bob; the rotation takes one damping step toward the tilt target and stays in the tilt box |
| `Streamlines.Spawn` | src/components/AeroWireframe.tsx:380-397 | a new record has speed in [2, 4), z in (−12, −8], xOffset in [−3, 3), yOffset in [−2, 2), length in [1.5, 3.5), opacity 0.9, positioned at its offsets |
| `Streamlines.Opacity` | src/components/AeroWireframe.tsx:421-424 | in [0, 0.2] for z in [−10, 12]; 0.2 for z in [−6, 8]; 0 at z = −10 and z = 12; negative, in (−0.1, 0), for z in (−12, −10) |
| `Streamlines.Advance` | src/components/AeroWireframe.tsx:407-425 | speed and length never change; x and y wobble around the offsets held before any respawn; a particle that stays inside moves by speed·0.03 and keeps its offsets; one that passes z = 12 goes to z in (−12, −10] with xOffset in [−4, 4) and yOffset in [−2, 2); opacity is Opacity of the new z |
| `Streamlines.AdvancePreserves` | src/components/AeroWireframe.tsx:407-425 | every frame keeps each record within z in (−12, 12], speed in [2, 4) and the offset ranges, with opacity in (−0.1, 0.2] |
| `Streamlines.Pool.constructor` | src/components/AeroWireframe.tsx:374-402 | the pool holds exactly 20 records, record i built from the i-th draws |
| `Streamlines.Pool.Tick` | src/components/AeroWireframe.tsx:404-426 | each record i is replaced in place by Advance of its old value; the pool stays 20 records that all keep the record invariant |
| `Afterburner.Flicker` | src/components/AeroWireframe.tsx:154-157 | with sine values in [−1, 1] the weighted sum lies in [−1, 1] and reaches both ends |
| `Afterburner.Normalized` | src/components/AeroWireframe.tsx:159 | maps [−1, 1] onto [0, 1], end to end |
| `Afterburner.GlowOf` | src/components/AeroWireframe.tsx:154-161 | opacity lies in [0.1, 0.15] and emissive intensity in [1.0, 1.8] |
| `Afterburner.GlowInStep` | src/components/AeroWireframe.tsx:160-161 | emissive intensity is 1 + 16·(opacity − 0.1), so both rise and fall together |
| `Afterburner.GlowMonotone` | src/components/AeroWireframe.tsx:154-161 | a larger flicker sum never lowers opacity or intensity |
| `Afterburner.GlowMaterial.constructor` | src/components/AeroWireframe.tsx:167-175 | the material starts at opacity 0.1 and emissive intensity 0.4 |
| `Afterburner.GlowMaterial.Frame` | src/components/AeroWireframe.tsx:147-162 | the frame writes GlowOf of the three sines, within the bounds above |
| `FloatingDock.EaseInOutCubic` | src/components/FloatingDock.tsx:31-35 | f(0) = 0, f(0.5) = 0.5, f(1) = 1; [0, 1] into [0, 1]; below 0.5 on the first half and at least 0.5 on the second |
| `FloatingDock.EaseInOutCubicMonotone` | src/components/FloatingDock.tsx:31-35 | the curve never decreases on [0, 1] |
| `FloatingDock.ActiveSection` | src/components/FloatingDock.tsx:162-172 | with mid = scrollY + innerHeight/2: contact iff present and reached; works iff contact is not and works is; about iff neither of those is and about is; hero otherwise; absent sections are skipped |
| `FloatingDock.OnScroll` | src/components/FloatingDock.tsx:136-173 | no hero: no change; not manually open: isExpanded iff scrollY > 0.3·(hero top + height), isManuallyOpen stays false; manually open: scrollY = 0 clears both flags, any other scrollY keeps both true; the active section is the cascade's |
| `FloatingDock.OnDotClick` | src/components/FloatingDock.tsx:181-186 | afterwards isExpanded always holds; a collapsed dock becomes manually open; an expanded one is unchanged |
| `FloatingDock.Rerun` | src/components/FloatingDock.tsx:175-179 | the effect re-runs the listener for as long as the previous run changed isManuallyOpen: no change means no re-run; at most two re-runs follow one event; re-runs can clear the manual flag but never set it; isManuallyOpen ⇒ isExpanded is kept |
| `FloatingDock.Apply` | src/components/FloatingDock.tsx:135-186 | a scroll or click, followed by the effect's re-runs, keeps isManuallyOpen ⇒ isExpanded |
| `FloatingDock.Run` | src/components/FloatingDock.tsx:135-186 | no events leave the cells as they are; isManuallyOpen ⇒ isExpanded holds after any sequence of scrolls and clicks from a state where it holds |
| `FloatingDock.InitialCoherent` | src/components/FloatingDock.tsx:123-125 | from the initial state (false, false, hero) the implication holds after any sequence of events |
| `FloatingDock.ClickAtTopCollapses` | src/components/FloatingDock.tsx:149-186 | at scrollY = 0, clicking the collapsed dot leaves it not manually open after the two re-runs, and expanded iff the hero section ends above the page top; without a hero section the click stands |
| `FloatingDock.ClickBelowTopOpens` | src/components/FloatingDock.tsx:149-186 | below the top, clicking the collapsed dot leaves it expanded and manually open |
| `FloatingDock.IsMobile` | src/components/FloatingDock.tsx:129 | the mobile test: a window narrower than 640 px; `CheckMobile` writes it into the cell |
| `FloatingDock.DockSize` | src/components/FloatingDock.tsx:200-201 | collapsed 20×20; expanded 220×56 on mobile and 320×72 otherwise |
| `FloatingDock.DockSizeOrder` | src/components/FloatingDock.tsx:200-201 | expanding always enlarges the dock, and the mobile bar is smaller than the desktop one |
| `FloatingDock.FloatingDock.constructor` | src/components/FloatingDock.tsx:123-126 | the cells start collapsed, not manually open, on hero, not mobile |
| `FloatingDock.FloatingDock.CheckMobile` | src/components/FloatingDock.tsx:129 | isMobile := innerWidth < 640 and nothing else changes |
| `FloatingDock.FloatingDock.HandleScroll` | src/components/FloatingDock.tsx:136-173 | the setter calls leave the cells at OnScroll of the old cells and keep isManuallyOpen ⇒ isExpanded |
| `FloatingDock.FloatingDock.HandleDotClick` | src/components/FloatingDock.tsx:181-186 | the setter calls leave the cells at OnDotClick of the old cells |
| `FloatingDock.FloatingDock.Dispatch` | src/components/FloatingDock.tsx:135-186 | the handler, then the effect's re-runs for as long as the previous run changed isManuallyOpen, leave the cells at Apply of the old cells |
| `FloatingDock.FloatingDock.Size` | src/components/FloatingDock.tsx:199-202 | returns DockSize of the current cells; a manually opened dock is larger than the dot |

## Left out

- Rendering and library objects are not modelled: JSX, framer-motion, Three.js geometry and materials, GLTF loading and traversal, the engine nacelles, the fallback SVG and the Scene and Canvas composition. They are markup and foreign library calls.
- `Math.sin`, `Math.cos` and `Math.random` cannot be computed here. Their results are parameters: trig values in [−1, 1], draws in [0, 1). The doc comments of the `Frame` methods give the phase angle of each value.
- IEEE floating-point rounding is not modelled: all arithmetic is over exact reals.
- Host scheduling is reduced to the set of frame requests still pending: `requestAnimationFrame` ordering, listener registration and `{ passive: true }` are not modelled. `Date.now()` and the render clock are inputs.
- `scrollState` is a module-level object shared by every mount. Here it is a field of one `Sampler`, so a value carried over from an earlier mount is not modelled.
- `camera.lookAt` turns a look-at point into an orientation. `FlightDirector.Frame` returns the point it is given and does not model the orientation.
- The early returns when `groupRef` or `materialRef` is still null are not modelled. The model starts from a mounted group and material.
- `Streamlines.Pool.Tick`: each record's fields are updated through an object reference in the source. Here a whole record value in the array is replaced. This is the same because no record is shared. The line geometry (two points, `length`) is kept only as the record's length.
- `lenis.scrollTo` and `scrollIntoView` are not modelled; only the easing curve passed to them is. They are I/O and a library call.
- The dock's tooltip and hover state, border radius, cursor style and other presentation details are not modelled. They feed only rendering.
- React batches the setter calls of one handler. The model applies them in order, which gives the same final cells because each handler sets each cell at most once.
- About.tsx, page.tsx, tailwind.config.ts and next.config.mjs are not modelled. They hold static content, composition and configuration.
