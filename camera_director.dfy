/**
 * The FlightDirector of AeroWireframe: a keyframe table indexed by scroll
 * progress, a search for the segment that brackets the current progress,
 * an ease-in-out-quad blend inside that segment, and exponential damping
 * of the camera toward the blended target on every frame.
 */
module CameraDirector {
  import opened Numeric

  datatype Vec3 = Vec3(x: real, y: real, z: real)

  datatype Keyframe = Keyframe(scroll: real, pos: Vec3, target: Vec3, name: string)

  /** CAMERA_KEYFRAMES. */
  const Keyframes: seq<Keyframe> := [
    Keyframe(0.0,      Vec3(-4.0, 3.0, -8.0),  Vec3(0.0, 1.0, -2.0),  "Hero"),
    Keyframe(0.23,     Vec3(-4.0, 4.0, -8.0),  Vec3(1.0, 1.5, -4.0),  "About"),
    Keyframe(0.28,     Vec3(-4.0, 4.0, -8.0),  Vec3(1.0, 1.5, -4.0),  "About"),
    Keyframe(0.4,      Vec3(-3.0, 3.0, 9.0),   Vec3(1.0, 1.0, -6.0),  "Engineering"),
    Keyframe(0.786453, Vec3(-3.0, 3.0, 9.0),   Vec3(1.0, 1.0, -6.0),  "Engineering"),
    Keyframe(1.0,      Vec3(-2.0, -3.0, 11.0), Vec3(-3.5, 5.0, -9.0), "Contact")
  ]

  /** Index of the last keyframe. */
  const Last: nat := |Keyframes| - 1

  /** The blend factor of Vector3.lerp in the frame step. */
  const CameraDamping: real := 0.08

  /** The thresholds rise strictly: no segment of the table has zero length. */
  lemma ThresholdsIncrease(i: nat, j: nat)
    requires i < j < |Keyframes|
    ensures Keyframes[i].scroll < Keyframes[j].scroll
  {
  }

  /** The loop's test for segment i. */
  predicate InSegment(p: real, i: nat)
    requires i < Last
  {
    p >= Keyframes[i].scroll && p <= Keyframes[i + 1].scroll
  }

  /** The first segment at or after i that holds p, or Last when none does. */
  function FirstSegment(p: real, i: nat): (j: nat)
    requires i <= Last
    ensures i <= j <= Last
    ensures j < Last ==> InSegment(p, j)
    ensures forall k :: i <= k < j && k < Last ==> !InSegment(p, k)
    decreases Last - i
  {
    if i == Last then i else if InSegment(p, i) then i else FirstSegment(p, i + 1)
  }

  /** Some segment holds every p from a threshold up to the last one. */
  lemma {:induction false} SegmentFound(p: real, i: nat)
    requires i < Last && Keyframes[i].scroll <= p < Keyframes[Last].scroll
    ensures FirstSegment(p, i) < Last
    decreases Last - i
  {
    if !InSegment(p, i) {
      ThresholdsIncrease(i + 1, Last);
      SegmentFound(p, i + 1);
    }
  }

  /** The (start, end) keyframe indices the frame step blends between. */
  function Bracket(p: real): (b: (nat, nat))
    ensures b.0 <= b.1 <= Last
    // at or past the last threshold both ends are the last keyframe
    ensures p >= Keyframes[Last].scroll ==> b == (Last, Last)
    // inside the table: the first segment that holds p
    ensures 0.0 <= p < Keyframes[Last].scroll ==>
              b.1 == b.0 + 1 && InSegment(p, b.0) &&
              forall k :: 0 <= k < b.0 ==> !InSegment(p, k)
    // below the table: the first segment, as initialised
    ensures p < 0.0 ==> b == (0, 1)
  {
    if p >= Keyframes[Last].scroll then (Last, Last)
    else
      var j := FirstSegment(p, 0);
      assert 0.0 <= p ==> j < Last by {
        if 0.0 <= p { SegmentFound(p, 0); }
      }
      if j < Last then (j, j + 1) else (0, 1)
  }

  /** The frame step's search: a loop over the table that breaks at the
      first segment holding p, then the override past the last keyframe. */
  method FindBracket(p: real) returns (startIdx: nat, endIdx: nat)
    ensures (startIdx, endIdx) == Bracket(p)
  {
    startIdx, endIdx := 0, 1;
    var i := 0;
    while i < |Keyframes| - 1
      invariant 0 <= i <= Last
      invariant startIdx == 0 && endIdx == 1
      invariant forall k :: 0 <= k < i ==> !InSegment(p, k)
      invariant FirstSegment(p, 0) == FirstSegment(p, i)
    {
      if p >= Keyframes[i].scroll && p <= Keyframes[i + 1].scroll {
        startIdx := i;
        endIdx := i + 1;
        break;
      }
      i := i + 1;
    }
    if p >= Keyframes[|Keyframes| - 1].scroll {
      startIdx := |Keyframes| - 1;
      endIdx := startIdx;
    }
  }

  /** Segment-local progress, 1 for a segment of zero range. */
  function SegmentProgress(p: real, from: real, to: real): (s: real)
    ensures to - from <= 0.0 ==> s == 1.0
    ensures to - from > 0.0 && from <= p <= to ==> 0.0 <= s <= 1.0
    ensures to - from > 0.0 && p == from ==> s == 0.0
    ensures to - from > 0.0 && p == to ==> s == 1.0
  {
    var range := to - from;
    if range > 0.0 then
      assert from <= p <= to ==> 0.0 <= (p - from) / range <= 1.0 by {
        if from <= p <= to { RatioInUnit(p - from, range); }
      }
      assert (to - from) / range == 1.0;
      (p - from) / range
    else 1.0
  }

  /** The frame step's ease-in-out-quad curve. */
  function EaseInOutQuad(s: real): (e: real)
    ensures s == 0.0 ==> e == 0.0
    ensures s == 0.5 ==> e == 0.5
    ensures s == 1.0 ==> e == 1.0
    ensures 0.0 <= s <= 1.0 ==> 0.0 <= e <= 1.0
  {
    if s < 0.5 then
      assert 0.0 <= s ==> s * s <= 0.25 by {
        if 0.0 <= s { SquareMonotone(s, 0.5); }
      }
      2.0 * s * s
    else
      var u := -2.0 * s + 2.0;
      assert s <= 1.0 ==> u * u <= 1.0 by {
        if s <= 1.0 { SquareMonotone(u, 1.0); }
      }
      1.0 - u * u / 2.0
  }

  /** The curve is point-symmetric about (0.5, 0.5). */
  lemma EaseSymmetric(s: real)
    ensures EaseInOutQuad(1.0 - s) == 1.0 - EaseInOutQuad(s)
  {
  }

  /** The curve never decreases on [0, 1]. */
  lemma EaseMonotone(s1: real, s2: real)
    requires 0.0 <= s1 <= s2 <= 1.0
    ensures EaseInOutQuad(s1) <= EaseInOutQuad(s2)
  {
    if s2 < 0.5 {
      SquareMonotone(s1, s2);
    } else if s1 >= 0.5 {
      var u1, u2 := -2.0 * s1 + 2.0, -2.0 * s2 + 2.0;
      SquareMonotone(u2, u1);
      assert EaseInOutQuad(s1) == 1.0 - u1 * u1 / 2.0;
      assert EaseInOutQuad(s2) == 1.0 - u2 * u2 / 2.0;
      assert u2 * u2 / 2.0 <= u1 * u1 / 2.0;
    } else {
      SquareMonotone(s1, 0.5);
      SquareMonotone(-2.0 * s2 + 2.0, 1.0);
    }
  }

  /** MathUtils.lerp on each component. */
  function LerpVec(a: Vec3, b: Vec3, t: real): (r: Vec3)
    ensures t == 0.0 ==> r == a
    ensures t == 1.0 ==> r == b
    ensures a == b ==> r == a
  {
    Vec3(Lerp(a.x, b.x, t), Lerp(a.y, b.y, t), Lerp(a.z, b.z, t))
  }

  /** The blended (position, look-at) for keyframes i and j at progress p.
      A segment's blend starts at its first keyframe and ends at its second,
      so neighbouring segments agree at their shared threshold. */
  function SegmentTarget(i: nat, j: nat, p: real): (r: (Vec3, Vec3))
    requires i <= j <= Last
    // a zero-length bracket gives its keyframe
    ensures i == j ==> r == (Keyframes[j].pos, Keyframes[j].target)
    ensures i < j && p == Keyframes[i].scroll ==> r == (Keyframes[i].pos, Keyframes[i].target)
    ensures i < j && p == Keyframes[j].scroll ==> r == (Keyframes[j].pos, Keyframes[j].target)
  {
    var a, b := Keyframes[i], Keyframes[j];
    assert i < j ==> a.scroll < b.scroll by {
      if i < j { ThresholdsIncrease(i, j); }
    }
    var e := EaseInOutQuad(SegmentProgress(p, a.scroll, b.scroll));
    (LerpVec(a.pos, b.pos, e), LerpVec(a.target, b.target, e))
  }

  /** targetPosition / targetLookAt of the frame step. */
  function Target(p: real): (r: (Vec3, Vec3))
    // from the last threshold on, the target is the last keyframe
    ensures p >= Keyframes[Last].scroll ==> r == (Keyframes[Last].pos, Keyframes[Last].target)
  {
    var b := Bracket(p);
    SegmentTarget(b.0, b.1, p)
  }

  /** At each threshold the target is that keyframe's position and look-at. */
  lemma TargetAtKeyframe(k: nat)
    requires k <= Last
    ensures Target(Keyframes[k].scroll) == (Keyframes[k].pos, Keyframes[k].target)
  {
    var p := Keyframes[k].scroll;
    if 0 < k < Last {
      var b := Bracket(p);
      ThresholdsIncrease(k - 1, k);
      assert InSegment(p, k - 1);
      if b.0 + 1 < k { ThresholdsIncrease(b.0 + 1, k); }
      if b.0 > k { ThresholdsIncrease(k, b.0); }
      assert b.0 == k - 1;
    }
  }

  /** The camera waits while the About section scrolls by. */
  lemma HoldAbout(p: real)
    requires 0.23 <= p <= 0.28
    ensures Target(p) == (Keyframes[1].pos, Keyframes[1].target)
  {
    var b := Bracket(p);
    if p == 0.23 {
      assert b == (0, 1);
    } else {
      assert !InSegment(p, 0);
      assert b == (1, 2);
    }
  }

  /** The camera waits while the Engineering section scrolls by. */
  lemma HoldEngineering(p: real)
    requires 0.4 <= p <= 0.786453
    ensures Target(p) == (Keyframes[3].pos, Keyframes[3].target)
  {
    var b := Bracket(p);
    assert !InSegment(p, 0) && !InSegment(p, 1);
    if p == 0.4 {
      assert b == (2, 3);
    } else {
      assert !InSegment(p, 2);
      assert b == (3, 4);
    }
  }

  /** The worked example: half way down the page the camera is in the
      Engineering segment, a quarter of the way through it, eased to about
      0.134, and the target is the Engineering keyframe. */
  lemma HalfWayExample()
    ensures Bracket(0.5) == (3, 4)
    ensures 0.25 < SegmentProgress(0.5, 0.4, 0.786453) < 0.26
    ensures 0.13 < EaseInOutQuad(SegmentProgress(0.5, 0.4, 0.786453)) < 0.14
    ensures Target(0.5) == (Keyframes[3].pos, Keyframes[3].target)
  {
    HoldEngineering(0.5);
    assert !InSegment(0.5, 0) && !InSegment(0.5, 1) && !InSegment(0.5, 2);
  }

  /** Vector3.lerp(goal, alpha) on each component. */
  function ApproachVec(c: Vec3, g: Vec3, alpha: real): Vec3
  {
    Vec3(Approach(c.x, g.x, alpha), Approach(c.y, g.y, alpha), Approach(c.z, g.z, alpha))
  }

  /** Camera state: (currentPosition, currentLookAt). */
  datatype CameraState = CameraState(position: Vec3, lookAt: Vec3)

  /** The frame step on the camera state at progress p: each frame leaves
      exactly 92% of every component's distance to the target. */
  function Step(s: CameraState, p: real): (r: CameraState)
    ensures var t := Target(p);
      r.position.x - t.0.x == 0.92 * (s.position.x - t.0.x) &&
      r.position.y - t.0.y == 0.92 * (s.position.y - t.0.y) &&
      r.position.z - t.0.z == 0.92 * (s.position.z - t.0.z) &&
      r.lookAt.x - t.1.x == 0.92 * (s.lookAt.x - t.1.x) &&
      r.lookAt.y - t.1.y == 0.92 * (s.lookAt.y - t.1.y) &&
      r.lookAt.z - t.1.z == 0.92 * (s.lookAt.z - t.1.z)
    // a camera at its target stays put
    ensures s == CameraState(Target(p).0, Target(p).1) ==> r == s
  {
    var t := Target(p);
    CameraState(ApproachVec(s.position, t.0, CameraDamping), ApproachVec(s.lookAt, t.1, CameraDamping))
  }

  /** n frames at a fixed progress p. */
  function Steps(s: CameraState, p: real, n: nat): CameraState
    decreases n
  {
    if n == 0 then s else Steps(Step(s, p), p, n - 1)
  }

  /** n Vector3.lerp steps toward a fixed goal g. */
  function SettleVec(c: Vec3, g: Vec3, n: nat): Vec3
    decreases n
  {
    if n == 0 then c else SettleVec(ApproachVec(c, g, CameraDamping), g, n - 1)
  }

  /** n frames at a fixed progress settle both vectors toward the target. */
  lemma {:induction false} StepsSettle(s: CameraState, p: real, n: nat)
    ensures var t := Target(p);
      Steps(s, p, n) == CameraState(SettleVec(s.position, t.0, n), SettleVec(s.lookAt, t.1, n))
    decreases n
  {
    if n > 0 {
      StepsSettle(Step(s, p), p, n - 1);
    }
  }

  /** Settling a vector runs Numeric.Damped on every component. */
  lemma {:induction false} SettleComponentwise(c: Vec3, g: Vec3, n: nat)
    ensures SettleVec(c, g, n) == Vec3(Damped(c.x, g.x, CameraDamping, n),
                                       Damped(c.y, g.y, CameraDamping, n),
                                       Damped(c.z, g.z, CameraDamping, n))
    decreases n
  {
    if n > 0 {
      SettleComponentwise(ApproachVec(c, g, CameraDamping), g, n - 1);
    }
  }

  /** r is what is left of c after n damping steps toward g: 0.92^n of
      every component's distance. */
  predicate Contracted(r: Vec3, c: Vec3, g: Vec3, n: nat)
  {
    r.x - g.x == Pow(0.92, n) * (c.x - g.x) &&
    r.y - g.y == Pow(0.92, n) * (c.y - g.y) &&
    r.z - g.z == Pow(0.92, n) * (c.z - g.z)
  }

  lemma SettleDistance(c: Vec3, g: Vec3, n: nat)
    ensures Contracted(SettleVec(c, g, n), c, g, n)
  {
    SettleComponentwise(c, g, n);
    DampedDistance(c.x, g.x, CameraDamping, n);
    DampedDistance(c.y, g.y, CameraDamping, n);
    DampedDistance(c.z, g.z, CameraDamping, n);
  }

  /** A vector at its goal stays there. */
  lemma SettleAtGoal(g: Vec3, n: nat)
    ensures SettleVec(g, g, n) == g
  {
    SettleComponentwise(g, g, n);
    DampedAtGoal(g.x, CameraDamping, n);
    DampedAtGoal(g.y, CameraDamping, n);
    DampedAtGoal(g.z, CameraDamping, n);
  }

  /** After n frames at a fixed progress, 0.92^n of the initial distance is left. */
  lemma StepsConverge(s: CameraState, p: real, n: nat)
    ensures Contracted(Steps(s, p, n).position, s.position, Target(p).0, n)
    ensures Contracted(Steps(s, p, n).lookAt, s.lookAt, Target(p).1, n)
  {
    var t := Target(p);
    StepsSettle(s, p, n);
    SettleDistance(s.position, t.0, n);
    SettleDistance(s.lookAt, t.1, n);
  }

  /** The factor left after n frames shrinks strictly with every frame and
      never reaches 0, so the camera approaches the target without landing
      on it unless it starts there. */
  lemma StepsShrink(n: nat)
    ensures 0.0 < Pow(1.0 - CameraDamping, n + 1) < Pow(1.0 - CameraDamping, n) <= 1.0
  {
    PowDecreasing(1.0 - CameraDamping, n);
  }

  /** The state on mount: the first keyframe. */
  const Mounted: CameraState := CameraState(Keyframes[0].pos, Keyframes[0].target)

  /** At the top of the page the camera stays exactly where it was mounted. */
  lemma MountedAtRest(n: nat)
    ensures Steps(Mounted, 0.0, n) == Mounted
  {
    TargetAtKeyframe(0);
    StepsSettle(Mounted, 0.0, n);
    SettleAtGoal(Keyframes[0].pos, n);
    SettleAtGoal(Keyframes[0].target, n);
  }

  /** The component: the camera vectors it owns, updated in place each frame. */
  class FlightDirector {
    var currentPosition: Vec3
    var currentLookAt: Vec3

    /** The mount effect: the camera starts at the first keyframe. */
    constructor ()
      ensures currentPosition == Keyframes[0].pos && currentLookAt == Keyframes[0].target
    {
      currentPosition := Keyframes[0].pos;
      currentLookAt := Keyframes[0].target;
    }

    /** One frame at scroll progress p; returns what the camera is given. */
    method Frame(p: real) returns (cameraPosition: Vec3, cameraLookAt: Vec3)
      modifies this
      ensures CameraState(currentPosition, currentLookAt) ==
              Step(CameraState(old(currentPosition), old(currentLookAt)), p)
      ensures cameraPosition == currentPosition && cameraLookAt == currentLookAt
    {
      var startIdx, endIdx := FindBracket(p);
      var startKeyframe, endKeyframe := Keyframes[startIdx], Keyframes[endIdx];
      var segmentRange := endKeyframe.scroll - startKeyframe.scroll;
      var segmentProgress := if segmentRange > 0.0 then (p - startKeyframe.scroll) / segmentRange else 1.0;
      var easedProgress := if segmentProgress < 0.5 then 2.0 * segmentProgress * segmentProgress
                           else 1.0 - (-2.0 * segmentProgress + 2.0) * (-2.0 * segmentProgress + 2.0) / 2.0;
      assert segmentProgress == SegmentProgress(p, startKeyframe.scroll, endKeyframe.scroll);
      assert easedProgress == EaseInOutQuad(segmentProgress);
      var targetPosition := LerpVec(startKeyframe.pos, endKeyframe.pos, easedProgress);
      var targetLookAt := LerpVec(startKeyframe.target, endKeyframe.target, easedProgress);
      assert (targetPosition, targetLookAt) == Target(p);
      currentPosition := ApproachVec(currentPosition, targetPosition, CameraDamping);
      currentLookAt := ApproachVec(currentLookAt, targetLookAt, CameraDamping);
      cameraPosition, cameraLookAt := currentPosition, currentLookAt;
    }
  }
}
