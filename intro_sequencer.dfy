/**
 * The SR71Model frame step of AeroWireframe: a one-shot fly-in along z,
 * timed from the first frame and eased out cubically, combined with the
 * idle bob and the damped bank / pitch / yaw of the model group.
 *
 * The clock's elapsed time is a parameter; sin(elapsed * speed) and
 * cos(elapsed * speed) are passed in as the values the host computed.
 */
module IntroSequencer {
  import opened Numeric

  /** INTRO. */
  const StartZ: real := -20.0
  const EndZ: real := 0.0
  const Duration: real := 1.5

  /** ANIMATION. */
  const BobAmplitude: real := 0.25
  const BobSpeed: real := 0.5
  const BankAmplitude: real := 0.25
  const BankSpeed: real := 0.3
  const PitchFactor: real := 0.25
  const YawAmplitude: real := 0.04
  const YawSpeed: real := 0.2
  const RotationDamping: real := 0.3

  /** INTRO.easing: ease-out cubic. */
  function EaseOutCubic(t: real): (e: real)
    ensures t == 0.0 ==> e == 0.0
    ensures t == 1.0 ==> e == 1.0
    ensures 0.0 <= t <= 1.0 ==> 0.0 <= e <= 1.0
  {
    var u := 1.0 - t;
    assert 0.0 <= u <= 1.0 ==> u * u * u <= 1.0 * 1.0 * 1.0 by {
      if 0.0 <= u <= 1.0 { CubeMonotone(u, 1.0); }
    }
    assert 0.0 <= u ==> 0.0 * 0.0 * 0.0 <= u * u * u by {
      if 0.0 <= u { CubeMonotone(0.0, u); }
    }
    1.0 - u * u * u
  }

  /** The curve never decreases on [0, 1]. */
  lemma EaseOutCubicMonotone(t1: real, t2: real)
    requires 0.0 <= t1 <= t2 <= 1.0
    ensures EaseOutCubic(t1) <= EaseOutCubic(t2)
  {
    CubeMonotone(1.0 - t2, 1.0 - t1);
  }

  /** introProgress for the time since the first frame. */
  function IntroProgress(introElapsed: real): (p: real)
    ensures introElapsed == 0.0 ==> p == 0.0
    ensures introElapsed >= Duration ==> p == 1.0
    ensures 0.0 <= introElapsed ==> 0.0 <= p <= 1.0
  {
    if introElapsed < Duration then
      assert 0.0 <= introElapsed ==> 0.0 <= introElapsed / Duration <= 1.0 by {
        if 0.0 <= introElapsed { RatioInUnit(introElapsed, Duration); }
      }
      EaseOutCubic(introElapsed / Duration)
    else 1.0
  }

  /** The intro never moves backwards as time passes. */
  lemma IntroProgressMonotone(e1: real, e2: real)
    requires 0.0 <= e1 <= e2
    ensures IntroProgress(e1) <= IntroProgress(e2)
  {
    if e2 < Duration {
      RatioInUnit(e1, Duration);
      RatioInUnit(e2, Duration);
      assert e1 / Duration <= e2 / Duration;
      EaseOutCubicMonotone(e1 / Duration, e2 / Duration);
    }
  }

  /** introZ: the fly-in depth. */
  function IntroZ(introElapsed: real): (z: real)
    ensures introElapsed == 0.0 ==> z == StartZ
    ensures introElapsed >= Duration ==> z == EndZ
    ensures 0.0 <= introElapsed ==> StartZ <= z <= EndZ
  {
    Lerp(StartZ, EndZ, IntroProgress(introElapsed))
  }

  /** The model only ever flies toward its resting depth. */
  lemma IntroZMonotone(e1: real, e2: real)
    requires 0.0 <= e1 <= e2
    ensures IntroZ(e1) <= IntroZ(e2)
  {
    IntroProgressMonotone(e1, e2);
  }

  datatype Euler = Euler(x: real, y: real, z: real)

  /** The rotation the group is pulled toward: (autoBank * pitchFactor, autoYaw, autoBank). */
  function TiltTarget(bankCosine: real, yawSine: real): (r: Euler)
    ensures Unit(bankCosine) && Unit(yawSine) ==> InTiltRange(r)
    ensures r.x == PitchFactor * r.z
  {
    var autoBank := bankCosine * BankAmplitude;
    var autoYaw := yawSine * YawAmplitude;
    Euler(autoBank * PitchFactor, autoYaw, autoBank)
  }

  /** The box that every tilt target lies in. */
  predicate InTiltRange(r: Euler)
  {
    -BankAmplitude * PitchFactor <= r.x <= BankAmplitude * PitchFactor &&
    -YawAmplitude <= r.y <= YawAmplitude &&
    -BankAmplitude <= r.z <= BankAmplitude
  }

  /** One frame of rotation damping (THREE.MathUtils.lerp with factor 0.3). */
  function RotationStep(r: Euler, target: Euler): (r': Euler)
    ensures r'.x - target.x == 0.7 * (r.x - target.x)
    ensures r'.y - target.y == 0.7 * (r.y - target.y)
    ensures r'.z - target.z == 0.7 * (r.z - target.z)
  {
    Euler(Lerp(r.x, target.x, RotationDamping),
          Lerp(r.y, target.y, RotationDamping),
          Lerp(r.z, target.z, RotationDamping))
  }

  /** Damping toward targets in the tilt box never leaves the box. */
  lemma RotationStaysInRange(r: Euler, target: Euler)
    requires InTiltRange(r) && InTiltRange(target)
    ensures InTiltRange(RotationStep(r, target))
  {
  }

  /** autoBob: the vertical offset. */
  function Bob(bobSine: real): (y: real)
    ensures Unit(bobSine) ==> -BobAmplitude <= y <= BobAmplitude
  {
    bobSine * BobAmplitude
  }

  /** The model group and its refs. */
  class Sr71Model {
    var startTime: Option<real>   // startTime.current (null until the first frame)
    var introProgress: real       // introProgress.current
    var rotation: Euler           // groupRef.current.rotation
    var positionY: real           // groupRef.current.position.y
    var positionZ: real           // groupRef.current.position.z

    /** The rotation stays in the tilt box and the intro progress in [0, 1]. */
    ghost predicate Valid()
      reads this
    {
      InTiltRange(rotation) && 0.0 <= introProgress <= 1.0
    }

    /** Mounting: no start time yet, the group placed at the start depth. */
    constructor ()
      ensures Valid()
      ensures startTime == None && introProgress == 0.0
      ensures rotation == Euler(0.0, 0.0, 0.0) && positionY == 0.0 && positionZ == StartZ
    {
      startTime := None;
      introProgress := 0.0;
      rotation := Euler(0.0, 0.0, 0.0);
      positionY, positionZ := 0.0, StartZ;
    }

    /** One frame at clock time `elapsed`; the host passes
        sin(elapsed * BobSpeed), cos(elapsed * BankSpeed) and sin(elapsed * YawSpeed). */
    method Frame(elapsed: real, bobSine: real, bankCosine: real, yawSine: real)
      requires Valid()
      requires startTime.Some? ==> startTime.value <= elapsed  // the clock never runs backwards
      requires Unit(bobSine) && Unit(bankCosine) && Unit(yawSine)
      modifies this
      ensures Valid()
      // the start time is taken on the first frame and never changes afterwards
      ensures startTime == (if old(startTime).None? then Some(elapsed) else old(startTime))
      ensures introProgress == IntroProgress(elapsed - startTime.value)
      ensures positionZ == IntroZ(elapsed - startTime.value)
      ensures old(startTime).None? ==> positionZ == StartZ
      ensures positionY == Bob(bobSine)
      ensures rotation == RotationStep(old(rotation), TiltTarget(bankCosine, yawSine))
    {
      if startTime.None? {
        startTime := Some(elapsed);
      }
      var introElapsed := elapsed - startTime.value;
      if introElapsed < Duration {
        introProgress := EaseOutCubic(introElapsed / Duration);
      } else {
        introProgress := 1.0;
      }
      var introZ := Lerp(StartZ, EndZ, introProgress);

      var autoBob := bobSine * BobAmplitude;
      var autoBank := bankCosine * BankAmplitude;
      var autoYaw := yawSine * YawAmplitude;

      var target := TiltTarget(bankCosine, yawSine);
      RotationStaysInRange(rotation, target);
      rotation := Euler(Lerp(rotation.x, autoBank * PitchFactor, RotationDamping),
                        Lerp(rotation.y, autoYaw, RotationDamping),
                        Lerp(rotation.z, autoBank, RotationDamping));
      positionY := autoBob;
      positionZ := introZ;
    }
  }
}
