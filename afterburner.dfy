/**
 * The Afterburner flicker of AeroWireframe: three sine waves of related
 * frequencies, weighted 0.4, 0.35 and 0.25, normalised to [0, 1] and mapped
 * into the material's opacity and emissive intensity.
 *
 * The sines of the three phase angles are parameters.
 */
module Afterburner {
  import opened Numeric

  /** AFTERBURNER flicker parameters. */
  const FlickerSpeed: real := 30.0
  const FlickerIntensity: real := 0.05
  const BaseOpacity: real := 0.1

  /** The material values written each frame. */
  datatype Glow = Glow(opacity: real, emissiveIntensity: real)

  /** The weighted sum of the three sine values. */
  function Flicker(s1: real, s2: real, s3: real): (f: real)
    ensures Unit(s1) && Unit(s2) && Unit(s3) ==> Unit(f)
    ensures s1 == 1.0 && s2 == 1.0 && s3 == 1.0 ==> f == 1.0
    ensures s1 == -1.0 && s2 == -1.0 && s3 == -1.0 ==> f == -1.0
  {
    s1 * 0.4 + s2 * 0.35 + s3 * 0.25
  }

  /** The flicker mapped from [-1, 1] onto [0, 1]. */
  function Normalized(f: real): (n: real)
    ensures Unit(f) ==> 0.0 <= n <= 1.0
    ensures f == -1.0 ==> n == 0.0
    ensures f == 1.0 ==> n == 1.0
  {
    (f + 1.0) / 2.0
  }

  /** One frame's material values from the three sine values. */
  function GlowOf(s1: real, s2: real, s3: real): (g: Glow)
    ensures Unit(s1) && Unit(s2) && Unit(s3) ==>
      BaseOpacity <= g.opacity <= BaseOpacity + FlickerIntensity &&
      1.0 <= g.emissiveIntensity <= 1.8
  {
    var n := Normalized(Flicker(s1, s2, s3));
    Glow(BaseOpacity + n * FlickerIntensity, 1.0 + n * 0.8)
  }

  /** Opacity and intensity rise and fall together: the intensity is an
      increasing affine function of the opacity. */
  lemma GlowInStep(s1: real, s2: real, s3: real)
    ensures var g := GlowOf(s1, s2, s3);
      g.emissiveIntensity == 1.0 + (g.opacity - BaseOpacity) * 16.0
  {
  }

  /** A stronger flicker never dims the glow. */
  lemma GlowMonotone(a1: real, a2: real, a3: real, b1: real, b2: real, b3: real)
    requires Flicker(a1, a2, a3) <= Flicker(b1, b2, b3)
    ensures GlowOf(a1, a2, a3).opacity <= GlowOf(b1, b2, b3).opacity
    ensures GlowOf(a1, a2, a3).emissiveIntensity <= GlowOf(b1, b2, b3).emissiveIntensity
  {
  }

  /** The glow material the frame callback writes. */
  class GlowMaterial {
    var opacity: real
    var emissiveIntensity: real

    /** The material as declared: base opacity, emissive intensity 0.4. */
    constructor ()
      ensures opacity == BaseOpacity && emissiveIntensity == 0.4
    {
      opacity, emissiveIntensity := BaseOpacity, 0.4;
    }

    /** One frame at clock time t; the host passes sin(t * FlickerSpeed),
        sin(t * FlickerSpeed * 1.7 + 1.3) and sin(t * FlickerSpeed * 2.3 + 2.1). */
    method Frame(s1: real, s2: real, s3: real)
      modifies this
      ensures Glow(opacity, emissiveIntensity) == GlowOf(s1, s2, s3)
      ensures Unit(s1) && Unit(s2) && Unit(s3) ==>
        BaseOpacity <= opacity <= BaseOpacity + FlickerIntensity && 1.0 <= emissiveIntensity <= 1.8
    {
      var flicker := s1 * 0.4 + s2 * 0.35 + s3 * 0.25;
      var normalizedFlicker := (flicker + 1.0) / 2.0;
      opacity := BaseOpacity + normalizedFlicker * FlickerIntensity;
      emissiveIntensity := 1.0 + normalizedFlicker * 0.8;
    }
  }
}
