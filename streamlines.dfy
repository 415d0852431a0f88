/**
 * The Streamlines of AeroWireframe: a pool of 20 line particles that drift
 * toward the camera along z, wobble sideways, and are recycled to the inlet
 * with fresh random lateral offsets once they pass z = 12. Opacity is the
 * product of a fade-in and a fade-out ramp of depth.
 *
 * Math.random() draws are parameters in [0, 1); the wobble's sine and
 * cosine values are parameters as well.
 */
module Streamlines {
  import opened Numeric

  const Count: nat := 20
  const SpreadX: real := 6.0
  const SpreadY: real := 4.0
  const RespawnSpreadX: real := 8.0
  const StepScale: real := 0.03
  const Outlet: real := 12.0
  const Inlet: real := -10.0
  const FadeLength: real := 4.0
  const MaxOpacity: real := 0.2
  const InitialOpacity: real := 0.9

  /** One pool entry: the line's position and material opacity, its length,
      and the record's speed and lateral offsets. */
  datatype Particle = Particle(x: real, y: real, z: real, length: real, opacity: real,
                               speed: real, xOffset: real, yOffset: real)

  /** A value Math.random() can return. */
  predicate Draw(r: real)
  {
    0.0 <= r < 1.0
  }

  /** The five draws the initialiser takes per particle, in call order. */
  datatype SpawnDraws = SpawnDraws(x: real, y: real, length: real, speed: real, z: real)

  predicate SpawnDrawsOk(d: SpawnDraws)
  {
    Draw(d.x) && Draw(d.y) && Draw(d.length) && Draw(d.speed) && Draw(d.z)
  }

  /** The three draws of a respawn, in call order. */
  datatype RespawnDraws = RespawnDraws(z: real, x: real, y: real)

  predicate RespawnDrawsOk(d: RespawnDraws)
  {
    Draw(d.z) && Draw(d.x) && Draw(d.y)
  }

  /** What the host computed for the wobble of one particle this frame:
      sin(elapsed * 0.5 + xOffset) and cos(elapsed * 0.3 + yOffset). */
  datatype Wobble = Wobble(sinX: real, cosY: real)

  /** The state every record keeps between frames. */
  predicate ParticleOk(p: Particle)
  {
    -12.0 < p.z <= Outlet &&
    2.0 <= p.speed < 4.0 &&
    -4.0 <= p.xOffset < 4.0 &&
    -2.0 <= p.yOffset < 2.0
  }

  /** One record of the initialiser's loop. */
  function Spawn(d: SpawnDraws): (p: Particle)
    ensures SpawnDrawsOk(d) ==>
      ParticleOk(p) && -12.0 < p.z <= -8.0 && -3.0 <= p.xOffset < 3.0 &&
      1.5 <= p.length < 3.5 && p.opacity == InitialOpacity
    ensures p.x == p.xOffset && p.y == p.yOffset
  {
    var xOffset := (d.x - 0.5) * SpreadX;
    var yOffset := (d.y - 0.5) * SpreadY;
    var length := 1.5 + d.length * 2.0;
    var speed := 2.0 + d.speed * 2.0;
    var initialZ := -8.0 - d.z * 4.0;
    Particle(xOffset, yOffset, initialZ, length, InitialOpacity, speed, xOffset, yOffset)
  }

  /** The material opacity at depth z. */
  function Opacity(z: real): (o: real)
    ensures Inlet <= z <= Outlet ==> 0.0 <= o <= MaxOpacity
    // below the inlet the fade-in ramp is negative, and so is the opacity
    ensures -12.0 < z < Inlet ==> -0.1 < o < 0.0
    ensures Inlet + FadeLength <= z <= Outlet - FadeLength ==> o == MaxOpacity
    ensures z == Inlet || z == Outlet ==> o == 0.0
  {
    var fadeIn := Min(1.0, (z + 10.0) / FadeLength);
    var fadeOut := Min(1.0, (Outlet - z) / FadeLength);
    assert Inlet <= z <= Outlet ==> 0.0 <= fadeIn * fadeOut <= 1.0 by {
      if Inlet <= z <= Outlet {
        ProductSigns(fadeIn, fadeOut);
        ProductSigns(fadeOut, fadeIn);
      }
    }
    assert -12.0 < z < Inlet ==> fadeOut == 1.0;
    MaxOpacity * fadeIn * fadeOut
  }

  /** One record's frame: advance, wobble around the current offsets,
      recycle past the outlet, then fade. */
  function Advance(p: Particle, w: Wobble, d: RespawnDraws): (q: Particle)
    // the record's own data survive every frame
    ensures q.speed == p.speed && q.length == p.length
    ensures q.opacity == Opacity(q.z)
    // the wobble uses the offsets the particle had before any respawn
    ensures q.x == p.xOffset + w.sinX * 0.3 && q.y == p.yOffset + w.cosY * 0.2
    // a particle that stays inside moves by speed * 0.03 and keeps its offsets
    ensures p.z + p.speed * StepScale <= Outlet ==>
      q.z == p.z + p.speed * StepScale && q.xOffset == p.xOffset && q.yOffset == p.yOffset
    // one that passes the outlet goes back behind the inlet with fresh offsets
    ensures p.z + p.speed * StepScale > Outlet && RespawnDrawsOk(d) ==>
      -12.0 < q.z <= Inlet && -4.0 <= q.xOffset < 4.0 && -2.0 <= q.yOffset < 2.0
  {
    var z := p.z + p.speed * StepScale;
    var x := p.xOffset + w.sinX * 0.3;
    var y := p.yOffset + w.cosY * 0.2;
    if z > Outlet then
      var z' := -10.0 - d.z * 2.0;
      var xOffset := (d.x - 0.5) * RespawnSpreadX;
      var yOffset := (d.y - 0.5) * 4.0;
      Particle(x, y, z', p.length, Opacity(z'), p.speed, xOffset, yOffset)
    else
      Particle(x, y, z, p.length, Opacity(z), p.speed, p.xOffset, p.yOffset)
  }

  /** Every frame keeps each record's invariant, so z never exceeds the
      outlet and the opacity stays in (-0.1, 0.2]. */
  lemma AdvancePreserves(p: Particle, w: Wobble, d: RespawnDraws)
    requires ParticleOk(p) && RespawnDrawsOk(d)
    ensures ParticleOk(Advance(p, w, d))
    ensures var q := Advance(p, w, d); -0.1 < q.opacity <= MaxOpacity
  {
    var q := Advance(p, w, d);
    assert p.speed * StepScale >= 0.06;
    if q.z < Inlet {
      assert -12.0 < q.z;
    }
  }

  /** The pool: a fixed array of records updated in place. */
  class Pool {
    var particles: array<Particle>

    ghost predicate Valid()
      reads this, particles
    {
      particles.Length == Count &&
      forall i :: 0 <= i < particles.Length ==> ParticleOk(particles[i])
    }

    /** The memoised initialiser: 20 records from 20 groups of draws. */
    constructor (draws: seq<SpawnDraws>)
      requires |draws| == Count
      requires forall i :: 0 <= i < |draws| ==> SpawnDrawsOk(draws[i])
      ensures Valid() && fresh(particles)
      ensures forall i :: 0 <= i < Count ==> particles[i] == Spawn(draws[i])
    {
      var result := new Particle[Count](_ => Particle(0.0, 0.0, 0.0, 0.0, 0.0, 0.0, 0.0, 0.0));
      var i := 0;
      while i < Count
        invariant 0 <= i <= Count
        invariant forall k :: 0 <= k < i ==> result[k] == Spawn(draws[k])
      {
        result[i] := Spawn(draws[i]);
        i := i + 1;
      }
      particles := result;
    }

    /** One frame: every record advanced in place, in order. */
    method Tick(wobbles: seq<Wobble>, draws: seq<RespawnDraws>)
      requires Valid()
      requires |wobbles| == Count && |draws| == Count
      requires forall i :: 0 <= i < |draws| ==> RespawnDrawsOk(draws[i])
      modifies particles
      ensures Valid()
      ensures forall i :: 0 <= i < Count ==>
                particles[i] == Advance(old(particles[i]), wobbles[i], draws[i])
    {
      var i := 0;
      while i < particles.Length
        invariant 0 <= i <= particles.Length
        invariant forall k :: 0 <= k < i ==>
                    particles[k] == Advance(old(particles[k]), wobbles[k], draws[k])
        invariant forall k :: i <= k < particles.Length ==> particles[k] == old(particles[k])
        invariant forall k :: 0 <= k < particles.Length ==> ParticleOk(particles[k])
      {
        AdvancePreserves(particles[i], wobbles[i], draws[i]);
        particles[i] := Advance(particles[i], wobbles[i], draws[i]);
        i := i + 1;
      }
    }
  }
}
