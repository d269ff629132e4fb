/** `generateParticles`: a list of particles whose six fields are drawn, particle by
    particle, from one generator built from the seed. */
module Particles {
  import opened Rng

  /** One particle. `angleTurns` is the angle's draw as a fraction of a full turn; the
      source multiplies it by 2 * Math.PI to get radians. */
  datatype Particle = Particle(
    x: real,
    y: real,
    size: real,
    speed: real,
    angleTurns: real,
    opacity: real)

  /** The particle built from six consecutive draws, in the order the source consumes
      them: x, y, size, speed, angle, opacity. */
  function MakeParticle(dx: real, dy: real, dSize: real, dSpeed: real, dAngle: real, dOpacity: real,
                        width: real, height: real): Particle
  {
    Particle(dx * width, dy * height, 2.0 + dSize * 6.0, 0.5 + dSpeed * 2.0, dAngle, 0.3 + dOpacity * 0.7)
  }

  /** The ranges the source's formulas promise for a particle on a `width` by `height`
      canvas: a position inside the canvas, size in [2, 8), speed in [0.5, 2.5), angle
      below one turn, opacity in [0.3, 1). */
  predicate InRange(p: Particle, width: real, height: real) {
    && (width > 0.0 ==> 0.0 <= p.x < width)
    && (height > 0.0 ==> 0.0 <= p.y < height)
    && 2.0 <= p.size < 8.0
    && 0.5 <= p.speed < 2.5
    && 0.0 <= p.angleTurns < 1.0
    && 0.3 <= p.opacity < 1.0
  }

  /** A draw in [0, 1) scaled by a positive extent lies in [0, extent). */
  lemma ScaledDraw(d: real, extent: real)
    requires 0.0 <= d < 1.0
    ensures extent > 0.0 ==> 0.0 <= d * extent < extent
  {
  }

  /** Six draws in [0, 1) give a particle in range. */
  lemma MakeParticleInRange(dx: real, dy: real, dSize: real, dSpeed: real, dAngle: real, dOpacity: real,
                            width: real, height: real)
    requires 0.0 <= dx < 1.0 && 0.0 <= dy < 1.0 && 0.0 <= dSize < 1.0
    requires 0.0 <= dSpeed < 1.0 && 0.0 <= dAngle < 1.0 && 0.0 <= dOpacity < 1.0
    ensures InRange(MakeParticle(dx, dy, dSize, dSpeed, dAngle, dOpacity, width, height), width, height)
  {
    ScaledDraw(dx, width);
    ScaledDraw(dy, height);
  }

  /** Reference definition: particle `i` of the list for `seed`, read directly from the
      draws `6 * i` to `6 * i + 5` without replaying the earlier particles. */
  function ParticleAt(seed: int, i: nat, width: real, height: real): Particle {
    MakeParticle(DrawAt(seed, 6 * i), DrawAt(seed, 6 * i + 1), DrawAt(seed, 6 * i + 2),
                 DrawAt(seed, 6 * i + 3), DrawAt(seed, 6 * i + 4), DrawAt(seed, 6 * i + 5),
                 width, height)
  }

  /** Every particle of every seed is in range. */
  lemma ParticleAtInRange(seed: int, i: nat, width: real, height: real)
    ensures InRange(ParticleAt(seed, i, width, height), width, height)
  {
    MakeParticleInRange(DrawAt(seed, 6 * i), DrawAt(seed, 6 * i + 1), DrawAt(seed, 6 * i + 2),
                        DrawAt(seed, 6 * i + 3), DrawAt(seed, 6 * i + 4), DrawAt(seed, 6 * i + 5),
                        width, height);
  }

  /** The longest array `new Array(len)` can build, 2^32 - 1. `Array.from` builds its
      result that way and throws a RangeError for a longer length. */
  const MaxArrayLength: int := 0xFFFF_FFFF

  /** What `generateParticles` gives back: the list of particles, or the RangeError
      `Array.from` throws for a length it cannot allocate. */
  datatype Generated = Built(particles: seq<Particle>) | LengthError

  /** The particles built from a list of draws, six at a time, in order. */
  method ParticlesFromDraws(ds: seq<real>, n: nat, width: real, height: real) returns (ps: seq<Particle>)
    requires 6 * n <= |ds|
    ensures |ps| == n
    ensures forall j :: 0 <= j < n ==>
      ps[j] == MakeParticle(ds[6 * j], ds[6 * j + 1], ds[6 * j + 2], ds[6 * j + 3], ds[6 * j + 4], ds[6 * j + 5],
                            width, height)
  {
    ps := [];
    var i := 0;
    while i < n
      invariant 0 <= i <= n
      invariant |ps| == i
      invariant forall j :: 0 <= j < i ==>
        ps[j] == MakeParticle(ds[6 * j], ds[6 * j + 1], ds[6 * j + 2], ds[6 * j + 3], ds[6 * j + 4], ds[6 * j + 5],
                              width, height)
    {
      var k := 6 * i;
      ps := ps + [MakeParticle(ds[k], ds[k + 1], ds[k + 2], ds[k + 3], ds[k + 4], ds[k + 5], width, height)];
      i := i + 1;
    }
  }

  /** `generateParticles(count, seed, width, height)`: the values of the first
      `6 * count` calls of one generator, taken six at a time. Particle `i` is the
      reference `ParticleAt(seed, i, width, height)`. A negative count gives an empty
      list; a count above `MaxArrayLength` throws before any particle is built. */
  method GenerateParticles(count: int, seed: int, width: real, height: real) returns (r: Generated)
    ensures r.LengthError? <==> count > MaxArrayLength
    ensures r.Built? && count <= 0 ==> r.particles == []
    ensures r.Built? && count >= 0 ==> |r.particles| == count
    ensures r.Built? ==> forall i :: 0 <= i < |r.particles| ==> r.particles[i] == ParticleAt(seed, i, width, height)
  {
    if count > MaxArrayLength {
      return LengthError;
    }
    var n: nat := if count < 0 then 0 else count;
    var ds := Draws(CreateRng(seed), 6 * n);
    var ps := ParticlesFromDraws(ds, n, width, height);
    forall i | 0 <= i < n
      ensures ps[i] == ParticleAt(seed, i, width, height)
    {
      ParticleDrawOrder(seed, n, i, width, height);
    }
    r := Built(ps);
  }

  /** The fields of particle `i` are the draws `6 * i` to `6 * i + 5` of the seed's
      stream, in the order x, y, size, speed, angle, opacity. */
  lemma ParticleDrawOrder(seed: int, count: nat, i: nat, width: real, height: real)
    requires i < count
    ensures var ds := Draws(CreateRng(seed), 6 * count);
      ParticleAt(seed, i, width, height)
        == MakeParticle(ds[6 * i], ds[6 * i + 1], ds[6 * i + 2], ds[6 * i + 3], ds[6 * i + 4], ds[6 * i + 5],
                        width, height)
  {
    var n := 6 * count;
    DrawsRandomAccess(seed, n, 6 * i);
    DrawsRandomAccess(seed, n, 6 * i + 1);
    DrawsRandomAccess(seed, n, 6 * i + 2);
    DrawsRandomAccess(seed, n, 6 * i + 3);
    DrawsRandomAccess(seed, n, 6 * i + 4);
    DrawsRandomAccess(seed, n, 6 * i + 5);
  }

  /** Seeds congruent modulo 2^32 give the same particles. */
  lemma ParticleSeedCongruence(a: int, b: int, i: nat, width: real, height: real)
    requires (a - b) % Modulus == 0
    ensures ParticleAt(a, i, width, height) == ParticleAt(b, i, width, height)
  {
    DrawAtSeedCongruence(a, b, 6 * i);
    DrawAtSeedCongruence(a, b, 6 * i + 1);
    DrawAtSeedCongruence(a, b, 6 * i + 2);
    DrawAtSeedCongruence(a, b, 6 * i + 3);
    DrawAtSeedCongruence(a, b, 6 * i + 4);
    DrawAtSeedCongruence(a, b, 6 * i + 5);
  }
}
