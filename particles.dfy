/** The particle list: the opening burst appends 150 particles, each update moves every
    particle along its direction, burns `1.5 * decay` of its life, mirrors the life into
    opacity and scale and splices out the ones whose life is gone, walking the list from
    the back; the burst's 3000 ms timer splices out every particle. Particles are values
    in a list the methods reassign; the engine mesh each one carries is reduced to its
    position, opacity and scale. */
module Particles {
  import opened Config
  import opened Vectors

  datatype Particle = Particle(
    position: Vec3, direction: Vec3, speed: real, life: real, decay: real, opacity: real, scale: real)

  /** One particle in one update, before the removal test. */
  function Advance(p: Particle): (q: Particle)
    ensures q.life == p.life - DECAY_MULTIPLIER * p.decay
    ensures q.position == AddScaled(p.position, p.direction, p.speed)
    ensures q.opacity == q.life && q.scale == q.life
    ensures q.direction == p.direction && q.speed == p.speed && q.decay == p.decay
  {
    var life := p.life - p.decay * DECAY_MULTIPLIER;
    Particle(AddScaled(p.position, p.direction, p.speed), p.direction, p.speed, life, p.decay, life, life)
  }

  /** Reference definition of one update of the whole list: advance every particle and
      keep, in order, those whose life is still positive. */
  function Updated(ps: seq<Particle>): (r: seq<Particle>)
    ensures |r| <= |ps|
    ensures forall k :: 0 <= k < |r| ==> r[k].life > 0.0
  {
    if ps == [] then []
    else (if Advance(ps[0]).life <= 0.0 then [] else [Advance(ps[0])]) + Updated(ps[1..])
  }

  /** Updating two lists one after the other is updating their concatenation. */
  lemma {:induction false} UpdatedAppend(a: seq<Particle>, b: seq<Particle>)
    ensures Updated(a + b) == Updated(a) + Updated(b)
    decreases |a|
  {
    if a == [] {
      assert a + b == b;
    } else {
      assert (a + b)[0] == a[0] && (a + b)[1..] == a[1..] + b;
      UpdatedAppend(a[1..], b);
    }
  }

  /** Exactly the advanced particles with positive life survive, and nothing else. */
  lemma {:induction false} UpdatedMembers(ps: seq<Particle>, q: Particle)
    ensures q in Updated(ps) <==> exists i :: 0 <= i < |ps| && q == Advance(ps[i]) && q.life > 0.0
    decreases |ps|
  {
    if ps != [] {
      UpdatedMembers(ps[1..], q);
      if q in Updated(ps[1..]) {
        var i :| 0 <= i < |ps[1..]| && q == Advance(ps[1..][i]) && q.life > 0.0;
        assert q == Advance(ps[i + 1]);
      }
      if exists i :: 0 <= i < |ps| && q == Advance(ps[i]) && q.life > 0.0 {
        var i :| 0 <= i < |ps| && q == Advance(ps[i]) && q.life > 0.0;
        if i > 0 {
          assert ps[1..][i - 1] == ps[i];
        }
      }
    }
  }

  /** A particle after `k` updates, whether or not it would have been removed. */
  function Aged(p: Particle, k: nat): Particle
  {
    if k == 0 then p else Advance(Aged(p, k - 1))
  }

  /** Direction, speed and decay never change. */
  lemma {:induction false} AgedKeeps(p: Particle, k: nat)
    ensures Aged(p, k).direction == p.direction && Aged(p, k).speed == p.speed && Aged(p, k).decay == p.decay
  {
    if k > 0 {
      AgedKeeps(p, k - 1);
    }
  }

  /** Life falls linearly, by `1.5 * decay` per update. */
  lemma {:induction false} AgedLife(p: Particle, k: nat)
    ensures Aged(p, k).life == p.life - DECAY_MULTIPLIER * p.decay * k as real
  {
    if k > 0 {
      AgedLife(p, k - 1);
      AgedKeeps(p, k - 1);
      var loss := DECAY_MULTIPLIER * p.decay;
      assert loss * k as real == loss * (k - 1) as real + loss;
    }
  }

  /** Distance covered in `k` updates at `speed` per update. */
  function Travel(speed: real, k: nat): (d: real)
    ensures d == speed * k as real
  {
    if k == 0 then 0.0 else MulSucc(speed, k - 1); Travel(speed, k - 1) + speed
  }

  /** The particle moves `speed` along its direction per update. */
  lemma {:induction false} AgedPosition(p: Particle, k: nat)
    ensures Aged(p, k).position == AddScaled(p.position, p.direction, Travel(p.speed, k))
  {
    if k > 0 {
      AgedPosition(p, k - 1);
      AgedKeeps(p, k - 1);
      AddScaledTwice(p.position, p.direction, Travel(p.speed, k - 1), p.speed);
    }
  }

  lemma MulSucc(x: real, n: nat)
    ensures x * (n + 1) as real == x * n as real + x
  {
  }

  /** `k` updates of the list. */
  function Run(ps: seq<Particle>, k: nat): seq<Particle>
  {
    if k == 0 then ps else Updated(Run(ps, k - 1))
  }

  /** A lone particle with non-negative decay is still listed after `k` updates exactly
      when its linearly falling life is still positive. */
  lemma {:induction false} RunSingle(p: Particle, k: nat)
    requires p.life > 0.0 && p.decay >= 0.0
    ensures Run([p], k) == if Aged(p, k).life > 0.0 then [Aged(p, k)] else []
  {
    if k > 0 {
      RunSingle(p, k - 1);
      AgedLife(p, k - 1);
      AgedLife(p, k);
      AgedKeeps(p, k - 1);
      if Aged(p, k - 1).life > 0.0 {
        assert Updated([Aged(p, k - 1)]) ==
          (if Aged(p, k).life <= 0.0 then [] else [Aged(p, k)]) + Updated([]);
      }
    } else {
      assert Run([p], 0) == [p];
    }
  }

  /** Worked example: life 1 and decay 0.2 lose 0.3 per update, so the particle is still
      listed after the third update and gone after the fourth. */
  lemma DecayExample(p: Particle)
    requires p.life == 1.0 && p.decay == 0.2
    ensures |Run([p], 3)| == 1 && Run([p], 4) == []
  {
    RunSingle(p, 3);
    RunSingle(p, 4);
    AgedLife(p, 3);
    AgedLife(p, 4);
  }

  /** The random draws one burst particle consumes: its start offset, the unit direction
      the engine computes from two angles, its speed and its decay. */
  datatype BurstDraw = BurstDraw(ox: real, oy: real, oz: real, direction: Vec3, speedDraw: real, decayDraw: real)

  predicate ValidBurstDraw(d: BurstDraw)
  {
    0.0 <= d.ox < 1.0 && 0.0 <= d.oy < 1.0 && 0.0 <= d.oz < 1.0 &&
    0.0 <= d.speedDraw < 1.0 && 0.0 <= d.decayDraw < 1.0
  }

  const BURST_OFFSET: real := 0.05

  /** One particle of `createBurstEffect`: near the origin, full life, material opacity
      0.8 and the mesh at unit scale. */
  function BurstParticle(d: BurstDraw): (p: Particle)
    requires ValidBurstDraw(d)
    ensures p.life == 1.0 && p.opacity == 0.8 && p.scale == 1.0 && p.direction == d.direction
    ensures 0.12 <= p.decay < 0.2
    ensures 0.1 <= p.speed < 0.25
    ensures -0.025 <= p.position.x < 0.025 && -0.025 <= p.position.y < 0.025 && -0.025 <= p.position.z < 0.025
  {
    Particle(
      Vec3((d.ox - 0.5) * BURST_OFFSET, (d.oy - 0.5) * BURST_OFFSET, (d.oz - 0.5) * BURST_OFFSET),
      d.direction, 0.1 + d.speedDraw * 0.15, 1.0, 0.12 + d.decayDraw * 0.08, 0.8, 1.0)
  }

  /** Every burst particle outlives three updates and is gone by the sixth. */
  lemma BurstLifetime(d: BurstDraw)
    requires ValidBurstDraw(d)
    ensures |Run([BurstParticle(d)], 3)| == 1
    ensures Run([BurstParticle(d)], 6) == []
  {
    var p := BurstParticle(d);
    RunSingle(p, 3);
    RunSingle(p, 6);
    AgedLife(p, 3);
    AgedLife(p, 6);
  }

  /** One step of the back-to-front walk: the update of a suffix is the kept advance of
      its head followed by the update of the rest. */
  lemma UpdatedStep(ps: seq<Particle>, i: nat)
    requires i < |ps|
    ensures Updated(ps[i..]) ==
      (if Advance(ps[i]).life <= 0.0 then [] else [Advance(ps[i])]) + Updated(ps[i + 1..])
  {
    assert ps[i..][0] == ps[i] && ps[i..][1..] == ps[i + 1..];
  }

  /** Splicing the advanced particle `i` into (or out of) a list whose suffix after `i`
      is already updated gives a list whose suffix from `i` is updated. */
  lemma UpdateSplice(ps: seq<Particle>, i: nat, xs: seq<Particle>)
    requires i < |ps| && xs == ps[..i + 1] + Updated(ps[i + 1..])
    ensures i < |xs| && xs[i] == ps[i]
    ensures Advance(xs[i]).life <= 0.0 ==> xs[..i] + xs[i + 1..] == ps[..i] + Updated(ps[i..])
    ensures Advance(xs[i]).life > 0.0 ==> xs[..i] + [Advance(xs[i])] + xs[i + 1..] == ps[..i] + Updated(ps[i..])
  {
    var rest := Updated(ps[i + 1..]);
    UpdatedStep(ps, i);
    assert ps[..i + 1] == ps[..i] + [ps[i]];
    assert xs == ps[..i] + [ps[i]] + rest;
    assert xs[..i] == ps[..i] && xs[i + 1..] == rest;
  }

  /** The global `particles` list and `particleCount`. */
  class ParticleSystem {
    var particles: seq<Particle>
    var particleCount: nat

    constructor ()
      ensures particles == [] && particleCount == 0
    {
      particles := [];
      particleCount := 0;
    }

    /** The particle loop of `createBurstEffect`. */
    method CreateBurst(draws: seq<BurstDraw>)
      requires |draws| == BURST_PARTICLE_COUNT
      requires forall i :: 0 <= i < |draws| ==> ValidBurstDraw(draws[i])
      modifies this
      ensures |particles| == |old(particles)| + BURST_PARTICLE_COUNT
      ensures particles[..|old(particles)|] == old(particles)
      ensures forall i :: 0 <= i < BURST_PARTICLE_COUNT ==>
        particles[|old(particles)| + i] == BurstParticle(draws[i])
      ensures particleCount == old(particleCount) + BURST_PARTICLE_COUNT
    {
      var i := 0;
      while i < BURST_PARTICLE_COUNT
        invariant 0 <= i <= BURST_PARTICLE_COUNT
        invariant |particles| == |old(particles)| + i
        invariant particles[..|old(particles)|] == old(particles)
        invariant forall k :: 0 <= k < i ==> particles[|old(particles)| + k] == BurstParticle(draws[k])
        invariant particleCount == old(particleCount) + i
      {
        particles := particles + [BurstParticle(draws[i])];
        particleCount := particleCount + 1;
        i := i + 1;
      }
    }

    /** `updateParticles`: walk the list from the back, advance each particle and splice
        it out when its life is spent. The frame time it is given is not read. */
    method UpdateParticles(deltaTime: real)
      modifies this
      ensures particles == Updated(old(particles))
      ensures particleCount == old(particleCount)
    {
      ghost var ps := particles;
      var i := |particles|;
      while i > 0
        invariant 0 <= i <= |ps|
        invariant particles == ps[..i] + Updated(ps[i..])
        invariant particleCount == old(particleCount)
      {
        i := i - 1;
        UpdateSplice(ps, i, particles);
        var p := Advance(particles[i]);
        if p.life <= 0.0 {
          particles := particles[..i] + particles[i + 1..];
        } else {
          particles := particles[..i] + [p] + particles[i + 1..];
        }
      }
      assert ps[..0] == [] && ps[0..] == ps;
    }

    /** The burst's 3000 ms timer: splice out every particle, last first. */
    method BurstTimeout()
      modifies this
      ensures particles == []
      ensures particleCount == old(particleCount)
    {
      var i := |particles|;
      while i > 0
        invariant 0 <= i <= |old(particles)|
        invariant particles == old(particles)[..i]
        invariant particleCount == old(particleCount)
      {
        i := i - 1;
        particles := particles[..i] + particles[i + 1..];
      }
    }
  }
}
