/** The boost trail: for each of two planes a list of short-lived particles
    that are emitted behind the plane while it boosts, drift, fade and expire.
    Randomness comes from one 32-bit linear congruential generator per plane,
    so the trail is reproducible. */
module BoostTrail {
  import opened Numerics
  import opened Core
  import opened Sequences
  import PlaneController

  const TwoTo32: int := 0x1_0000_0000
  const TwoTo24: int := 0x100_0000

  /** The Numerical Recipes LCG constants and the two initial seeds. */
  const LcgMultiplier: int := 1664525
  const LcgIncrement: int := 1013904223
  const FirstSeed: int := 0x1234_5678
  const SecondSeed: int := 0x8765_4321

  /** The multiplicative inverse of LcgMultiplier modulo 2^32. */
  const LcgInverse: int := 0xFEE0_58C5

  const EmitRatePerSecond: real := 55.0
  /** Capacity of the vertex buffer that Render fills. */
  const MaxGpuParticles: nat := 1024
  const TrailColor: Vec3 := Vec3(0.3, 0.8, 1.0)

  /** A value of std::uint32_t. */
  predicate IsWord(x: int) {
    0 <= x < TwoTo32
  }

  // ---------------------------------------------------------------------
  // The generator

  /** One step of the generator, with uint32 wrap-around. */
  function LcgNext(state: int): (r: int)
    ensures IsWord(r)
  {
    (LcgMultiplier * state + LcgIncrement) % TwoTo32
  }

  /** `n` steps of the generator. */
  function LcgSteps(state: int, n: nat): (r: int)
    requires IsWord(state)
    ensures IsWord(r)
  {
    if n == 0 then state else LcgNext(LcgSteps(state, n - 1))
  }

  /** Taking a + b steps is taking a steps, then b more. */
  lemma {:induction false} LcgStepsAdd(state: int, a: nat, b: nat)
    requires IsWord(state)
    ensures LcgSteps(state, a + b) == LcgSteps(LcgSteps(state, a), b)
  {
    if b > 0 {
      LcgStepsAdd(state, a, b - 1);
      assert a + b - 1 == a + (b - 1);
    }
  }

  lemma LcgStepsSucc(state: int, n: nat)
    requires IsWord(state)
    ensures LcgSteps(state, n + 1) == LcgNext(LcgSteps(state, n))
  {
  }

  /** Six steps, as the emission of one particle takes them. */
  lemma LcgSixSteps(state: int)
    requires IsWord(state)
    ensures LcgSteps(state, 6) == LcgNext(LcgNext(LcgNext(LcgNext(LcgNext(LcgNext(state))))))
  {
    LcgStepsSucc(state, 0);
    LcgStepsSucc(state, 1);
    LcgStepsSucc(state, 2);
    LcgStepsSucc(state, 3);
    LcgStepsSucc(state, 4);
    LcgStepsSucc(state, 5);
  }

  /** One step back. */
  function LcgPrev(state: int): (r: int)
    ensures IsWord(r)
  {
    (LcgInverse * (state - LcgIncrement)) % TwoTo32
  }

  lemma ModOfMultiple(r: int, j: int, n: int)
    requires 0 <= r < n
    ensures (r + n * j) % n == r
  {
    var x := r + n * j;
    var q := x / n;
    assert x == n * q + x % n;
    assert n * (q - j) == r - x % n;
    if q - j > 0 {
      MulMonotone(1, q - j, n);
      assert false;
    } else if q - j < 0 {
      MulMonotone(q - j, -1, n);
      assert false;
    }
  }

  /** The generator is a permutation of the uint32 states: stepping back
      undoes a step, so no two states share a successor. */
  lemma {:induction false} LcgPrevUndoesNext(state: int)
    requires IsWord(state)
    ensures LcgPrev(LcgNext(state)) == state
  {
    var x := LcgMultiplier * state + LcgIncrement;
    var q := x / TwoTo32;
    var t := LcgNext(state);
    assert t == x - TwoTo32 * q;
    assert LcgMultiplier * LcgInverse == 1 + TwoTo32 * 1657219;
    var j := 1657219 * state - LcgInverse * q;
    calc {
      LcgInverse * (t - LcgIncrement);
      LcgInverse * (LcgMultiplier * state - TwoTo32 * q);
      (LcgInverse * LcgMultiplier) * state - (LcgInverse * TwoTo32) * q;
      (1 + TwoTo32 * 1657219) * state - (LcgInverse * TwoTo32) * q;
      state + TwoTo32 * j;
    }
    ModOfMultiple(state, j, TwoTo32);
  }

  lemma LcgNextInjective(a: int, b: int)
    requires IsWord(a) && IsWord(b)
    requires LcgNext(a) == LcgNext(b)
    ensures a == b
  {
    LcgPrevUndoesNext(a);
    LcgPrevUndoesNext(b);
  }

  /** The 24 bits above the low byte, (state >> 8) & 0xFFFFFF. */
  function Mantissa(state: int): (r: int)
    requires IsWord(state)
    ensures 0 <= r < TwoTo24
  {
    (state / 256) % TwoTo24
  }

  /** The sample the generator hands out for a state. */
  function UnitSample(state: int): (r: real)
    requires IsWord(state)
    ensures 0.0 <= r < 1.0
  {
    Mantissa(state) as real / TwoTo24 as real
  }

  /** The mask keeps every bit the shift leaves, so the sample is the state
      as a fraction of 2^32, rounded down to a multiple of 2^-24. */
  lemma UnitSampleApproximates(state: int)
    requires IsWord(state)
    ensures Mantissa(state) == state / 256
    ensures UnitSample(state) <= state as real / TwoTo32 as real < UnitSample(state) + 1.0 / TwoTo24 as real
  {
    var q := state / 256;
    assert q * 256 <= state < q * 256 + 256;
    assert q < TwoTo24;
    assert Mantissa(state) == q;
    assert (q * 256) as real / TwoTo32 as real == q as real / TwoTo24 as real;
    assert (q * 256 + 256) as real / TwoTo32 as real == q as real / TwoTo24 as real + 1.0 / TwoTo24 as real;
  }

  // ---------------------------------------------------------------------
  // Directions

  /** The trail's own forward vector: the same heading vector as the
      flight model, with a fallback to +z for a degenerate length. */
  function CalculateForwardVector(m: Math, s: PlaneState): (f: Vec3)
    ensures ValidMath(m) ==> f == PlaneController.CalculateForwardVector(m, s) && IsUnit(f)
  {
    var yawRad := Radians(s.yaw);
    var pitchRad := Radians(s.pitch);
    var forward := Vec3(m.sin(yawRad) * m.cos(pitchRad), -m.sin(pitchRad), m.cos(yawRad) * m.cos(pitchRad));
    var len := m.sqrt(Dot(forward, forward));
    assert ValidMath(m) ==> len == 1.0 by {
      if ValidMath(m) {
        PlaneController.RawForwardIsUnit(m, yawRad, pitchRad);
      }
    }
    if len <= 0.0001 then Vec3(0.0, 0.0, 1.0) else Scale(forward, 1.0 / len)
  }

  /** The sideways direction: up x forward, normalised, or +x when that is
      too short.  It is horizontal, and perpendicular to the forward vector
      unless the fallback was taken. */
  function RightVector(m: Math, forward: Vec3): (r: Vec3)
    ensures r.y == 0.0
    ensures r == Vec3(1.0, 0.0, 0.0) || Dot(r, forward) == 0.0
  {
    var right := Normalize(m, Cross(Up, forward));
    if m.sqrt(Dot(right, right)) < 0.001 then Vec3(1.0, 0.0, 0.0) else right
  }

  // ---------------------------------------------------------------------
  // Particles

  datatype Particle = Particle(position: Vec3, velocity: Vec3, color: Vec3, lifetime: real, remaining: real, size: real)

  /** A particle is kept while some of its lifetime remains. */
  predicate Alive(p: Particle) {
    !(p.remaining <= 0.0)
  }

  /** One frame of drift and ageing. */
  function AdvanceParticle(p: Particle, dt: real): Particle {
    p.(position := Add(p.position, Scale(p.velocity, dt)), remaining := p.remaining - dt)
  }

  /** A plane's list after the advance-and-erase pass. */
  function Survivors(ps: seq<Particle>, dt: real): seq<Particle> {
    Filter(MapSeq(ps, p => AdvanceParticle(p, dt)), Alive)
  }

  /** Every survivor has time left and has advanced by one frame; none is
      added; each advanced particle still alive survives as often as it
      occurred. */
  lemma SurvivorsProperties(ps: seq<Particle>, dt: real)
    ensures forall i :: 0 <= i < |Survivors(ps, dt)| ==> Survivors(ps, dt)[i].remaining > 0.0
    ensures |Survivors(ps, dt)| <= |ps|
    ensures forall p :: multiset(Survivors(ps, dt))[p] ==
              if Alive(p) then multiset(MapSeq(ps, q => AdvanceParticle(q, dt)))[p] else 0
  {
    var advanced := MapSeq(ps, q => AdvanceParticle(q, dt));
    FilterKept(advanced, Alive);
    forall p
      ensures multiset(Survivors(ps, dt))[p] == if Alive(p) then multiset(advanced)[p] else 0
    {
      FilterMultiset(advanced, Alive, p);
    }
  }

  /** A zero-length frame erases nothing from a list of living particles. */
  lemma SurvivorsOfPausedFrame(ps: seq<Particle>)
    requires forall i :: 0 <= i < |ps| ==> Alive(ps[i])
    ensures Survivors(ps, 0.0) == ps
  {
    var advanced := MapSeq(ps, q => AdvanceParticle(q, 0.0));
    assert advanced == ps;
    FilterAllKept(ps, Alive);
  }

  /** What a fresh particle looks like: lifetime in [0.25, 0.45), all of it
      remaining, size in [10, 20), trail colour. */
  predicate FreshParticle(p: Particle) {
    && 0.25 <= p.lifetime < 0.45
    && p.remaining == p.lifetime
    && 10.0 <= p.size < 20.0
    && p.color == TrailColor
  }

  /** Where particles start: 2.4 behind the plane and 0.2 above it. */
  function SpawnBase(s: PlaneState, forward: Vec3): Vec3 {
    Add(Sub(s.position, Scale(forward, 2.4)), Scale(Up, 0.2))
  }

  datatype Spawn = Spawn(particle: Particle, state: int)

  /** The particle one emission creates from generator state `state`: six
      samples (side, vertical, sideways jitter, upward jitter, lifetime,
      size) behind the plane, and the state after the draws.  The two jitter
      draws are operands of one vector sum whose evaluation order C++ leaves
      unspecified; they are taken left to right here. */
  function SpawnParticle(s: PlaneState, forward: Vec3, right: Vec3, baseSpawn: Vec3, state: int): (r: Spawn)
    requires IsWord(state)
    ensures IsWord(r.state)
    ensures FreshParticle(r.particle)
    ensures right.y == 0.0 ==> baseSpawn.y - 0.2 <= r.particle.position.y < baseSpawn.y + 0.2
  {
    var s1 := LcgNext(state);
    var s2 := LcgNext(s1);
    var s3 := LcgNext(s2);
    var s4 := LcgNext(s3);
    var s5 := LcgNext(s4);
    var s6 := LcgNext(s5);
    var side := (UnitSample(s1) - 0.5) * 0.9;
    var vertical := (UnitSample(s2) - 0.5) * 0.4;
    var speed := Max(20.0, s.speed);
    var jitter := Add(Scale(right, (UnitSample(s3) - 0.5) * 3.0), Scale(Up, UnitSample(s4) * 1.5));
    var lifetime := 0.25 + UnitSample(s5) * 0.20;
    var size := 10.0 + UnitSample(s6) * 10.0;
    Spawn(Particle(Add(Add(baseSpawn, Scale(right, side)), Scale(Up, vertical)),
                   Add(Scale(Neg(forward), speed * 0.6), jitter),
                   TrailColor, lifetime, lifetime, size),
          s6)
  }

  /** One particle takes six samples from the generator. */
  lemma SpawnDrawsSix(s: PlaneState, forward: Vec3, right: Vec3, baseSpawn: Vec3, state: int)
    requires IsWord(state)
    ensures SpawnParticle(s, forward, right, baseSpawn, state).state == LcgSteps(state, 6)
  {
    LcgSixSteps(state);
  }

  datatype Emission = Emission(particles: seq<Particle>, state: int)

  /** The particles emitted by `count` iterations of the emission loop
      from `baseSpawn` (none for a count of zero or less) and the generator state after
      them: six draws per particle. */
  function EmitParticles(s: PlaneState, forward: Vec3, right: Vec3, baseSpawn: Vec3, state: int, count: int): (r: Emission)
    requires IsWord(state)
    ensures IsWord(r.state)
    ensures |r.particles| == if count <= 0 then 0 else count
    ensures forall i :: 0 <= i < |r.particles| ==> FreshParticle(r.particles[i])
    decreases count
  {
    if count <= 0 then Emission([], state)
    else
      var before := EmitParticles(s, forward, right, baseSpawn, state, count - 1);
      var next := SpawnParticle(s, forward, right, baseSpawn, before.state);
      Emission(before.particles + [next.particle], next.state)
  }

  /** The emission loop takes exactly six samples per particle, so the
      generator ends where 6 * count steps take it. */
  lemma {:induction false} EmissionDraws(s: PlaneState, forward: Vec3, right: Vec3, baseSpawn: Vec3, state: int, count: int)
    requires IsWord(state)
    ensures EmitParticles(s, forward, right, baseSpawn, state, count).state
            == LcgSteps(state, 6 * |EmitParticles(s, forward, right, baseSpawn, state, count).particles|)
    decreases count
  {
    if count > 0 {
      var before := EmitParticles(s, forward, right, baseSpawn, state, count - 1);
      EmissionDraws(s, forward, right, baseSpawn, state, count - 1);
      SpawnDrawsSix(s, forward, right, baseSpawn, before.state);
      LcgStepsAdd(state, 6 * (count - 1), 6);
      assert 6 * (count - 1) + 6 == 6 * count;
    }
  }

  // ---------------------------------------------------------------------
  // The emission accumulator

  /** static_cast<int> of a float: truncation toward zero. */
  function Trunc(x: real): int {
    if x < 0.0 then -((-x).Floor) else x.Floor
  }

  datatype Accumulated = Accumulated(toEmit: int, accumulator: real)

  /** One boosting tick of the accumulator: add 55 per second, emit its
      whole part, keep the fraction.  From a non-negative accumulator and
      step, the whole part is emitted and the fraction is in [0, 1). */
  function Accumulate(acc: real, dt: real): (r: Accumulated)
    ensures r.toEmit as real + r.accumulator == acc + EmitRatePerSecond * dt
    ensures 0.0 <= acc && 0.0 <= dt ==>
              && r.toEmit == (acc + EmitRatePerSecond * dt).Floor
              && 0 <= r.toEmit
              && 0.0 <= r.accumulator < 1.0
  {
    var total := acc + EmitRatePerSecond * dt;
    var toEmit := Trunc(total);
    Accumulated(toEmit, total - toEmit as real)
  }

  function Sum(dts: seq<real>): real {
    if |dts| == 0 then 0.0 else Sum(dts[..|dts| - 1]) + dts[|dts| - 1]
  }

  /** A run of boosting ticks over the steps `dts`, as the total number of
      particles emitted and the final accumulator. */
  function AccumulateAll(acc: real, dts: seq<real>): Accumulated {
    if |dts| == 0 then Accumulated(0, acc)
    else
      var before := AccumulateAll(acc, dts[..|dts| - 1]);
      var last := Accumulate(before.accumulator, dts[|dts| - 1]);
      Accumulated(before.toEmit + last.toEmit, last.accumulator)
  }

  /** The accumulator loses nothing: over any run of boosting ticks the
      particles emitted plus the carried fraction equal 55 per second of
      boost, so exactly the whole part of the total is emitted. */
  lemma {:induction false} AccumulateAllIsExact(acc: real, dts: seq<real>)
    requires 0.0 <= acc < 1.0
    requires forall i :: 0 <= i < |dts| ==> 0.0 <= dts[i]
    ensures AccumulateAll(acc, dts).toEmit as real + AccumulateAll(acc, dts).accumulator == acc + EmitRatePerSecond * Sum(dts)
    ensures 0.0 <= AccumulateAll(acc, dts).accumulator < 1.0
    ensures AccumulateAll(acc, dts).toEmit == (acc + EmitRatePerSecond * Sum(dts)).Floor
  {
    var r := AccumulateAll(acc, dts);
    var total := acc + EmitRatePerSecond * Sum(dts);
    if |dts| > 0 {
      var init := dts[..|dts| - 1];
      AccumulateAllIsExact(acc, init);
    }
    assert r.toEmit as real + r.accumulator == total;
    assert r.toEmit as real <= total < r.toEmit as real + 1.0;
  }

  // ---------------------------------------------------------------------
  // One plane's trail

  /** The entries of the three buffers that belong to one plane. */
  datatype PlaneTrail = PlaneTrail(particles: seq<Particle>, accumulator: real, rngState: int)

  /** The entries as the simulation keeps them: a uint32 generator state,
      an accumulator in [0, 1), and only particles with time left. */
  predicate TrailInvariant(t: PlaneTrail) {
    && IsWord(t.rngState)
    && 0.0 <= t.accumulator < 1.0
    && forall i :: 0 <= i < |t.particles| ==> Alive(t.particles[i])
  }

  /** The boosting branch: emit the whole part of the accumulator from the
      plane's generator and keep the fraction. */
  function BoostStep(m: Math, s: PlaneState, dt: real, t: PlaneTrail): PlaneTrail
    requires IsWord(t.rngState)
  {
    var acc := Accumulate(t.accumulator, dt);
    var forward := CalculateForwardVector(m, s);
    var emitted := EmitParticles(s, forward, RightVector(m, forward), SpawnBase(s, forward), t.rngState, acc.toEmit);
    PlaneTrail(t.particles + emitted.particles, acc.accumulator, emitted.state)
  }

  /** One frame of a plane's trail: the advance-and-erase pass with a
      non-negative step, then emission or an accumulator reset for a living
      plane. */
  function TrailUpdate(m: Math, s: PlaneState, deltaTime: real, t: PlaneTrail): PlaneTrail
    requires IsWord(t.rngState)
  {
    var dt := Max(0.0, deltaTime);
    var kept := t.(particles := Survivors(t.particles, dt));
    if !s.isAlive then kept
    else if s.isBoosting then BoostStep(m, s, dt, kept)
    else kept.(accumulator := 0.0)
  }

  /** A dead plane's trail only loses its expired particles; a living plane
      that does not boost also resets its accumulator.  Neither draws from
      the generator. */
  lemma TrailUpdateWithoutBoost(m: Math, s: PlaneState, deltaTime: real, t: PlaneTrail)
    requires IsWord(t.rngState)
    requires !s.isAlive || !s.isBoosting
    ensures var r, dt := TrailUpdate(m, s, deltaTime, t), Max(0.0, deltaTime);
            && r.particles == Survivors(t.particles, dt)
            && r.rngState == t.rngState
            && r.accumulator == if s.isAlive then 0.0 else t.accumulator
  {
  }

  /** The boosting branch from a trail in its invariant: the old list stays
      in front, exactly the whole part of accumulator + 55 dt fresh particles
      follow it, six samples of the generator are consumed for each, and
      the carried fraction stays in [0, 1). */
  lemma BoostStepAppends(m: Math, s: PlaneState, dt: real, t: PlaneTrail)
    requires IsWord(t.rngState) && 0.0 <= t.accumulator < 1.0 && 0.0 <= dt
    ensures var r, n := BoostStep(m, s, dt, t), (t.accumulator + EmitRatePerSecond * dt).Floor;
            && 0 <= n
            && |r.particles| == |t.particles| + n
            && r.particles[..|t.particles|] == t.particles
            && (forall i :: |t.particles| <= i < |r.particles| ==> FreshParticle(r.particles[i]))
            && r.rngState == LcgSteps(t.rngState, 6 * n)
            && 0.0 <= r.accumulator < 1.0
  {
    var acc := Accumulate(t.accumulator, dt);
    var forward := CalculateForwardVector(m, s);
    var right := RightVector(m, forward);
    var baseSpawn := SpawnBase(s, forward);
    var emitted := EmitParticles(s, forward, right, baseSpawn, t.rngState, acc.toEmit);
    EmissionDraws(s, forward, right, baseSpawn, t.rngState, acc.toEmit);
    var r := PlaneTrail(t.particles + emitted.particles, acc.accumulator, emitted.state);
    assert BoostStep(m, s, dt, t) == r;
    assert acc.toEmit == (t.accumulator + EmitRatePerSecond * dt).Floor;
    assert 0.0 <= r.accumulator < 1.0;
    assert |emitted.particles| == acc.toEmit;
    assert r.rngState == LcgSteps(t.rngState, 6 * acc.toEmit);
    assert r.particles[..|t.particles|] == t.particles;
    forall i | |t.particles| <= i < |r.particles|
      ensures FreshParticle(r.particles[i])
    {
      assert r.particles[i] == emitted.particles[i - |t.particles|];
    }
  }

  /** A boosting plane keeps its survivors in front and appends exactly
      the whole part of accumulator + 55 dt fresh particles, consuming six
      samples of its generator for each. */
  lemma TrailUpdateWithBoost(m: Math, s: PlaneState, deltaTime: real, t: PlaneTrail)
    requires TrailInvariant(t)
    requires s.isAlive && s.isBoosting
    ensures var r, kept := TrailUpdate(m, s, deltaTime, t), Survivors(t.particles, Max(0.0, deltaTime));
            && r.particles[..|kept|] == kept
            && |r.particles| == |kept| + (t.accumulator + EmitRatePerSecond * Max(0.0, deltaTime)).Floor
            && (forall i :: |kept| <= i < |r.particles| ==> FreshParticle(r.particles[i]))
            && r.rngState == LcgSteps(t.rngState, 6 * (|r.particles| - |kept|))
  {
    var dt := Max(0.0, deltaTime);
    var kept := t.(particles := Survivors(t.particles, dt));
    assert TrailUpdate(m, s, deltaTime, t) == BoostStep(m, s, dt, kept);
    BoostStepAppends(m, s, dt, kept);
  }

  /** Every frame keeps the trail invariant; in particular every particle
      left afterwards has time remaining. */
  lemma TrailUpdateKeepsInvariant(m: Math, s: PlaneState, deltaTime: real, t: PlaneTrail)
    requires TrailInvariant(t)
    ensures TrailInvariant(TrailUpdate(m, s, deltaTime, t))
    ensures forall i :: 0 <= i < |TrailUpdate(m, s, deltaTime, t).particles| ==>
              TrailUpdate(m, s, deltaTime, t).particles[i].remaining > 0.0
  {
    var dt := Max(0.0, deltaTime);
    var kept := t.(particles := Survivors(t.particles, dt));
    SurvivorsProperties(t.particles, dt);
    assert TrailInvariant(kept);
    var r := TrailUpdate(m, s, deltaTime, t);
    if s.isAlive && s.isBoosting {
      assert r == BoostStep(m, s, dt, kept);
      BoostStepAppends(m, s, dt, kept);
      forall i | 0 <= i < |r.particles|
        ensures Alive(r.particles[i])
      {
        if i < |kept.particles| {
          assert r.particles[i] == r.particles[..|kept.particles|][i];
        }
      }
    }
  }

  // ---------------------------------------------------------------------
  // Rendering data

  datatype GpuParticle = GpuParticle(position: Vec3, color: Vec3, alpha: real, size: real)

  /** Opacity from the fraction of life remaining, boosted by 1.6 and
      capped at 1. */
  function Alpha(p: Particle): (a: real)
    ensures 0.0 <= a <= 1.0
  {
    var fraction := Clamp(p.remaining / Max(0.001, p.lifetime), 0.0, 1.0);
    Min(1.0, fraction * 1.6)
  }

  /** For an ordinary lifetime the particle stays fully opaque for its first
      37.5 percent of life and then fades linearly to zero. */
  lemma AlphaFade(p: Particle)
    requires 0.001 <= p.lifetime && 0.0 <= p.remaining <= p.lifetime
    ensures p.remaining >= 0.625 * p.lifetime ==> Alpha(p) == 1.0
    ensures p.remaining < 0.625 * p.lifetime ==> Alpha(p) == 1.6 * (p.remaining / p.lifetime) < 1.0
  {
    var fraction := p.remaining / p.lifetime;
    assert Max(0.001, p.lifetime) == p.lifetime;
    assert 0.0 <= fraction <= 1.0 by {
      DivNonNegative(p.remaining, p.lifetime);
    }
    assert fraction * p.lifetime == p.remaining;
    if fraction >= 0.625 {
      MulNonNegative(fraction - 0.625, p.lifetime);
      assert (fraction - 0.625) * p.lifetime == fraction * p.lifetime - 0.625 * p.lifetime;
      assert p.remaining >= 0.625 * p.lifetime;
    } else {
      MulPositive(0.625 - fraction, p.lifetime);
      assert (0.625 - fraction) * p.lifetime == 0.625 * p.lifetime - fraction * p.lifetime;
      assert p.remaining < 0.625 * p.lifetime;
    }
  }

  /** Alpha never grows as a particle ages. */
  lemma AlphaMonotone(p: Particle, q: Particle)
    requires p.lifetime == q.lifetime && p.remaining <= q.remaining
    ensures Alpha(p) <= Alpha(q)
  {
    var d := Max(0.001, p.lifetime);
    assert p.remaining / d <= q.remaining / d by {
      DivNonNegative(q.remaining - p.remaining, d);
    }
  }

  function ToGpu(p: Particle): GpuParticle {
    GpuParticle(p.position, p.color, Alpha(p), p.size)
  }

  /** The first `n` elements, or all of them when there are fewer. */
  function Take<T>(s: seq<T>, n: nat): (r: seq<T>)
    ensures |r| == if |s| <= n then |s| else n
    ensures forall i :: 0 <= i < |r| ==> r[i] == s[i]
  {
    if |s| <= n then s else s[..n]
  }

  /** Once `n` elements are reached, later elements are not taken. */
  lemma TakeSaturated<T>(a: seq<T>, b: seq<T>, n: nat)
    requires n <= |a|
    ensures Take(a + b, n) == Take(a, n)
  {
    assert (a + b)[..n] == a[..n];
  }

  /** The lists one after another. */
  function Flatten(lists: seq<seq<Particle>>): seq<Particle> {
    if |lists| == 0 then [] else Flatten(lists[..|lists| - 1]) + lists[|lists| - 1]
  }

  /** The trail state of both planes.  Each of the three fixed-size buffers
      has one entry per plane, selected by plane index modulo 2. */
  class BoostTrailRenderer {
    const particles: array<seq<Particle>>
    const emitAccumulator: array<real>
    const rngState: array<int>

    /** Two entries each, and each plane's entries keep the trail
        invariant. */
    ghost predicate Valid()
      reads particles, emitAccumulator, rngState
    {
      Shaped() && TrailInvariant(Trail(0)) && TrailInvariant(Trail(1))
    }

    /** One entry per plane in each of the three arrays. */
    predicate Shaped() {
      particles.Length == 2 && emitAccumulator.Length == 2 && rngState.Length == 2
    }

    /** The entries of plane `k`. */
    function Trail(k: nat): PlaneTrail
      requires k < 2 && Shaped()
      reads particles, emitAccumulator, rngState
    {
      PlaneTrail(particles[k], emitAccumulator[k], rngState[k])
    }

    constructor ()
      ensures Valid()
      ensures particles[..] == [[], []]
      ensures emitAccumulator[..] == [0.0, 0.0]
      ensures rngState[..] == [FirstSeed, SecondSeed]
    {
      particles := new seq<Particle>[] [[], []];
      emitAccumulator := new real[] [0.0, 0.0];
      rngState := new int[] [FirstSeed, SecondSeed];
    }

    /** Steps the generator of plane `planeIndex % 2`, and no other, and
        returns its next sample. */
    method NextFloat01(planeIndex: nat) returns (r: real)
      requires Shaped() && IsWord(rngState[planeIndex % 2])
      modifies rngState
      ensures rngState[planeIndex % 2] == LcgNext(old(rngState[planeIndex % 2]))
      ensures rngState[1 - planeIndex % 2] == old(rngState[1 - planeIndex % 2])
      ensures r == UnitSample(rngState[planeIndex % 2]) && 0.0 <= r < 1.0
    {
      var k := planeIndex % 2;
      rngState[k] := (LcgMultiplier * rngState[k] + LcgIncrement) % TwoTo32;
      var mantissa := (rngState[k] / 256) % TwoTo24;
      r := mantissa as real / TwoTo24 as real;
    }

    /** Moves every particle of list `k` in place, then erases the expired
        ones. */
    method AdvanceAndErase(k: nat, dt: real)
      requires Valid() && k < 2
      modifies particles
      ensures Valid()
      ensures particles[k] == Survivors(old(particles[k]), dt)
      ensures particles[1 - k] == old(particles[1 - k])
    {
      ghost var start := particles[k];
      for i := 0 to |particles[k]|
        invariant particles[1 - k] == old(particles[1 - k])
        invariant |particles[k]| == |start|
        invariant forall j :: 0 <= j < i ==> particles[k][j] == AdvanceParticle(start[j], dt)
        invariant forall j :: i <= j < |start| ==> particles[k][j] == start[j]
      {
        var p := particles[k][i];
        p := p.(position := Add(p.position, Scale(p.velocity, dt)));
        p := p.(remaining := p.remaining - dt);
        particles[k] := particles[k][i := p];
      }
      assert particles[k] == MapSeq(start, q => AdvanceParticle(q, dt));
      particles[k] := Filter(particles[k], Alive);
      FilterKept(MapSeq(start, q => AdvanceParticle(q, dt)), Alive);
    }

    /** One iteration of the emission loop: six draws from the plane's
        generator make one particle, the two jitter draws taken left to
        right as in SpawnParticle. */
    method EmitOne(s: PlaneState, forward: Vec3, right: Vec3, baseSpawn: Vec3, planeIndex: nat) returns (p: Particle)
      requires Shaped() && IsWord(rngState[planeIndex % 2])
      modifies rngState
      ensures var spawn := SpawnParticle(s, forward, right, baseSpawn, old(rngState[planeIndex % 2]));
              p == spawn.particle && rngState[planeIndex % 2] == spawn.state
      ensures rngState[1 - planeIndex % 2] == old(rngState[1 - planeIndex % 2])
    {
      var u1 := NextFloat01(planeIndex);
      var side := (u1 - 0.5) * 0.9;
      var u2 := NextFloat01(planeIndex);
      var vertical := (u2 - 0.5) * 0.4;
      var position := Add(Add(baseSpawn, Scale(right, side)), Scale(Up, vertical));

      var speed := Max(20.0, s.speed);
      var u3 := NextFloat01(planeIndex);
      var u4 := NextFloat01(planeIndex);
      var jitter := Add(Scale(right, (u3 - 0.5) * 3.0), Scale(Up, u4 * 1.5));
      var velocity := Add(Scale(Neg(forward), speed * 0.6), jitter);

      var u5 := NextFloat01(planeIndex);
      var lifetime := 0.25 + u5 * 0.20;
      var u6 := NextFloat01(planeIndex);
      var size := 10.0 + u6 * 10.0;
      p := Particle(position, velocity, TrailColor, lifetime, lifetime, size);
    }

    /** One frame of plane `planeIndex`'s trail, as TrailUpdate describes
        it; the other plane's entries are untouched. */
    method UpdateForPlane(m: Math, s: PlaneState, deltaTime: real, planeIndex: nat)
      requires Valid()
      modifies particles, emitAccumulator, rngState
      ensures Valid()
      ensures Trail(planeIndex % 2) == TrailUpdate(m, s, deltaTime, old(Trail(planeIndex % 2)))
      ensures Trail(1 - planeIndex % 2) == old(Trail(1 - planeIndex % 2))
    {
      var k := planeIndex % 2;
      var dt := Max(0.0, deltaTime);
      AdvanceAndErase(k, dt);

      if !s.isAlive {
        return;
      }

      if s.isBoosting {
        Boost(m, s, dt, planeIndex);
      } else {
        emitAccumulator[k] := 0.0;
      }
    }

    /** The boosting branch: the accumulator gains 55 per second of `dt`,
        its whole part is emitted behind the plane and the fraction kept. */
    method Boost(m: Math, s: PlaneState, dt: real, planeIndex: nat)
      requires Valid() && 0.0 <= dt
      modifies particles, emitAccumulator, rngState
      ensures Valid()
      ensures Trail(planeIndex % 2) == BoostStep(m, s, dt, old(Trail(planeIndex % 2)))
      ensures Trail(1 - planeIndex % 2) == old(Trail(1 - planeIndex % 2))
    {
      var k := planeIndex % 2;
      assert 0.0 <= emitAccumulator[k] by {
        assert k == 0 || k == 1;
      }
      var total := emitAccumulator[k] + EmitRatePerSecond * dt;
      var toEmit := Trunc(total);
      emitAccumulator[k] := total - toEmit as real;
      assert Accumulate(old(emitAccumulator[k]), dt) == Accumulated(toEmit, emitAccumulator[k]);

      var forward := CalculateForwardVector(m, s);
      var right := RightVector(m, forward);
      var baseSpawn := SpawnBase(s, forward);
      Emit(s, forward, right, baseSpawn, planeIndex, toEmit);
    }

    /** The emission loop: `count` particles appended to the plane's list. */
    method Emit(s: PlaneState, forward: Vec3, right: Vec3, baseSpawn: Vec3, planeIndex: nat, count: nat)
      requires Valid()
      modifies particles, rngState
      ensures Valid()
      ensures var k := planeIndex % 2;
              && particles[1 - k] == old(particles[1 - k])
              && rngState[1 - k] == old(rngState[1 - k])
      ensures var k := planeIndex % 2;
              var emitted := EmitParticles(s, forward, right, baseSpawn, old(rngState[k]), count);
              && particles[k] == old(particles[k]) + emitted.particles
              && rngState[k] == emitted.state
    {
      var k := planeIndex % 2;
      ghost var kept := particles[k];
      ghost var state := rngState[k];
      ghost var other := Trail(1 - k);
      assert TrailInvariant(Trail(k)) && TrailInvariant(other);
      assert forall j :: 0 <= j < |kept| ==> Alive(kept[j]);
      for i := 0 to count
        invariant particles[1 - k] == old(particles[1 - k])
        invariant rngState[1 - k] == old(rngState[1 - k])
        invariant particles[k] == kept + EmitParticles(s, forward, right, baseSpawn, state, i).particles
        invariant rngState[k] == EmitParticles(s, forward, right, baseSpawn, state, i).state
      {
        EmitNext(s, forward, right, baseSpawn, planeIndex, kept, state, i);
      }
      AllAlive(kept, EmitParticles(s, forward, right, baseSpawn, state, count).particles);
      assert TrailInvariant(Trail(k));
      assert Trail(1 - k) == other;
    }

    /** One iteration of the emission loop: the next particle of the
        emission is appended to the plane's list. */
    method EmitNext(s: PlaneState, forward: Vec3, right: Vec3, baseSpawn: Vec3, planeIndex: nat,
                    ghost kept: seq<Particle>, ghost state: int, ghost i: nat)
      requires Shaped() && IsWord(state)
      requires particles[planeIndex % 2] == kept + EmitParticles(s, forward, right, baseSpawn, state, i).particles
      requires rngState[planeIndex % 2] == EmitParticles(s, forward, right, baseSpawn, state, i).state
      modifies particles, rngState
      ensures particles[planeIndex % 2] == kept + EmitParticles(s, forward, right, baseSpawn, state, i + 1).particles
      ensures rngState[planeIndex % 2] == EmitParticles(s, forward, right, baseSpawn, state, i + 1).state
      ensures particles[1 - planeIndex % 2] == old(particles[1 - planeIndex % 2])
      ensures rngState[1 - planeIndex % 2] == old(rngState[1 - planeIndex % 2])
    {
      var k := planeIndex % 2;
      ghost var prev := EmitParticles(s, forward, right, baseSpawn, state, i);
      ghost var next := SpawnParticle(s, forward, right, baseSpawn, prev.state);
      assert EmitParticles(s, forward, right, baseSpawn, state, i + 1) == Emission(prev.particles + [next.particle], next.state);
      var p := EmitOne(s, forward, right, baseSpawn, planeIndex);
      particles[k] := particles[k] + [p];
      assert particles[k] == kept + (prev.particles + [p]);
    }

    /** The vertex data Render uploads: the particles of plane 0, then of
        plane 1, cut off at the buffer's 1024 entries, each with its
        opacity. */
    method CollectParticles() returns (gpu: seq<GpuParticle>)
      requires Valid()
      ensures gpu == MapSeq(Take(particles[0] + particles[1], MaxGpuParticles), ToGpu)
      ensures |gpu| <= MaxGpuParticles
      ensures forall i :: 0 <= i < |gpu| ==> 0.0 <= gpu[i].alpha <= 1.0
    {
      gpu := [];
      for plane := 0 to 2
        invariant gpu == MapSeq(Take(Flatten(particles[..plane]), MaxGpuParticles), ToGpu)
      {
        ghost var before := Flatten(particles[..plane]);
        gpu := CollectPlane(gpu, before, particles[plane]);
        assert particles[..plane + 1][..plane] == particles[..plane];
      }
      assert particles[..2][..1] == particles[..1];
      assert particles[..1][..0] == [];
    }
  }

  /** Live particles followed by fresh ones are all live. */
  lemma AllAlive(kept: seq<Particle>, emitted: seq<Particle>)
    requires forall j :: 0 <= j < |kept| ==> Alive(kept[j])
    requires forall j :: 0 <= j < |emitted| ==> FreshParticle(emitted[j])
    ensures forall j :: 0 <= j < |kept + emitted| ==> Alive((kept + emitted)[j])
  {
  }

  /** The inner loop of Render's collection: the particles of one plane
      appended, with their opacity, until the buffer holds 1024. */
  method CollectPlane(gpu0: seq<GpuParticle>, ghost before: seq<Particle>, perPlane: seq<Particle>) returns (gpu: seq<GpuParticle>)
    requires gpu0 == MapSeq(Take(before, MaxGpuParticles), ToGpu)
    ensures gpu == MapSeq(Take(before + perPlane, MaxGpuParticles), ToGpu)
  {
    gpu := gpu0;
    var i := 0;
    while i < |perPlane|
      invariant 0 <= i <= |perPlane|
      invariant gpu == MapSeq(Take(before + perPlane[..i], MaxGpuParticles), ToGpu)
    {
      if |gpu| >= MaxGpuParticles {
        TakeSaturated(before + perPlane[..i], perPlane[i..], MaxGpuParticles);
        assert before + perPlane[..i] + perPlane[i..] == before + perPlane;
        return;
      }
      var p := perPlane[i];
      var alpha := Clamp(p.remaining / Max(0.001, p.lifetime), 0.0, 1.0);
      alpha := Min(1.0, alpha * 1.6);
      assert before + perPlane[..i + 1] == (before + perPlane[..i]) + [p];
      gpu := gpu + [GpuParticle(p.position, p.color, alpha, p.size)];
      i := i + 1;
    }
    assert perPlane[..|perPlane|] == perPlane;
  }
}
