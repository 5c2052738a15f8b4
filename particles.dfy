/** The snow-spray particle pool (src/engine/systems/ParticleSystem.js): an emission
    accumulator turns elapsed time into a whole number of new particles, the pool never grows
    past its capacity, and the particle list and the list of render slots are kept in
    lockstep. Each particle is a small object; its own update, as the pool calls it, returns
    at its first guard, so particles never age and the pool fills up. */
module Particles {
  import opened Core

  /** Per-second gravity and per-call drag factor of a particle's own update. */
  const ParticleGravity: real := 9.8
  const Drag: real := 0.98
  /** Random draws consumed per created particle: two position jitters, three velocity
      components, the lifetime factor and the size factor. */
  const DrawsPerParticle: nat := 7

  datatype Range = Range(lo: real, hi: real)
  datatype VelocityRange = VelocityRange(x: Range, y: Range, z: Range)

  /** The constructor's options (mesh and texture aside). */
  datatype Config = Config(
    maxParticles: nat, emissionRate: real, particleLifetime: real, particleSize: real,
    particleColor: Color, spawnOffset: Vec3, velocityRange: VelocityRange)

  const Defaults := Config(100, 20.0, 1.0, 0.15, Color(1.0, 1.0, 1.0, 0.8), Vec3(0.0, 0.0, 0.0),
                           VelocityRange(Range(-2.0, 2.0), Range(0.5, 2.0), Range(-2.0, 2.0)))

  /** Everything a particle holds, as a value. */
  datatype ParticleData = ParticleData(
    position: Vec3, velocity: Vec3, lifetime: real, age: real, size: real, initialSize: real,
    color: Color, initialAlpha: real, active: bool)

  /** A render slot: the transform and colour of the entity that shows one particle. */
  datatype Slot = Slot(translation: Vec3, scale: Vec3, color: Color)

  // ---------------------------------------------------------------- creation

  /** lo + r * (hi - lo). */
  function Sample(range: Range, r: real): (s: real) {
    range.lo + r * (range.hi - range.lo)
  }

  /** createParticle: draws base .. base + 6 of the stream give the position jitter, the
      velocity, and the lifetime and size variations. */
  function CreateParticle(c: Config, parent: Vec3, rnd: nat -> real, base: nat): (q: ParticleData) {
    var position := Vec3(parent.x + c.spawnOffset.x + (rnd(base) - 0.5) * 0.5,
                         parent.y + c.spawnOffset.y,
                         parent.z + c.spawnOffset.z + (rnd(base + 1) - 0.5) * 0.5);
    var velocity := Vec3(Sample(c.velocityRange.x, rnd(base + 2)),
                         Sample(c.velocityRange.y, rnd(base + 3)),
                         Sample(c.velocityRange.z, rnd(base + 4)));
    var lifetime := Varied(c.particleLifetime, 0.8, 0.4, rnd(base + 5));
    var size := Varied(c.particleSize, 0.7, 0.6, rnd(base + 6));
    ParticleData(position, velocity, lifetime, 0.0, size, size, c.particleColor, c.particleColor.a, true)
  }

  /** A draw in [0, 1) puts a sampled value in [lo, hi] (in [lo, hi) when lo < hi). */
  lemma SampleInRange(range: Range, r: real)
    requires range.lo <= range.hi && 0.0 <= r < 1.0
    ensures range.lo <= Sample(range, r) <= range.hi
    ensures range.lo < range.hi ==> Sample(range, r) < range.hi
  {
    MulNonNegative(r, range.hi - range.lo);
    MulNonNegative(1.0 - r, range.hi - range.lo);
    if range.lo < range.hi {
      MulPositive(1.0 - r, range.hi - range.lo);
    }
  }

  /** scale * (lo + r * width): a configured value varied by a draw r. */
  function Varied(scale: real, lo: real, width: real, r: real): (v: real) {
    scale * (lo + r * width)
  }

  /** The lifetime variation of a draw in [0, 1) lies in [0.8, 1.2) x the configured lifetime. */
  lemma LifetimeVariation(scale: real, r: real)
    requires scale > 0.0 && 0.0 <= r < 1.0
    ensures 0.8 * scale <= Varied(scale, 0.8, 0.4, r) < 1.2 * scale
  {
    MulNonNegative(scale, r * 0.4);
    MulPositive(scale, (1.0 - r) * 0.4);
  }

  /** The size variation of a draw in [0, 1) lies in [0.7, 1.3) x the configured size. */
  lemma SizeVariation(scale: real, r: real)
    requires scale > 0.0 && 0.0 <= r < 1.0
    ensures 0.7 * scale <= Varied(scale, 0.7, 0.6, r) < 1.3 * scale
  {
    MulNonNegative(scale, r * 0.6);
    MulPositive(scale, (1.0 - r) * 0.6);
  }

  /** A new particle is active and unaged, at full size and alpha, in the configured
      colour, at the spawn height. */
  lemma CreatedParticleFresh(c: Config, parent: Vec3, rnd: nat -> real, base: nat)
    ensures var p := CreateParticle(c, parent, rnd, base);
            && p.active && p.age == 0.0 && p.size == p.initialSize && p.color == c.particleColor
            && p.initialAlpha == c.particleColor.a && p.position.y == parent.y + c.spawnOffset.y
  {
  }

  /** The jitter (r - 0.5) * 0.5 of a draw r in [0, 1) is at most 0.25 either way. */
  lemma JitterInRange(r: real)
    requires 0.0 <= r < 1.0
    ensures -0.25 <= (r - 0.5) * 0.5 < 0.25
  {
  }

  /** A new particle lies within 0.25 of the spawn point in x and in z. */
  lemma CreatedParticleJitter(c: Config, parent: Vec3, rnd: nat -> real, base: nat)
    requires ValidDraws(rnd)
    ensures var p := CreateParticle(c, parent, rnd, base);
            && Abs(p.position.x - (parent.x + c.spawnOffset.x)) <= 0.25
            && Abs(p.position.z - (parent.z + c.spawnOffset.z)) <= 0.25
  {
    JitterInRange(rnd(base));
    JitterInRange(rnd(base + 1));
  }

  /** A new particle's velocity lies inside the configured ranges. */
  lemma CreatedParticleVelocity(c: Config, parent: Vec3, rnd: nat -> real, base: nat)
    requires ValidDraws(rnd)
    requires c.velocityRange.x.lo <= c.velocityRange.x.hi && c.velocityRange.y.lo <= c.velocityRange.y.hi
    requires c.velocityRange.z.lo <= c.velocityRange.z.hi
    ensures var p := CreateParticle(c, parent, rnd, base);
            && c.velocityRange.x.lo <= p.velocity.x <= c.velocityRange.x.hi
            && c.velocityRange.y.lo <= p.velocity.y <= c.velocityRange.y.hi
            && c.velocityRange.z.lo <= p.velocity.z <= c.velocityRange.z.hi
  {
    SampleInRange(c.velocityRange.x, rnd(base + 2));
    SampleInRange(c.velocityRange.y, rnd(base + 3));
    SampleInRange(c.velocityRange.z, rnd(base + 4));
  }

  /** A new particle's lifetime lies in [0.8, 1.2) x particleLifetime and its size in
      [0.7, 1.3) x particleSize. */
  lemma CreatedParticleVariation(c: Config, parent: Vec3, rnd: nat -> real, base: nat)
    requires ValidDraws(rnd)
    requires c.particleLifetime > 0.0 && c.particleSize > 0.0
    ensures var p := CreateParticle(c, parent, rnd, base);
            && 0.8 * c.particleLifetime <= p.lifetime < 1.2 * c.particleLifetime
            && 0.7 * c.particleSize <= p.size < 1.3 * c.particleSize
  {
    LifetimeVariation(c.particleLifetime, rnd(base + 5));
    SizeVariation(c.particleSize, rnd(base + 6));
  }

  // ---------------------------------------------------------------- ageing

  /** Alpha after `age` of `lifetime`: initialAlpha * (1 - age / lifetime). */
  function Fade(initialAlpha: real, age: real, lifetime: real): (alpha: real)
    requires lifetime != 0.0
  {
    initialAlpha * (1.0 - age / lifetime)
  }

  /** Size after `age` of `lifetime`: initialSize * (1 - age / lifetime * 0.5). */
  function Shrink(initialSize: real, age: real, lifetime: real): (size: real)
    requires lifetime != 0.0
  {
    initialSize * (1.0 - age / lifetime * 0.5)
  }

  /** Over a particle's life the alpha falls from initialAlpha to 0 and the size from
      initialSize to half of it, never leaving those bounds. */
  lemma FadeAndShrinkBounds(initialAlpha: real, initialSize: real, age: real, lifetime: real)
    requires lifetime > 0.0 && 0.0 <= age <= lifetime && initialAlpha >= 0.0 && initialSize >= 0.0
    ensures 0.0 <= Fade(initialAlpha, age, lifetime) <= initialAlpha
    ensures initialSize * 0.5 <= Shrink(initialSize, age, lifetime) <= initialSize
    ensures Fade(initialAlpha, 0.0, lifetime) == initialAlpha && Fade(initialAlpha, lifetime, lifetime) == 0.0
    ensures Shrink(initialSize, lifetime, lifetime) == initialSize * 0.5
  {
    var q := age / lifetime;
    assert 0.0 <= q <= 1.0;
    MulNonNegative(initialAlpha, 1.0 - q);
    MulNonNegative(initialAlpha, q);
    MulNonNegative(initialSize, 0.5 - q * 0.5);
    MulNonNegative(initialSize, q * 0.5);
  }

  /** One step of motion: position + velocity * dt. */
  function Moved(position: Vec3, velocity: Vec3, dt: real): (q: Vec3) {
    Vec3(position.x + velocity.x * dt, position.y + velocity.y * dt, position.z + velocity.z * dt)
  }

  /** Gravity on the vertical component, then air drag on all three. */
  function Dragged(velocity: Vec3, dt: real): (w: Vec3) {
    Vec3(velocity.x * Drag, (velocity.y - ParticleGravity * dt) * Drag, velocity.z * Drag)
  }

  /** The body of Particle.update past its guards, on values: age, move, gravity, drag,
      fade, shrink, and expiry once the age reaches the lifetime. */
  function Advanced(p: ParticleData, dt: real): (q: ParticleData)
    requires p.lifetime != 0.0
  {
    if !p.active then p
    else
      var age := p.age + dt;
      p.(age := age, position := Moved(p.position, p.velocity, dt), velocity := Dragged(p.velocity, dt),
         color := p.color.(a := Fade(p.initialAlpha, age, p.lifetime)),
         size := Shrink(p.initialSize, age, p.lifetime),
         active := age < p.lifetime)
  }

  /** An advanced particle ages by dt and goes inactive exactly when its age reaches its
      lifetime; an inactive one is left alone. */
  lemma AdvanceAgesAndExpires(p: ParticleData, dt: real)
    requires p.lifetime != 0.0
    ensures !p.active ==> Advanced(p, dt) == p
    ensures p.active ==> Advanced(p, dt).age == p.age + dt
    ensures p.active ==> (Advanced(p, dt).active <==> p.age + dt < p.lifetime)
    ensures p.active ==> Advanced(p, dt).color.a == p.initialAlpha * (1.0 - (p.age + dt) / p.lifetime)
    ensures p.lifetime == Advanced(p, dt).lifetime && p.initialAlpha == Advanced(p, dt).initialAlpha
  {
  }

  /** Advancing a live particle with 0 < dt repeatedly ends its life: after
      n steps its age is n * dt, and once that reaches the lifetime it is inactive. */
  function AdvancedTimes(p: ParticleData, dt: real, n: nat): (r: ParticleData)
    requires p.lifetime != 0.0
    ensures r.lifetime == p.lifetime
  {
    if n == 0 then p else Advanced(AdvancedTimes(p, dt, n - 1), dt)
  }

  /** A particle that has been alive for time t of a lifetime L: active exactly while
      t < L, and while active its age is t. */
  predicate AgedBy(p: ParticleData, t: real, lifetime: real) {
    && (p.active <==> t < lifetime)
    && (p.active ==> p.age == t)
  }

  /** One more step of dt > 0 adds dt to the time alive. */
  lemma AdvanceAddsTime(p: ParticleData, dt: real, t: real)
    requires p.lifetime > 0.0 && dt > 0.0 && AgedBy(p, t, p.lifetime)
    ensures AgedBy(Advanced(p, dt), t + dt, p.lifetime)
  {
    AdvanceAgesAndExpires(p, dt);
  }

  lemma {:induction false} AdvancedTimesAge(p: ParticleData, dt: real, n: nat)
    requires p.lifetime > 0.0 && p.active && p.age == 0.0 && dt > 0.0
    ensures AgedBy(AdvancedTimes(p, dt, n), (n as real) * dt, p.lifetime)
  {
    if n > 0 {
      AdvancedTimesAge(p, dt, n - 1);
      AdvancedTimesStep(p, dt, n);
    }
  }

  lemma AdvancedTimesStep(p: ParticleData, dt: real, n: nat)
    requires p.lifetime > 0.0 && dt > 0.0 && n > 0
    requires AgedBy(AdvancedTimes(p, dt, n - 1), ((n - 1) as real) * dt, p.lifetime)
    ensures AgedBy(AdvancedTimes(p, dt, n), (n as real) * dt, p.lifetime)
  {
    AdvanceAddsTime(AdvancedTimes(p, dt, n - 1), dt, ((n - 1) as real) * dt);
    StepsTimes(n, dt);
  }

  /** n steps of dt are n - 1 steps and one more. */
  lemma StepsTimes(n: nat, dt: real)
    requires n > 0
    ensures (n as real) * dt == ((n - 1) as real) * dt + dt
  {
  }

  // ---------------------------------------------------------------- emission

  /** What the accumulator yields: the whole number of particles to emit and what is left. */
  datatype Emission = Emission(count: int, remainder: real)

  /** floor(accumulator * rate) particles; when positive, that many periods are taken off. */
  function Drain(accumulator: real, rate: real): (e: Emission)
    ensures e.count <= 0 ==> e.remainder == accumulator
  {
    var n := (accumulator * rate).Floor;
    if n > 0 then Emission(n, accumulator - (n as real) / rate) else Emission(n, accumulator)
  }

  /** Less than one emission period is left: 0 <= remainder * rate < 1. */
  predicate WithinPeriod(remainder: real, rate: real) {
    0.0 <= remainder * rate < 1.0
  }

  /** With a positive rate and a non-negative accumulator, the accumulator is drained to
      less than one period, whether or not the particles can actually be placed. */
  lemma EmissionDrains(accumulator: real, rate: real)
    requires rate > 0.0 && accumulator >= 0.0
    ensures var e := Drain(accumulator, rate);
            && e.count >= 0 && e.remainder >= 0.0
            && WithinPeriod(e.remainder, rate)
            && (e.count as real) <= accumulator * rate < (e.count as real) + 1.0
  {
    var n := (accumulator * rate).Floor;
    MulNonNegative(accumulator, rate);
    if n > 0 {
      DrainedRemainder(accumulator, rate, n, Drain(accumulator, rate).remainder);
    } else {
      assert WithinPeriod(accumulator, rate);
    }
  }

  /** Taking n periods off an accumulator that holds between n and n + 1 of them leaves
      less than one period, and nothing negative. */
  lemma DrainedRemainder(accumulator: real, rate: real, n: int, remainder: real)
    requires rate > 0.0 && (n as real) <= accumulator * rate < (n as real) + 1.0
    requires remainder == accumulator - (n as real) / rate
    ensures remainder >= 0.0 && WithinPeriod(remainder, rate)
  {
    var q := (n as real) / rate;
    PeriodsTimesRate(n as real, rate);
    Distribute(accumulator, q, rate);
    MulBoth(remainder, accumulator - q, rate);
    assert remainder * rate == accumulator * rate - (n as real);
    PositiveFactor(remainder, rate);
  }

  /** Equal factors give equal products. */
  lemma MulBoth(a: real, b: real, c: real)
    requires a == b
    ensures a * c == b * c
  {
  }

  /** (a - b) * c == a * c - b * c. */
  lemma Distribute(a: real, b: real, c: real)
    ensures (a - b) * c == a * c - b * c
  {
  }

  /** A product with a positive factor is non-negative only when the other factor is. */
  lemma PositiveFactor(r: real, p: real)
    requires p > 0.0 && r * p >= 0.0
    ensures r >= 0.0
  {
    if r < 0.0 {
      MulPositive(-r, p);
    }
  }

  /** (n / rate) * rate == n for a non-zero rate. */
  lemma PeriodsTimesRate(n: real, rate: real)
    requires rate != 0.0
    ensures (n / rate) * rate == n
  {
  }

  /** A non-positive rate emits nothing and leaves the accumulator as it is. */
  lemma NoRateNoEmission(accumulator: real, rate: real)
    requires rate <= 0.0 && accumulator >= 0.0
    ensures Drain(accumulator, rate).count <= 0 && Drain(accumulator, rate).remainder == accumulator
  {
    if rate < 0.0 {
      MulNonNegative(accumulator, -rate);
    }
  }

  // ---------------------------------------------------------------- particles

  class Particle {
    var position: Vec3
    var velocity: Vec3
    var lifetime: real
    var age: real
    var size: real
    var initialSize: real
    var color: Color
    var initialAlpha: real
    var active: bool

    function Data(): (d: ParticleData)
      reads this
    {
      ParticleData(position, velocity, lifetime, age, size, initialSize, color, initialAlpha, active)
    }

    constructor (position: Vec3, velocity: Vec3, lifetime: real, size: real, color: Color)
      ensures Data() == ParticleData(position, velocity, lifetime, 0.0, size, size, color, color.a, true)
    {
      this.position := position;
      this.velocity := velocity;
      this.lifetime := lifetime;
      age := 0.0;
      this.size := size;
      initialSize := size;
      this.color := color;
      initialAlpha := color.a;
      active := true;
    }

    /** update(t, dt, parentTransform) as the pool calls it, with one argument: a Particle
        has no `enabled` field, so the first guard returns and nothing changes. */
    method Update(t: real)
      ensures unchanged(this)
    {
    }

    /** The same update as it would run past its guards (enabled, with a parent transform). */
    method Advance(dt: real)
      requires lifetime != 0.0
      modifies this
      ensures Data() == Advanced(old(Data()), dt)
    {
      if !active {
        return;
      }
      age := age + dt;
      position := Moved(position, velocity, dt);
      velocity := Dragged(velocity, dt);
      color := color.(a := Fade(initialAlpha, age, lifetime));
      size := Shrink(initialSize, age, lifetime);
      if age >= lifetime {
        active := false;
      }
    }
  }

  /** The render slot that shows a particle. */
  function SlotOf(p: Particle): (s: Slot)
    reads p
  {
    Slot(p.position, Vec3(p.size, p.size, p.size), p.color)
  }

  /** The slot each particle of a list would be shown by, in order. */
  function SlotsOf(ps: seq<Particle>): (ss: seq<Slot>)
    reads ps
  {
    seq(|ps|, i requires 0 <= i < |ps| reads ps => SlotOf(ps[i]))
  }

  /** Which particles of a list are active, in order. */
  function Flags(ps: seq<Particle>): (fs: seq<bool>)
    reads ps
  {
    seq(|ps|, i requires 0 <= i < |ps| reads ps => ps[i].active)
  }

  predicate AllActive(ps: seq<Particle>)
    reads ps
  {
    forall i :: 0 <= i < |ps| ==> ps[i].active
  }

  /** The elements of xs whose flag is set, in order: what splicing out every unflagged
      element leaves. */
  function Keep<T>(xs: seq<T>, flags: seq<bool>): (r: seq<T>)
    requires |xs| == |flags|
    ensures |r| <= |xs|
    ensures forall x :: x in r ==> x in xs
  {
    if |xs| == 0 then [] else (if flags[0] then [xs[0]] else []) + Keep(xs[1..], flags[1..])
  }

  /** An element survives the filter exactly when it sits at a flagged position. */
  lemma {:induction false} KeepMembers<T>(xs: seq<T>, flags: seq<bool>, x: T)
    requires |xs| == |flags|
    ensures x in Keep(xs, flags) <==> exists i :: 0 <= i < |xs| && xs[i] == x && flags[i]
  {
    if |xs| > 0 {
      KeepMembers(xs[1..], flags[1..], x);
      if x in Keep(xs[1..], flags[1..]) {
        var i :| 1 <= i + 1 < |xs| && xs[1..][i] == x && flags[1..][i];
        assert xs[i + 1] == x && flags[i + 1];
      }
      if exists i :: 0 <= i < |xs| && xs[i] == x && flags[i] {
        var i :| 0 <= i < |xs| && xs[i] == x && flags[i];
        if i > 0 {
          assert xs[1..][i - 1] == x && flags[1..][i - 1];
        }
      }
    }
  }

  /** With every flag set, nothing is removed. */
  lemma {:induction false} KeepAll<T>(xs: seq<T>, flags: seq<bool>)
    requires |xs| == |flags| && forall i :: 0 <= i < |flags| ==> flags[i]
    ensures Keep(xs, flags) == xs
  {
    if |xs| > 0 {
      KeepAll(xs[1..], flags[1..]);
    }
  }

  /** Two lists filtered by the same flags keep the same number of elements. */
  lemma {:induction false} KeepSameLength<T, U>(xs: seq<T>, ys: seq<U>, flags: seq<bool>)
    requires |xs| == |ys| == |flags|
    ensures |Keep(xs, flags)| == |Keep(ys, flags)|
  {
    if |xs| > 0 {
      KeepSameLength(xs[1..], ys[1..], flags[1..]);
    }
  }

  /** One step of the filter, from position i. */
  lemma KeepStep<T>(xs: seq<T>, flags: seq<bool>, i: nat)
    requires |xs| == |flags| && i < |xs|
    ensures Keep(xs[i..], flags[i..]) == (if flags[i] then [xs[i]] else []) + Keep(xs[i + 1..], flags[i + 1..])
  {
    assert xs[i..][1..] == xs[i + 1..];
    assert flags[i..][1..] == flags[i + 1..];
  }

  /** Filtering the slots of a list is showing the filtered list. */
  lemma {:induction false} KeepSlots(ps: seq<Particle>, flags: seq<bool>)
    requires |ps| == |flags|
    ensures Keep(SlotsOf(ps), flags) == SlotsOf(Keep(ps, flags))
  {
    if |ps| > 0 {
      KeepSlots(ps[1..], flags[1..]);
      assert SlotsOf(ps)[1..] == SlotsOf(ps[1..]);
      var head := if flags[0] then [ps[0]] else [];
      assert SlotsOf(head + Keep(ps[1..], flags[1..])) == SlotsOf(head) + SlotsOf(Keep(ps[1..], flags[1..]));
    }
  }

  /** One step of the reverse sweep at position i, on a list whose suffix past i has
      already been filtered: keeping element i leaves the list as it is, dropping it splices
      it out; either way the filtered part now starts at i. */
  lemma SweepStep<T>(xs: seq<T>, flags: seq<bool>, cur: seq<T>, i: nat)
    requires |xs| == |flags| && i < |xs|
    requires cur == xs[..i + 1] + Keep(xs[i + 1..], flags[i + 1..])
    ensures cur[i] == xs[i]
    ensures flags[i] ==> cur == xs[..i] + Keep(xs[i..], flags[i..])
    ensures !flags[i] ==> cur[..i] + cur[i + 1..] == xs[..i] + Keep(xs[i..], flags[i..])
  {
    KeepStep(xs, flags, i);
    assert xs[..i + 1] == xs[..i] + [xs[i]];
    assert cur[..i] == xs[..i];
    assert cur[i + 1..] == Keep(xs[i + 1..], flags[i + 1..]);
  }

  /** What the reverse sweep leaves of a pool: its active particles, in order, and the
      slots that show them. */
  ghost predicate Swept(pool: seq<Particle>, ps: seq<Particle>, es: seq<Slot>)
    reads pool
  {
    ps == Keep(pool, Flags(pool)) && es == Keep(SlotsOf(pool), Flags(pool))
  }

  /** What emit(parent, count) leaves: the old list followed by at most `count` particles
      made from successive groups of seven draws, stopping at capacity; nothing at all
      without a mesh or a parent. */
  ghost predicate Appended(c: Config, mesh: bool, parent: Option<Vec3>, rnd: nat -> real, count: int,
                           before: seq<Particle>, after: seq<Particle>)
    reads after
  {
    && |before| <= |after| && after[..|before|] == before
    && |after| - |before| <= (if count > 0 then count else 0)
    && (!mesh || parent.None? ==> after == before)
    && (mesh && parent.Some? ==> |after| == c.maxParticles || |after| == |before| + (if count > 0 then count else 0))
    && forall k :: |before| <= k < |after| ==>
         parent.Some? && after[k].Data() == CreateParticle(c, parent.value, rnd, DrawsPerParticle * (k - |before|))
  }

  /** Emitting a non-positive number of particles leaves the pool as it is. */
  lemma AppendedNothing(c: Config, mesh: bool, parent: Option<Vec3>, rnd: nat -> real, count: int, ps: seq<Particle>)
    requires count <= 0
    ensures Appended(c, mesh, parent, rnd, count, ps, ps)
  {
    assert ps[..|ps|] == ps;
  }

  // ---------------------------------------------------------------- the pool

  class ParticleSystem {
    const maxParticles: nat
    var emissionRate: real
    const particleLifetime: real
    const particleSize: real
    const particleColor: Color
    const spawnOffset: Vec3
    const velocityRange: VelocityRange

    var particles: seq<Particle>
    var particleEntities: seq<Slot>
    var emissionAccumulator: real
    var enabled: bool
    /** Whether a mesh has been set (the mesh itself is render data). */
    var hasMesh: bool

    function Settings(): (c: Config)
      reads this
    {
      Config(maxParticles, emissionRate, particleLifetime, particleSize, particleColor, spawnOffset, velocityRange)
    }

    /** The lists are in lockstep, within capacity, every slot shows its particle, and the
        accumulator is never negative. */
    ghost predicate Valid()
      reads this, particles
    {
      && |particles| == |particleEntities| <= maxParticles
      && (forall i :: 0 <= i < |particles| ==> particleEntities[i] == SlotOf(particles[i]))
      && emissionAccumulator >= 0.0
    }

    constructor (c: Config, mesh: bool)
      ensures Settings() == c && hasMesh == mesh
      ensures particles == [] && particleEntities == [] && emissionAccumulator == 0.0 && enabled
      ensures Valid()
    {
      maxParticles := c.maxParticles;
      emissionRate := c.emissionRate;
      particleLifetime := c.particleLifetime;
      particleSize := c.particleSize;
      particleColor := c.particleColor;
      spawnOffset := c.spawnOffset;
      velocityRange := c.velocityRange;
      particles := [];
      particleEntities := [];
      emissionAccumulator := 0.0;
      enabled := true;
      hasMesh := mesh;
    }

    method SetMesh(mesh: bool)
      modifies this`hasMesh
      ensures hasMesh == mesh
    {
      hasMesh := mesh;
    }

    /** emit(parentTransform, count): with a mesh and a parent, up to `count` new particles,
        stopping at capacity; particle k uses draws 7k .. 7k + 6. */
    method Emit(parent: Option<Vec3>, count: int, rnd: nat -> real)
      requires Valid()
      modifies this`particles, this`particleEntities
      ensures Valid()
      ensures Appended(Settings(), hasMesh, parent, rnd, count, old(particles), particles)
      ensures forall k :: |old(particles)| <= k < |particles| ==> fresh(particles[k])
    {
      if !hasMesh || parent.None? {
        return;
      }
      var i := 0;
      while i < count && |particles| < maxParticles
        invariant 0 <= i && (count > 0 ==> i <= count) && (count <= 0 ==> i == 0)
        invariant |particles| == |old(particles)| + i <= maxParticles
        invariant |particles| == |particleEntities|
        invariant particles[..|old(particles)|] == old(particles)
        invariant forall k :: |old(particles)| <= k < |particles| ==>
                    fresh(particles[k]) && particles[k].Data() == CreateParticle(Settings(), parent.value, rnd, DrawsPerParticle * (k - |old(particles)|))
        invariant forall k :: 0 <= k < |particles| ==> particleEntities[k] == SlotOf(particles[k])
      {
        var p := CreateParticle(Settings(), parent.value, rnd, DrawsPerParticle * i);
        var particle := new Particle(p.position, p.velocity, p.lifetime, p.size, p.color);
        assert particle.Data() == p;
        particles := particles + [particle];
        particleEntities := particleEntities + [SlotOf(particle)];
        i := i + 1;
      }
    }

    /** update(t, dt, parentTransform): while enabled, accumulate dt, emit the whole number
        of particles it yields (drained from the accumulator whether or not they could be
        placed), then sweep the pool from the back: each particle's own update (a no-op as
        called), then a live particle's slot is refreshed and a dead one is spliced out of
        both lists. `emitted` is the pool between the two phases. */
    method Update(t: real, dt: real, parent: Option<Vec3>, rnd: nat -> real) returns (ghost emitted: seq<Particle>)
      requires Valid() && dt >= 0.0
      modifies this`particles, this`particleEntities, this`emissionAccumulator
      ensures Valid()
      ensures !enabled ==> particles == old(particles) && particleEntities == old(particleEntities)
                           && emissionAccumulator == old(emissionAccumulator)
      ensures enabled ==>
                var e := Drain(old(emissionAccumulator) + dt, emissionRate);
                && emissionAccumulator == e.remainder
                && Appended(Settings(), hasMesh, parent, rnd, e.count, old(particles), emitted)
                && Swept(emitted, particles, particleEntities)
    {
      emitted := particles;
      if !enabled {
        return;
      }
      EmitDue(dt, parent, rnd);
      emitted := particles;
      Sweep(t, dt);
      SweptValid(emitted, particles, particleEntities, maxParticles);
    }

    /** The emission half of update: accumulate, emit what is due, drain the accumulator. */
    method EmitDue(dt: real, parent: Option<Vec3>, rnd: nat -> real)
      requires Valid() && dt >= 0.0
      modifies this`particles, this`particleEntities, this`emissionAccumulator
      ensures Valid()
      ensures var e := Drain(old(emissionAccumulator) + dt, emissionRate);
              && emissionAccumulator == e.remainder
              && Appended(Settings(), hasMesh, parent, rnd, e.count, old(particles), particles)
    {
      emissionAccumulator := emissionAccumulator + dt;
      ghost var due := Drain(emissionAccumulator, emissionRate);
      var particlesToEmit := (emissionAccumulator * emissionRate).Floor;
      assert particlesToEmit == due.count;
      if particlesToEmit > 0 {
        EmissionDrains(emissionAccumulator, emissionRate);
        Emit(parent, particlesToEmit, rnd);
        emissionAccumulator := emissionAccumulator - (particlesToEmit as real) / emissionRate;
        assert emissionAccumulator == due.remainder;
      } else {
        AppendedNothing(Settings(), hasMesh, parent, rnd, particlesToEmit, particles);
      }
    }

    /** The reverse sweep of update over the pool as it stands after emission. */
    method Sweep(t: real, dt: real)
      requires particleEntities == SlotsOf(particles)
      modifies this`particles, this`particleEntities
      ensures Swept(old(particles), particles, particleEntities)
    {
      ghost var ps := particles;
      ghost var flags := Flags(particles);
      ghost var slots := SlotsOf(particles);
      var i := |particles| - 1;
      while i >= 0
        invariant -1 <= i < |ps|
        invariant particles == ps[..i + 1] + Keep(ps[i + 1..], flags[i + 1..])
        invariant particleEntities == slots[..i + 1] + Keep(slots[i + 1..], flags[i + 1..])
      {
        SweepStep(ps, flags, particles, i);
        SweepStep(slots, flags, particleEntities, i);
        var particle := particles[i];
        particle.Update(dt);
        if particle.active {
          particleEntities := particleEntities[i := SlotOf(particle)];
        } else {
          particles := particles[..i] + particles[i + 1..];
          particleEntities := particleEntities[..i] + particleEntities[i + 1..];
        }
        i := i - 1;
      }
      assert ps[0..] == ps && slots[0..] == slots && flags[0..] == flags;
      assert Flags(ps) == flags && SlotsOf(ps) == slots;
    }

    method Clear()
      modifies this`particles, this`particleEntities
      ensures particles == [] && particleEntities == []
    {
      particles := [];
      particleEntities := [];
    }

    method SetEnabled(enabled: bool)
      modifies this`enabled
      ensures this.enabled == enabled
    {
      this.enabled := enabled;
    }
  }

  /** What the sweep leaves satisfies the pool's invariant: lockstep lists within capacity,
      slot i showing particle i; and from an all-active pool it removes nothing. */
  lemma SweptValid(emitted: seq<Particle>, ps: seq<Particle>, es: seq<Slot>, max: nat)
    requires |emitted| <= max
    requires Swept(emitted, ps, es)
    ensures |ps| == |es| <= max
    ensures forall i :: 0 <= i < |ps| ==> es[i] == SlotOf(ps[i])
    ensures AllActive(emitted) ==> ps == emitted && AllActive(ps)
  {
    KeepSlots(emitted, Flags(emitted));
    KeepSameLength(emitted, SlotsOf(emitted), Flags(emitted));
    if AllActive(emitted) {
      KeepAll(emitted, Flags(emitted));
    }
  }

  /** As the pool is actually driven, a particle never goes inactive (its own update does
      nothing), so from an all-active pool one update removes nothing: the sweep keeps the
      whole emitted pool, which is all active again. */
  lemma SweepKeepsActivePool(c: Config, mesh: bool, parent: Option<Vec3>, rnd: nat -> real, count: int,
                             before: seq<Particle>, emitted: seq<Particle>, ps: seq<Particle>, es: seq<Slot>)
    requires AllActive(before)
    requires Appended(c, mesh, parent, rnd, count, before, emitted) && Swept(emitted, ps, es)
    ensures ps == emitted && AllActive(ps)
  {
    CreatedAreActive(before, emitted, c, mesh, parent, rnd, count);
    KeepAll(emitted, Flags(emitted));
  }

  /** The particles an emission asks for: `count` when positive, none otherwise. */
  function Due(count: int): (d: nat) {
    if count > 0 then count else 0
  }

  /** The particles a run of emissions asks for, in total. */
  function TotalDue(counts: seq<int>): (total: nat) {
    if counts == [] then 0 else TotalDue(counts[..|counts| - 1]) + Due(counts[|counts| - 1])
  }

  /** The smaller of two counts. */
  function Least(a: nat, b: nat): (m: nat)
    ensures m <= a && m <= b && (m == a || m == b)
  {
    if a <= b then a else b
  }

  /** With a mesh and a parent, one emission that respects the capacity brings the pool to
      min(maxParticles, |before| + due): it stops only at the capacity. */
  lemma EmissionFillsPool(c: Config, parent: Vec3, rnd: nat -> real, count: int,
                          before: seq<Particle>, after: seq<Particle>)
    requires Appended(c, true, Some(parent), rnd, count, before, after) && |after| <= c.maxParticles
    ensures |after| == Least(c.maxParticles, |before| + Due(count))
  {
  }

  /** Update k of a run: with a mesh and the k-th parent, the pool goes from pools[k] to
      pools[k + 1] by the k-th emission, within capacity. */
  ghost predicate EmittedStep(c: Config, parents: seq<Vec3>, draws: seq<nat -> real>, counts: seq<int>,
                              pools: seq<seq<Particle>>, k: nat)
    reads if k + 1 < |pools| then pools[k + 1] else []
  {
    && k < |counts| && k < |parents| && k < |draws| && k + 1 < |pools|
    && Appended(c, true, Some(parents[k]), draws[k], counts[k], pools[k], pools[k + 1])
    && |pools[k + 1]| <= c.maxParticles
  }

  /** As the pool is driven, nothing is ever removed (SweepKeepsActivePool), so a run of
      updates with a mesh and a parent grows the pool from `pools[0]` by every particle
      asked for until it reaches maxParticles, and there it stays. */
  lemma {:induction false} PoolFillsUp(c: Config, parents: seq<Vec3>, draws: seq<nat -> real>, counts: seq<int>,
                                       pools: seq<seq<Particle>>)
    requires |pools| == |counts| + 1 && |parents| == |counts| && |draws| == |counts|
    requires |pools[0]| <= c.maxParticles
    requires forall k :: 0 <= k < |counts| ==> EmittedStep(c, parents, draws, counts, pools, k)
    ensures |pools[|counts|]| == Least(c.maxParticles, |pools[0]| + TotalDue(counts))
  {
    var n := |counts|;
    if n > 0 {
      var ps, ds, cs, ls := parents[..n - 1], draws[..n - 1], counts[..n - 1], pools[..n];
      forall k | 0 <= k < n - 1
        ensures EmittedStep(c, ps, ds, cs, ls, k)
      {
        assert EmittedStep(c, parents, draws, counts, pools, k);
      }
      PoolFillsUp(c, ps, ds, cs, ls);
      assert EmittedStep(c, parents, draws, counts, pools, n - 1);
      EmissionFillsPool(c, parents[n - 1], draws[n - 1], counts[n - 1], pools[n - 1], pools[n]);
    }
  }

  /** Particles emitted into a pool of active particles are active too (a new particle
      starts active). */
  lemma CreatedAreActive(before: seq<Particle>, after: seq<Particle>, c: Config, mesh: bool,
                         parent: Option<Vec3>, rnd: nat -> real, count: int)
    requires Appended(c, mesh, parent, rnd, count, before, after)
    ensures AllActive(before) ==> AllActive(after)
  {
    if AllActive(before) {
      forall i | 0 <= i < |after|
        ensures after[i].active
      {
        if i < |before| {
          assert after[..|before|][i] == before[i];
        }
      }
    }
  }
}
