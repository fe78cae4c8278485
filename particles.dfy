/** The particle and ripple engine of
    frontend/src/composables/useParticles.js: particles and ripples are
    objects updated in place, kept in growable arrays that emission appends
    to and each tick rebuilds with a filter. Math.random draws, the wall
    clock and frame handles are parameters. */
module Particles {
  import opened Common

  // ---------------------------------------------------------------------
  // Order-keeping filter

  /** The elements of `s` whose flag in `keep` is set, in their order: what
      `array.filter` builds from the per-element verdicts. */
  function Filter<T>(s: seq<T>, keep: seq<bool>): seq<T>
    requires |keep| == |s|
  {
    if |s| == 0 then []
    else Filter(s[..|s| - 1], keep[..|s| - 1]) + (if keep[|s| - 1] then [s[|s| - 1]] else [])
  }

  /** Keeping every element changes nothing; keeping none leaves nothing. */
  lemma {:induction false} FilterAllOrNone<T>(s: seq<T>, keep: seq<bool>)
    requires |keep| == |s|
    ensures (forall k :: 0 <= k < |keep| ==> keep[k]) ==> Filter(s, keep) == s
    ensures (forall k :: 0 <= k < |keep| ==> !keep[k]) ==> Filter(s, keep) == []
  {
    if |s| > 0 {
      var n := |s| - 1;
      FilterAllOrNone(s[..n], keep[..n]);
      assert s[..n] + [s[n]] == s;
    }
  }

  /** Filtering a concatenation filters the parts and concatenates: the
      survivors keep their relative order. */
  lemma {:induction false} FilterAppend<T>(a: seq<T>, ka: seq<bool>, b: seq<T>, kb: seq<bool>)
    requires |ka| == |a| && |kb| == |b|
    ensures Filter(a + b, ka + kb) == Filter(a, ka) + Filter(b, kb)
  {
    if |b| == 0 {
      assert a + b == a && ka + kb == ka;
    } else {
      var n := |b| - 1;
      assert (a + b)[..|a + b| - 1] == a + b[..n];
      assert (ka + kb)[..|ka + kb| - 1] == ka + kb[..n];
      FilterAppend(a, ka, b[..n], kb[..n]);
    }
  }

  /** Filtering one more element appends it exactly when it is kept. */
  lemma FilterSnoc<T>(s: seq<T>, keep: seq<bool>, x: T, b: bool)
    requires |keep| == |s|
    ensures Filter(s + [x], keep + [b]) == Filter(s, keep) + (if b then [x] else [])
  {
    assert (s + [x])[..|s|] == s;
    assert (keep + [b])[..|s|] == keep;
  }

  /** The filter of a one-longer prefix. */
  lemma FilterStep<T>(s: seq<T>, keep: seq<bool>, i: nat)
    requires |keep| == |s| && i < |s|
    ensures Filter(s[..i + 1], keep[..i + 1]) == Filter(s[..i], keep[..i]) + (if keep[i] then [s[i]] else [])
  {
    assert s[..i + 1] == s[..i] + [s[i]] && keep[..i + 1] == keep[..i] + [keep[i]];
    FilterSnoc(s[..i], keep[..i], s[i], keep[i]);
  }

  predicate Distinct<T(==)>(s: seq<T>) {
    forall i, j :: 0 <= i < j < |s| ==> s[i] != s[j]
  }

  /** On distinct elements the filter keeps exactly the flagged ones, and
      nothing else: its result is drawn from `s`, distinct, and no longer. */
  lemma {:induction false} FilterExactly<T>(s: seq<T>, keep: seq<bool>)
    requires |keep| == |s| && Distinct(s)
    ensures forall k :: 0 <= k < |s| ==> (s[k] in Filter(s, keep) <==> keep[k])
    ensures forall y :: y in Filter(s, keep) ==> y in s
    ensures Distinct(Filter(s, keep))
    ensures |Filter(s, keep)| <= |s|
  {
    if |s| > 0 {
      var n := |s| - 1;
      var init := s[..n];
      var rest := Filter(init, keep[..n]);
      assert Distinct(init);
      FilterExactly(init, keep[..n]);
      assert s[n] !in rest;
      forall k | 0 <= k < |s|
        ensures s[k] in Filter(s, keep) <==> keep[k]
      {
        if k < n {
          assert s[k] == init[k] && s[k] != s[n];
        }
      }
    }
  }

  // ---------------------------------------------------------------------
  // Particles

  datatype Kind = Stress | Relief

  /** The Math.random draws the particle constructor takes: lifetime
      jitter, size and hue. */
  datatype ParticleDraws = ParticleDraws(life: real, size: real, hue: real)

  predicate ParticleDrawsInUnit(d: ParticleDraws) {
    InUnit(d.life) && InUnit(d.size) && InUnit(d.hue)
  }

  /** maxLife: the configured lifetime with +-250 ms of jitter. */
  function MaxLifeOf(particleLife: real, r: real): (m: real)
    ensures InUnit(r) ==> particleLife - 250.0 <= m < particleLife + 250.0
  {
    particleLife + r * 500.0 - 250.0
  }

  /** size: a radius in [2, 4). */
  function SizeOf(r: real): (s: real)
    ensures InUnit(r) ==> 2.0 <= s < 4.0
  {
    2.0 + r * 2.0
  }

  /** The hue of the particle's hsl colour: red to orange for stress, blue
      to cyan for relief. */
  function HueOf(kind: Kind, r: real): (h: real)
    ensures InUnit(r) && kind == Stress ==> 0.0 <= h < 30.0
    ensures InUnit(r) && kind == Relief ==> 200.0 <= h < 240.0
  {
    if kind == Stress then 0.0 + r * 30.0 else 200.0 + r * 40.0
  }

  /** Remaining life, 1 at birth and 0 when the age reaches maxLife. */
  function LifeAt(birth: real, maxLife: real, now: real): (life: real)
    requires maxLife != 0.0
    ensures now == birth ==> life == 1.0
    ensures now - birth == maxLife ==> life == 0.0
  {
    1.0 - (now - birth) / maxLife
  }

  /** A particle is alive exactly while its age is below its lifetime; from
      birth on its life never exceeds 1, and it is 1 at birth. */
  lemma LifeWindow(birth: real, maxLife: real, now: real)
    requires maxLife > 0.0
    ensures LifeAt(birth, maxLife, now) > 0.0 <==> now - birth < maxLife
    ensures now >= birth ==> LifeAt(birth, maxLife, now) <= 1.0
    ensures LifeAt(birth, maxLife, birth) == 1.0
  {
    var q := (now - birth) / maxLife;
    assert (1.0 - q) * maxLife == maxLife - (now - birth);
    assert q * maxLife == now - birth;
    SignOfProduct(1.0 - q, maxLife);
    SignOfProduct(q, maxLife);
  }

  /** Multiplying by a positive number keeps the sign. */
  lemma SignOfProduct(a: real, m: real)
    requires m > 0.0
    ensures a > 0.0 <==> a * m > 0.0
    ensures a >= 0.0 <==> a * m >= 0.0
  {
  }

  /** One position component after moving for dt at velocity v. */
  function Moved(x: real, v: real, dt: real): real {
    x + v * dt
  }

  /** One velocity component after a tick: a turbulence kick within 0.01
      either way, then 1 % damping. */
  function Turbulent(v: real, r: real): (w: real)
    ensures InUnit(r) ==> -0.0099 <= w - 0.99 * v < 0.0099
  {
    (v + (r - 0.5) * 0.02) * 0.99
  }

  /** The Particle class: position and velocity change every tick, the
      rest is fixed at birth. */
  class Particle {
    var x: real
    var y: real
    var vx: real
    var vy: real
    var life: real
    const kind: Kind
    const maxLife: real
    const birth: real
    const size: real
    const hue: real

    constructor (x0: real, y0: real, vx0: real, vy0: real, kind0: Kind, now: real,
                 d: ParticleDraws, particleLife: real)
      ensures x == x0 && y == y0 && vx == vx0 && vy == vy0 && life == 1.0
      ensures kind == kind0 && birth == now
      ensures maxLife == MaxLifeOf(particleLife, d.life)
      ensures size == SizeOf(d.size) && hue == HueOf(kind0, d.hue)
    {
      x, y, vx, vy, life := x0, y0, vx0, vy0, 1.0;
      kind := kind0;
      maxLife := MaxLifeOf(particleLife, d.life);
      birth := now;
      size := SizeOf(d.size);
      hue := HueOf(kind0, d.hue);
    }

    /** Whether the particle survives a tick at wall-clock time `now`. */
    predicate Alive(now: real)
      requires maxLife != 0.0
    {
      LifeAt(birth, maxLife, now) > 0.0
    }

    /** update: recompute life from the age; a dead particle stops there,
        a live one moves by its velocity and then gets turbulence and
        damping from the draws rx, ry. */
    method Update(dt: real, now: real, rx: real, ry: real) returns (alive: bool)
      requires maxLife != 0.0
      modifies this`x, this`y, this`vx, this`vy, this`life
      ensures life == LifeAt(birth, maxLife, now) && alive == Alive(now)
      ensures !alive ==> x == old(x) && y == old(y) && vx == old(vx) && vy == old(vy)
      ensures alive ==> && x == Moved(old(x), old(vx), dt) && y == Moved(old(y), old(vy), dt)
                        && vx == Turbulent(old(vx), rx) && vy == Turbulent(old(vy), ry)
    {
      life := 1.0 - (now - birth) / maxLife;
      if life <= 0.0 {
        return false;
      }
      x := x + vx * dt;
      y := y + vy * dt;
      vx := vx + (rx - 0.5) * 0.02;
      vy := vy + (ry - 0.5) * 0.02;
      vx := vx * 0.99;
      vy := vy * 0.99;
      return true;
    }
  }

  /** The alive verdicts of a tick, one per particle. */
  function AliveMask(ps: seq<Particle>, now: real): (m: seq<bool>)
    requires forall k :: 0 <= k < |ps| ==> ps[k].maxLife != 0.0
    ensures |m| == |ps|
    ensures forall k :: 0 <= k < |ps| ==> (m[k] <==> ps[k].Alive(now))
  {
    seq(|ps|, k requires 0 <= k < |ps| => ps[k].Alive(now))
  }

  /** What one tick does to particle p, relative to the state before the
      tick: the life is recomputed, and a live particle moves by its old
      velocity, which then gets turbulence and damping. */
  twostate predicate Aged(p: Particle, dt: real, now: real, j: Jitter)
    requires p.maxLife != 0.0
    reads p
  {
    && p.life == LifeAt(p.birth, p.maxLife, now)
    && (p.Alive(now) ==>
          && p.x == Moved(old(p.x), old(p.vx), dt) && p.y == Moved(old(p.y), old(p.vy), dt)
          && p.vx == Turbulent(old(p.vx), j.x) && p.vy == Turbulent(old(p.vy), j.y))
    && (!p.Alive(now) ==>
          p.x == old(p.x) && p.y == old(p.y) && p.vx == old(p.vx) && p.vy == old(p.vy))
  }

  /** The loop of update: each particle ages in place and the survivors are
      collected in order. */
  method AgeAll(ps: seq<Particle>, dt: real, now: real, jitter: seq<Jitter>) returns (kept: seq<Particle>)
    requires Distinct(ps) && |jitter| >= |ps|
    requires forall k :: 0 <= k < |ps| ==> ps[k].maxLife > 0.0
    modifies ps
    ensures kept == Filter(ps, AliveMask(ps, now))
    ensures forall k :: 0 <= k < |ps| ==> Aged(ps[k], dt, now, jitter[k])
  {
    ghost var mask := AliveMask(ps, now);
    kept := [];
    var i := 0;
    while i < |ps|
      invariant 0 <= i <= |ps|
      invariant kept == Filter(ps[..i], mask[..i])
      invariant forall k :: 0 <= k < i ==> Aged(ps[k], dt, now, jitter[k])
      invariant forall k :: i <= k < |ps| ==> unchanged(ps[k])
    {
      var p := ps[i];
      var alive := p.Update(dt, now, jitter[i].x, jitter[i].y);
      FilterStep(ps, mask, i);
      if alive {
        kept := kept + [p];
      }
      i := i + 1;
    }
    assert ps[..i] == ps && mask[..i] == mask;
  }

  /** The draws emitStressParticles takes per particle: the position
      along the line, the velocity spread on each axis, then the
      constructor's. */
  datatype StressDraw = StressDraw(t: real, spreadX: real, spreadY: real, p: ParticleDraws)

  /** The draws emitReliefParticles takes per particle: the position in
      the area, the heading, then the constructor's. */
  datatype ReliefDraw = ReliefDraw(x: real, y: real, heading: real, p: ParticleDraws)

  predicate StressDrawInUnit(d: StressDraw) {
    InUnit(d.t) && InUnit(d.spreadX) && InUnit(d.spreadY) && ParticleDrawsInUnit(d.p)
  }

  predicate ReliefDrawInUnit(d: ReliefDraw) {
    InUnit(d.x) && InUnit(d.y) && InUnit(d.heading) && ParticleDrawsInUnit(d.p)
  }

  /** The per-tick draws of Particle.update, indexed by the particle's
      position in the array. */
  datatype Jitter = Jitter(x: real, y: real)

  /** How many times `for (i = 0; i < emitRate; i++)` runs. */
  function StressCount(emitRate: int): nat {
    if emitRate <= 0 then 0 else emitRate
  }

  /** How many times `for (i = 0; i < emitRate / 2; i++)` runs: the least
      natural number not below emitRate / 2, that is ceil(emitRate / 2). */
  function ReliefCount(emitRate: int): (n: nat)
    ensures (n as real) >= (emitRate as real) / 2.0
    ensures n == 0 || ((n - 1) as real) < (emitRate as real) / 2.0
  {
    if emitRate <= 0 then 0 else (emitRate + 1) / 2
  }

  /** The array length after an emission that adds `k` particles: the cap
      is tested once, before the loop. */
  function EmittedCount(n: int, maxParticles: int, k: nat): int {
    if n >= maxParticles then n else n + k
  }

  /** The most particles the array can ever hold: the cap plus one batch
      minus one, since the cap is only tested before a batch. */
  function CapacityBound(maxParticles: int, emitRate: int): (b: int)
    ensures b >= 0
  {
    (if maxParticles > 0 then maxParticles else 0) + (if emitRate > 1 then emitRate else 1) - 1
  }

  /** Emission of either kind keeps the count within CapacityBound. */
  lemma EmissionWithinBound(n: int, maxParticles: int, emitRate: int)
    requires 0 <= n <= CapacityBound(maxParticles, emitRate)
    ensures EmittedCount(n, maxParticles, StressCount(emitRate)) <= CapacityBound(maxParticles, emitRate)
    ensures EmittedCount(n, maxParticles, ReliefCount(emitRate)) <= CapacityBound(maxParticles, emitRate)
  {
    assert ReliefCount(emitRate) <= StressCount(emitRate);
  }

  /** The bound is reached: one below the cap, a stress batch overshoots it
      by emitRate - 1 (201 particles with the defaults 200 and 2). */
  lemma CapacityOvershoot(maxParticles: int, emitRate: int)
    requires maxParticles >= 1 && emitRate >= 1
    ensures EmittedCount(maxParticles - 1, maxParticles, StressCount(emitRate))
            == CapacityBound(maxParticles, emitRate) == maxParticles + emitRate - 1
    ensures EmittedCount(199, 200, StressCount(2)) == 201
  {
  }

  /** The configuration; a missing entry takes the default. */
  datatype ParticleOptions = ParticleOptions(maxParticles: Option<int>, particleLife: Option<real>,
                                             emitRate: Option<int>)

  function OrInt(x: Option<int>, default: int): int {
    if x.Some? then x.value else default
  }

  function OrReal(x: Option<real>, default: real): real {
    if x.Some? then x.value else default
  }

  /** useParticles: the particle array, its animation handle, and the
      last frame time of the animation loop. */
  class ParticleSystem {
    const maxParticles: int
    const particleLife: real
    const emitRate: int
    var particles: seq<Particle>
    var animationId: Option<FrameId>
    var loopLastTime: real

    /** Every particle a distinct object with a positive lifetime, and no
        more of them than CapacityBound. */
    predicate Valid()
      reads this`particles
    {
      && particleLife > 250.0
      && Distinct(particles)
      && (forall k :: 0 <= k < |particles| ==> particles[k].maxLife > 0.0)
      && |particles| <= CapacityBound(maxParticles, emitRate)
    }

    constructor (opts: ParticleOptions)
      requires OrReal(opts.particleLife, 2000.0) > 250.0
      ensures maxParticles == OrInt(opts.maxParticles, 200)
      ensures particleLife == OrReal(opts.particleLife, 2000.0)
      ensures emitRate == OrInt(opts.emitRate, 2)
      ensures particles == [] && animationId == None
      ensures Valid()
    {
      maxParticles := OrInt(opts.maxParticles, 200);
      particleLife := OrReal(opts.particleLife, 2000.0);
      emitRate := OrInt(opts.emitRate, 2);
      particles := [];
      animationId := None;
      loopLastTime := 0.0;
    }

    /** count: the array length. */
    function Count(): nat
      reads this
    {
      |particles|
    }

    /** A particle as emitStressParticles creates it from draw `d`. */
    predicate IsStressParticle(p: Particle, a: Point, b: Point, direction: Point, speed: real,
                               now: real, d: StressDraw)
      reads p
    {
      && p.kind == Stress && p.life == 1.0 && p.birth == now
      && p.x == Lerp(a.x, b.x, d.t) && p.y == Lerp(a.y, b.y, d.t)
      && p.vx == direction.x * speed + (d.spreadX - 0.5) * 0.3
      && p.vy == direction.y * speed + (d.spreadY - 0.5) * 0.3
      && p.maxLife == MaxLifeOf(particleLife, d.p.life)
      && p.size == SizeOf(d.p.size) && p.hue == HueOf(Stress, d.p.hue)
    }

    /** A particle as emitReliefParticles creates it from draw `d`. */
    predicate IsReliefParticle(p: Particle, area: Bounds, speed: real, now: real, d: ReliefDraw,
                               trig: Trig)
      reads p
    {
      var heading := d.heading * trig.pi * 2.0;
      && p.kind == Relief && p.life == 1.0 && p.birth == now
      && p.x == area.minX + d.x * (area.maxX - area.minX)
      && p.y == area.minY + d.y * (area.maxY - area.minY)
      && p.vx == trig.cos(heading) * speed && p.vy == trig.sin(heading) * speed
      && p.maxLife == MaxLifeOf(particleLife, d.p.life)
      && p.size == SizeOf(d.p.size) && p.hue == HueOf(Relief, d.p.hue)
    }

    /** One particle of emitStressParticles: at fraction t of the segment
        a -> b, moving along `direction` at `speed` with some spread. */
    method NewStress(a: Point, b: Point, direction: Point, speed: real, now: real, d: StressDraw)
      returns (p: Particle)
      requires particleLife > 250.0 && StressDrawInUnit(d)
      ensures fresh(p) && IsStressParticle(p, a, b, direction, speed, now, d) && p.maxLife > 0.0
      ensures Between(p.x, a.x, b.x) && Between(p.y, a.y, b.y)
    {
      var x := a.x + (b.x - a.x) * d.t;
      var y := a.y + (b.y - a.y) * d.t;
      LerpBetween(a.x, b.x, d.t);
      LerpBetween(a.y, b.y, d.t);
      var spread := 0.3;
      var vx := direction.x * speed + (d.spreadX - 0.5) * spread;
      var vy := direction.y * speed + (d.spreadY - 0.5) * spread;
      p := new Particle(x, y, vx, vy, Stress, now, d.p, particleLife);
    }

    /** One particle of emitReliefParticles: at a drawn point of the area,
        moving at `speed` in a drawn heading. */
    method NewRelief(area: Bounds, speed: real, now: real, d: ReliefDraw, trig: Trig) returns (p: Particle)
      requires particleLife > 250.0 && ReliefDrawInUnit(d)
      ensures fresh(p) && IsReliefParticle(p, area, speed, now, d, trig) && p.maxLife > 0.0
      ensures Between(p.x, area.minX, area.maxX) && Between(p.y, area.minY, area.maxY)
    {
      var x := area.minX + d.x * (area.maxX - area.minX);
      var y := area.minY + d.y * (area.maxY - area.minY);
      LerpBetween(area.minX, area.maxX, d.x);
      LerpBetween(area.minY, area.maxY, d.y);
      var heading := d.heading * trig.pi * 2.0;
      var vx := trig.cos(heading) * speed;
      var vy := trig.sin(heading) * speed;
      p := new Particle(x, y, vx, vy, Relief, now, d.p, particleLife);
    }

    /** emitStressParticles: nothing at or above the cap; otherwise emitRate
        new stress particles are appended after the existing ones, each at
        a point of the segment line[0] -> line[1]. */
    method EmitStress(line: seq<Point>, direction: Point, speed: real, now: real, draws: seq<StressDraw>)
      requires Valid()
      requires |line| >= 2 && |draws| >= StressCount(emitRate)
      requires forall k :: 0 <= k < |draws| ==> StressDrawInUnit(draws[k])
      modifies this`particles
      ensures Valid()
      ensures old(|particles|) >= maxParticles ==> particles == old(particles)
      ensures old(|particles|) < maxParticles ==>
                && |particles| == old(|particles|) + StressCount(emitRate)
                && particles[..old(|particles|)] == old(particles)
                && forall k :: old(|particles|) <= k < |particles| ==>
                     && fresh(particles[k])
                     && IsStressParticle(particles[k], line[0], line[1], direction, speed, now,
                                         draws[k - old(|particles|)])
                     && Between(particles[k].x, line[0].x, line[1].x)
                     && Between(particles[k].y, line[0].y, line[1].y)
    {
      if |particles| >= maxParticles {
        return;
      }
      var n := |particles|;
      EmissionWithinBound(n, maxParticles, emitRate);
      var i := 0;
      while i < emitRate
        invariant 0 <= i <= StressCount(emitRate)
        invariant |particles| == n + i && particles[..n] == old(particles)
        invariant forall k :: n <= k < n + i ==>
                    && fresh(particles[k])
                    && IsStressParticle(particles[k], line[0], line[1], direction, speed, now, draws[k - n])
                    && Between(particles[k].x, line[0].x, line[1].x)
                    && Between(particles[k].y, line[0].y, line[1].y)
        invariant Distinct(particles)
        invariant forall k :: 0 <= k < |particles| ==> particles[k].maxLife > 0.0
      {
        var p := NewStress(line[0], line[1], direction, speed, now, draws[i]);
        particles := particles + [p];
        i := i + 1;
      }
    }

    /** emitReliefParticles: the same guard; otherwise ceil(emitRate / 2)
        relief particles are appended, each inside the area and heading in
        the drawn direction at `speed`. */
    method EmitRelief(area: Bounds, speed: real, now: real, draws: seq<ReliefDraw>, trig: Trig)
      requires Valid()
      requires |draws| >= ReliefCount(emitRate)
      requires forall k :: 0 <= k < |draws| ==> ReliefDrawInUnit(draws[k])
      modifies this`particles
      ensures Valid()
      ensures old(|particles|) >= maxParticles ==> particles == old(particles)
      ensures old(|particles|) < maxParticles ==>
                && |particles| == old(|particles|) + ReliefCount(emitRate)
                && particles[..old(|particles|)] == old(particles)
                && forall k :: old(|particles|) <= k < |particles| ==>
                     && fresh(particles[k])
                     && IsReliefParticle(particles[k], area, speed, now, draws[k - old(|particles|)], trig)
                     && Between(particles[k].x, area.minX, area.maxX)
                     && Between(particles[k].y, area.minY, area.maxY)
    {
      if |particles| >= maxParticles {
        return;
      }
      var n := |particles|;
      EmissionWithinBound(n, maxParticles, emitRate);
      var i := 0;
      while (i as real) < (emitRate as real) / 2.0
        invariant 0 <= i <= ReliefCount(emitRate)
        invariant |particles| == n + i && particles[..n] == old(particles)
        invariant forall k :: n <= k < n + i ==>
                    && fresh(particles[k])
                    && IsReliefParticle(particles[k], area, speed, now, draws[k - n], trig)
                    && Between(particles[k].x, area.minX, area.maxX)
                    && Between(particles[k].y, area.minY, area.maxY)
        invariant Distinct(particles)
        invariant forall k :: 0 <= k < |particles| ==> particles[k].maxLife > 0.0
      {
        var p := NewRelief(area, speed, now, draws[i], trig);
        particles := particles + [p];
        i := i + 1;
      }
    }

    /** update: every particle ages and moves in place; the array becomes
        the survivors in their original order, each with life in (0, 1]
        when born no later than `now`. */
    method Update(dt: real, now: real, jitter: seq<Jitter>)
      requires Valid() && |jitter| >= |particles|
      modifies this`particles, particles
      ensures Valid()
      ensures particles == Filter(old(particles), AliveMask(old(particles), now))
      ensures forall k :: 0 <= k < |old(particles)| ==> Aged(old(particles)[k], dt, now, jitter[k])
      ensures forall k :: 0 <= k < |particles| ==>
                0.0 < particles[k].life && (now >= particles[k].birth ==> particles[k].life <= 1.0)
    {
      var ps := particles;
      var kept := AgeAll(ps, dt, now, jitter);
      FilterExactly(ps, AliveMask(ps, now));
      particles := kept;
      forall k | 0 <= k < |kept|
        ensures kept[k].maxLife > 0.0
        ensures 0.0 < kept[k].life && (now >= kept[k].birth ==> kept[k].life <= 1.0)
      {
        assert kept[k] in kept;
        var j :| 0 <= j < |ps| && ps[j] == kept[k];
        LifeWindow(ps[j].birth, ps[j].maxLife, now);
      }
    }

    /** clear: the array becomes empty. */
    method Clear()
      requires Valid()
      modifies this`particles
      ensures particles == [] && Count() == 0
      ensures Valid()
    {
      particles := [];
    }

    /** startAnimation: a pending frame is cancelled and the loop's first
        frame is requested at host time `start`. */
    method StartAnimation(start: real, frame: FrameId)
      modifies this`animationId, this`loopLastTime
      ensures animationId == Some(frame) && loopLastTime == start
    {
      if animationId.Some? {
        animationId := None;
      }
      loopLastTime := start;
      animationId := Some(frame);
    }

    /** One frame of the animation loop at host time `now` (wall-clock time
        `wallNow`): update with the seconds elapsed since the previous
        frame, remember the time, and request the next frame. The render
        callback is not modelled. Taking the time before or after the update
        is the same, as the update does not read it. */
    method AnimationFrame(now: real, wallNow: real, jitter: seq<Jitter>, frame: FrameId)
      requires Valid() && |jitter| >= |particles|
      modifies this`particles, particles, this`animationId, this`loopLastTime
      ensures Valid()
      ensures particles == Filter(old(particles), AliveMask(old(particles), wallNow))
      ensures forall k :: 0 <= k < |old(particles)| ==>
                Aged(old(particles)[k], (now - old(loopLastTime)) / 1000.0, wallNow, jitter[k])
      ensures loopLastTime == now && animationId == Some(frame)
    {
      var dt := (now - loopLastTime) / 1000.0;
      Update(dt, wallNow, jitter);
      loopLastTime := now;
      animationId := Some(frame);
    }

    /** stopAnimation: the pending frame, if any, is cancelled; stopping
        twice is stopping once. */
    method StopAnimation()
      modifies this`animationId
      ensures animationId == None
    {
      if animationId.Some? {
        animationId := None;
      }
    }
  }

  // ---------------------------------------------------------------------
  // Ripples

  /** The Math.random draws of the ripple constructor. */
  datatype RippleDraws = RippleDraws(maxRadius: real, speed: real, width: real)

  predicate RippleDrawsInUnit(d: RippleDraws) {
    InUnit(d.maxRadius) && InUnit(d.speed) && InUnit(d.width)
  }

  /** maxRadius: between 100 and 150 pixels. */
  function MaxRadiusOf(r: real): (m: real)
    ensures InUnit(r) ==> 100.0 <= m < 150.0
  {
    100.0 + r * 50.0
  }

  /** The radius a ring reaches after dt seconds at `speed` pixels per second. */
  function Grown(radius: real, speed: real, dt: real): real {
    radius + speed * dt
  }

  /** A ring's remaining life: 1 at radius 0, 0 at its maximum radius. */
  function RingLife(radius: real, maxRadius: real): real
    requires maxRadius != 0.0
  {
    1.0 - radius / maxRadius
  }

  /** A ripple is alive, 1 - radius / maxRadius > 0, exactly while its
      radius is below its maximum. */
  lemma RippleLifeWindow(radius: real, maxRadius: real)
    requires maxRadius > 0.0
    ensures RingLife(radius, maxRadius) > 0.0 <==> radius < maxRadius
  {
    var q := radius / maxRadius;
    assert (1.0 - q) * maxRadius == maxRadius - radius;
    SignOfProduct(1.0 - q, maxRadius);
  }

  class Ripple {
    const x: real
    const y: real
    var radius: real
    const maxRadius: real
    var life: real
    const speed: real
    const width: real

    constructor (x0: real, y0: real, d: RippleDraws, rippleSpeed: real)
      ensures IsNewRipple(this, x0, y0, d, rippleSpeed)
    {
      x, y, radius := x0, y0, 0.0;
      maxRadius := MaxRadiusOf(d.maxRadius);
      life := 1.0;
      speed := rippleSpeed + d.speed * 20.0;
      width := 2.0 + d.width * 2.0;
    }

    /** update: the ring grows by speed * dt; it lives on while its radius
        is below maxRadius. */
    method Update(dt: real) returns (alive: bool)
      requires maxRadius > 0.0
      modifies this`radius, this`life
      ensures radius == Grown(old(radius), speed, dt)
      ensures life == RingLife(radius, maxRadius)
      ensures alive == (life > 0.0) && (alive <==> radius < maxRadius)
    {
      radius := radius + speed * dt;
      life := 1.0 - radius / maxRadius;
      RippleLifeWindow(radius, maxRadius);
      return life > 0.0;
    }
  }

  /** A ripple as the constructor leaves it: centred on (x, y) with radius
      0 and full life, and its maximum radius, speed and ring width from the
      draws. */
  predicate IsNewRipple(r: Ripple, x: real, y: real, d: RippleDraws, rippleSpeed: real)
    reads r
  {
    && r.x == x && r.y == y && r.radius == 0.0 && r.life == 1.0
    && r.maxRadius == MaxRadiusOf(d.maxRadius)
    && r.speed == rippleSpeed + d.speed * 20.0 && r.width == 2.0 + d.width * 2.0
  }

  /** Whether each ripple's grown radius stays below its maximum. */
  function RippleMask(rs: seq<Ripple>, dt: real): (m: seq<bool>)
    reads set k | 0 <= k < |rs| :: rs[k]
    ensures |m| == |rs|
    ensures forall k :: 0 <= k < |rs| ==> (m[k] <==> Grown(rs[k].radius, rs[k].speed, dt) < rs[k].maxRadius)
  {
    seq(|rs|, k requires 0 <= k < |rs| reads rs => Grown(rs[k].radius, rs[k].speed, dt) < rs[k].maxRadius)
  }

  /** What one tick does to ripple r, relative to the state before it: the
      radius grows by speed * dt and the life follows the radius. */
  twostate predicate Grew(r: Ripple, dt: real)
    requires r.maxRadius != 0.0
    reads r
  {
    r.radius == Grown(old(r.radius), r.speed, dt) && r.life == RingLife(r.radius, r.maxRadius)
  }

  /** The loop of the ripples' update: each ripple grows in place and those
      still inside their maximum radius are collected in order. */
  method GrowAll(rs: seq<Ripple>, dt: real) returns (kept: seq<Ripple>)
    requires Distinct(rs)
    requires forall k :: 0 <= k < |rs| ==> rs[k].maxRadius > 0.0
    modifies rs
    ensures kept == Filter(rs, old(RippleMask(rs, dt)))
    ensures forall k :: 0 <= k < |rs| ==> Grew(rs[k], dt)
  {
    ghost var mask := RippleMask(rs, dt);
    kept := [];
    var i := 0;
    while i < |rs|
      invariant 0 <= i <= |rs|
      invariant kept == Filter(rs[..i], mask[..i])
      invariant forall k :: 0 <= k < i ==> Grew(rs[k], dt)
      invariant forall k :: i <= k < |rs| ==> unchanged(rs[k])
    {
      var r := rs[i];
      var alive := r.Update(dt);
      assert alive == mask[i];
      FilterStep(rs, mask, i);
      if alive {
        kept := kept + [r];
      }
      i := i + 1;
    }
    assert rs[..i] == rs && mask[..i] == mask;
  }

  datatype RippleOptions = RippleOptions(maxRipples: Option<int>, rippleSpeed: Option<real>,
                                         rippleInterval: Option<real>)

  /** useRipples: the ripple array and the time of the last emission. */
  class RippleSystem {
    const maxRipples: int
    const rippleSpeed: real
    const rippleInterval: real
    var ripples: seq<Ripple>
    var lastRippleTime: real

    /** Distinct ripples with positive maximum radii, never more than
        maxRipples of them. */
    predicate Valid()
      reads this`ripples
    {
      && Distinct(ripples)
      && (forall k :: 0 <= k < |ripples| ==> ripples[k].maxRadius > 0.0)
      && |ripples| <= (if maxRipples > 0 then maxRipples else 0)
    }

    constructor (opts: RippleOptions)
      ensures maxRipples == OrInt(opts.maxRipples, 10)
      ensures rippleSpeed == OrReal(opts.rippleSpeed, 50.0)
      ensures rippleInterval == OrReal(opts.rippleInterval, 800.0)
      ensures ripples == [] && lastRippleTime == 0.0
      ensures Valid()
    {
      maxRipples := OrInt(opts.maxRipples, 10);
      rippleSpeed := OrReal(opts.rippleSpeed, 50.0);
      rippleInterval := OrReal(opts.rippleInterval, 800.0);
      ripples := [];
      lastRippleTime := 0.0;
    }

    /** emit: nothing sooner than rippleInterval after the last ripple, nor
        at the cap; otherwise one new ripple of radius 0 is appended and
        the time is remembered. */
    method Emit(x: real, y: real, now: real, d: RippleDraws)
      requires Valid() && RippleDrawsInUnit(d)
      modifies this`ripples, this`lastRippleTime
      ensures Valid()
      ensures now - old(lastRippleTime) < rippleInterval || old(|ripples|) >= maxRipples ==>
                ripples == old(ripples) && lastRippleTime == old(lastRippleTime)
      ensures !(now - old(lastRippleTime) < rippleInterval || old(|ripples|) >= maxRipples) ==>
                && |ripples| == old(|ripples|) + 1 && ripples[..old(|ripples|)] == old(ripples)
                && fresh(ripples[old(|ripples|)])
                && IsNewRipple(ripples[old(|ripples|)], x, y, d, rippleSpeed)
                && 100.0 <= ripples[old(|ripples|)].maxRadius < 150.0
                && lastRippleTime == now
    {
      if now - lastRippleTime < rippleInterval {
        return;
      }
      if |ripples| >= maxRipples {
        return;
      }
      var r := new Ripple(x, y, d, rippleSpeed);
      ripples := ripples + [r];
      lastRippleTime := now;
    }

    /** update: every ripple grows in place; the array becomes those still
        inside their maximum radius, in their original order. */
    method Update(dt: real)
      requires Valid()
      modifies this`ripples, ripples
      ensures Valid()
      ensures ripples == Filter(old(ripples), old(RippleMask(ripples, dt)))
      ensures forall k :: 0 <= k < |old(ripples)| ==> Grew(old(ripples)[k], dt)
    {
      var rs := ripples;
      ghost var mask := RippleMask(rs, dt);
      var kept := GrowAll(rs, dt);
      FilterExactly(rs, mask);
      forall k | 0 <= k < |kept|
        ensures kept[k].maxRadius > 0.0
      {
        assert kept[k] in kept;
      }
      ripples := kept;
    }

    /** clear: the array becomes empty. */
    method Clear()
      modifies this`ripples
      ensures ripples == [] && Valid()
    {
      ripples := [];
    }
  }
}
