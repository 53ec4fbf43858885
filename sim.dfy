/** The simulation driver (`Interstellar/InterstellarSim.py`): the list of
    particles, the two helpers that fill it, and one integration step. */
module Simulator {
  import opened Options
  import opened Vectors
  import opened Matter
  import opened Gravity

  /** The window size; `Length` is the depth used for the third axis. */
  const Width: int := 1000
  const Height: int := 800
  const Length: int := 1000

  /** The time step the simulator starts with. */
  const InitialDeltaTime: real := 1e-20

  /** The body `add_particle` creates. With an explicit radius the source
      forwards `vx` and `vy` but not `vz`, so the z velocity starts at 0. */
  function Spawned(cbrt: real -> real, x: real, y: real, z: real, mass: real, radius: Option<real>,
                   vx: real, vy: real, vz: real): (b: Body)
    requires CubeRootLike(cbrt)
    requires radius.Some? || mass >= 0.0
    ensures b.pos == Vec3(x, y, z) && b.mass == mass
    ensures b.vel == Vec3(vx, vy, if radius.Some? then 0.0 else vz)
    ensures radius.None? ==> b.radius >= 1.0
    ensures b.classi == Blackhole <==> mass >= BlackholeMass
  {
    Body(Vec3(x, y, z), Vec3(vx, vy, if radius.Some? then 0.0 else vz), mass,
         if radius.Some? then radius.value else DerivedRadius(cbrt, mass),
         SchwarzschildRadius(mass), Classify(mass))
  }

  /** `random.uniform(a, b)` returns a value between its bounds, in either order. */
  predicate Between(m: real, a: real, b: real) {
    (a <= m <= b) || (b <= m <= a)
  }

  /** `random.randint(r, size - r)` has a value to return. */
  predicate Drawable(r: int, size: int) {
    r <= size - r
  }

  predicate RangesDrawable(xr: int, yr: int, zr: int) {
    Drawable(xr, Width) && Drawable(yr, Height) && Drawable(zr, Length)
  }

  /** A body `init_particles` may create: integer coordinates at least the
      given margin away from the window's borders, a mass between the
      bounds, the common velocity, and the quantities derived from the mass. */
  predicate Scattered(cbrt: real -> real, b: Body, xr: int, yr: int, zr: int, lo: real, hi: real,
                      vx: real, vy: real, vz: real)
    requires CubeRootLike(cbrt)
  {
    && IsIntegral(b.pos.x) && xr as real <= b.pos.x <= (Width - xr) as real
    && IsIntegral(b.pos.y) && yr as real <= b.pos.y <= (Height - yr) as real
    && IsIntegral(b.pos.z) && zr as real <= b.pos.z <= (Length - zr) as real
    && Between(b.mass, lo, hi) && b.mass >= 0.0
    && b == Spawned(cbrt, b.pos.x, b.pos.y, b.pos.z, b.mass, None, vx, vy, vz)
  }

  /** The velocity update of `update_particles`: every body is accelerated by
      its force divided by its mass as it is after the call's resolutions. */
  function Kick(bs: seq<Body>, fs: seq<Vec3>, dt: real): (r: seq<Body>)
    requires |fs| == |bs| && AllPositive(bs)
    ensures |r| == |bs|
  {
    seq(|bs|, k requires 0 <= k < |bs| => bs[k].(vel := Add(bs[k].vel, Scale(dt, Div(fs[k], bs[k].mass)))))
  }

  /** The position update: every body moves along its velocity for `dt`. */
  function Drift(bs: seq<Body>, dt: real): (r: seq<Body>)
    ensures |r| == |bs|
  {
    seq(|bs|, k requires 0 <= k < |bs| => bs[k].(pos := Add(bs[k].pos, Scale(dt, bs[k].vel))))
  }

  /** One call of `update_particles` on the values of the particles. */
  function Step(bs: seq<Body>, dt: real): (r: seq<Body>)
    requires AllPositive(bs)
    ensures |r| == |bs|
  {
    Drift(Kick(Resolution(bs), Forces(bs), dt), dt)
  }

  /** The velocity loop of `update_particles`, in place. */
  method KickAll(ps: seq<Particle>, forces: seq<Vec3>, dt: real)
    requires Distinct(ps) && |forces| == |ps| && AllPositive(Views(ps))
    modifies set p | p in ps
    ensures Views(ps) == Kick(old(Views(ps)), forces, dt)
  {
    ghost var start := Views(ps);
    ghost var goal := Kick(start, forces, dt);
    for i := 0 to |ps|
      invariant forall k :: 0 <= k < i ==> ps[k].View() == goal[k]
      invariant forall k :: i <= k < |ps| ==> ps[k].View() == start[k]
    {
      ps[i].vel := Add(ps[i].vel, Scale(dt, Div(forces[i], ps[i].mass)));
    }
  }

  /** The position loop of `update_particles`: `particle.update(deltaTime)`
      for every particle. */
  method DriftAll(ps: seq<Particle>, dt: real)
    requires Distinct(ps)
    modifies set p | p in ps
    ensures Views(ps) == Drift(old(Views(ps)), dt)
  {
    ghost var start := Views(ps);
    ghost var goal := Drift(start, dt);
    for i := 0 to |ps|
      invariant forall k :: 0 <= k < i ==> ps[k].View() == goal[k]
      invariant forall k :: i <= k < |ps| ==> ps[k].View() == start[k]
    {
      ps[i].Update(dt);
    }
  }

  /** The module-level state of the simulator: the list `particles` and the
      time step `deltaTime`, which the event loop may change between
      updates. */
  class Simulation {
    var particles: seq<Particle>
    var deltaTime: real

    predicate Valid()
      reads this
    {
      Distinct(particles)
    }

    constructor ()
      ensures Valid() && particles == [] && deltaTime == InitialDeltaTime
    {
      particles := [];
      deltaTime := InitialDeltaTime;
    }

    /** `add_particle(x, y, z, mass, radius, vx, vy, vz)`. Without a radius
        and with a negative mass the constructor raises (a complex power
        meets a floor division) and nothing is appended. */
    method AddParticle(x: real, y: real, z: real, mass: real, radius: Option<real>,
                       vx: real, vy: real, vz: real, cbrt: real -> real) returns (ok: bool)
      requires Valid() && CubeRootLike(cbrt)
      modifies this
      ensures Valid() && deltaTime == old(deltaTime)
      ensures ok <==> radius.Some? || mass >= 0.0
      ensures !ok ==> particles == old(particles)
      ensures ok ==> && |particles| == |old(particles)| + 1
                     && particles[..|old(particles)|] == old(particles)
                     && fresh(particles[|old(particles)|])
                     && particles[|old(particles)|].View() == Spawned(cbrt, x, y, z, mass, radius, vx, vy, vz)
    {
      ok := radius.Some? || mass >= 0.0;
      if ok {
        var p := new Particle(x, y, z, mass, radius, vx, vy, if radius.Some? then 0.0 else vz, cbrt);
        particles := particles + [p];
      }
    }

    /** `init_particles(count, xr, yr, zr, [lo, hi], vx, vy, vz)`: `count`
        particles at random integer positions away from the borders, with
        random masses between the bounds. An empty position range makes the
        first draw raise before anything is added; a negative mass drawn
        from the bounds makes the constructor raise after the earlier
        particles were added. */
    method InitParticles(count: nat, xr: int, yr: int, zr: int, lo: real, hi: real,
                         vx: real, vy: real, vz: real, cbrt: real -> real) returns (ok: bool)
      requires Valid() && CubeRootLike(cbrt)
      modifies this
      ensures Valid() && deltaTime == old(deltaTime)
      ensures |old(particles)| <= |particles| <= |old(particles)| + count
      ensures particles[..|old(particles)|] == old(particles)
      ensures ok <==> |particles| == |old(particles)| + count
      ensures count > 0 && !RangesDrawable(xr, yr, zr) ==> !ok && particles == old(particles)
      ensures RangesDrawable(xr, yr, zr) && 0.0 <= lo && 0.0 <= hi ==> ok
      ensures forall k :: |old(particles)| <= k < |particles| ==>
                fresh(particles[k]) && Scattered(cbrt, particles[k].View(), xr, yr, zr, lo, hi, vx, vy, vz)
    {
      ok := true;
      var n := 0;
      while n < count
        invariant 0 <= n <= count
        invariant Valid() && deltaTime == old(deltaTime)
        invariant |particles| == |old(particles)| + n
        invariant particles[..|old(particles)|] == old(particles)
        invariant n > 0 ==> RangesDrawable(xr, yr, zr)
        invariant forall k :: |old(particles)| <= k < |particles| ==>
                    fresh(particles[k]) && Scattered(cbrt, particles[k].View(), xr, yr, zr, lo, hi, vx, vy, vz)
      {
        if !Drawable(xr, Width) || !Drawable(yr, Height) || !Drawable(zr, Length) {
          ok := false;
          return;
        }
        var x: int :| xr <= x <= Width - xr;
        var y: int :| yr <= y <= Height - yr;
        var z: int :| zr <= z <= Length - zr;
        assert Between(lo, lo, hi);
        var mass: real :| Between(mass, lo, hi);
        var added := AddParticle(x as real, y as real, z as real, mass, None, vx, vy, vz, cbrt);
        if !added {
          // The mass drawn was negative, so one of the bounds is.
          assert Between(mass, lo, hi);
          ok := false;
          return;
        }
        n := n + 1;
      }
    }

    /** `update_particles()`: resolves absorptions and collisions and
        computes the forces, then kicks every velocity and drifts every
        position by `deltaTime`. */
    method UpdateParticles()
      requires Valid() && AllPositive(Views(particles))
      modifies set p | p in particles
      ensures particles == old(particles)
      ensures Views(particles) == Step(old(Views(particles)), deltaTime)
    {
      var ps := particles;
      var forces := CalculateGravity(ps);
      KickAll(ps, forces[..], deltaTime);
      DriftAll(ps, deltaTime);
    }
  }
}
