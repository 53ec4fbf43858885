/** One simulated body (`Interstellar/matter.py`): its state, the quantities
    derived from its mass when it is created, and its position update. */
module Matter {
  import opened Options
  import opened Vectors

  /** The gravitational constant and the speed of light, imported by the
      source from a module that is not part of this model. Only their
      positivity is used by the proofs. */
  const G: real := 6.674e-11
  const C: real := 299792458.0

  /** Mass from which a body is labelled a black hole. */
  const BlackholeMass: real := 1e42

  /** Mass-to-size scale and radius divisor of the derived radius. */
  const RadiusMassUnit: real := 1e13
  const RadiusDivisor: real := 50000.0

  /** The two labels the source stores as the strings "Blackhole" and "particle". */
  datatype Class = Blackhole | Ordinary

  /** The value of one particle's physical state at some instant. */
  datatype Body = Body(pos: Vec3, vel: Vec3, mass: real, radius: real, rs: real, classi: Class)

  /** Stand-in for `x ** (2/6)`: any function that is non-negative and
      non-decreasing on the non-negative reals. */
  ghost predicate CubeRootLike(cbrt: real -> real) {
    && (forall x :: 0.0 <= x ==> 0.0 <= cbrt(x))
    && (forall x, y :: 0.0 <= x <= y ==> cbrt(x) <= cbrt(y))
  }

  /** The Schwarzschild radius `2 G m / c^2`. */
  function SchwarzschildRadius(mass: real): (r: real)
    ensures r > 0.0 <==> mass > 0.0
    ensures r == 0.0 <==> mass == 0.0
  {
    2.0 * G * mass / (C * C)
  }

  function Classify(mass: real): (k: Class)
    ensures k == Blackhole <==> mass >= BlackholeMass
  {
    if mass >= BlackholeMass then Blackhole else Ordinary
  }

  /** `((mass / 1e13) ** (2/6)) // 50000 + 1`. */
  function DerivedRadius(cbrt: real -> real, mass: real): (r: real)
    requires CubeRootLike(cbrt)
    requires mass >= 0.0
    ensures r >= 1.0
  {
    var q := cbrt(mass / RadiusMassUnit) / RadiusDivisor;
    assert q >= 0.0;
    q.Floor as real + 1.0
  }

  /** A heavier body never gets a smaller derived radius. */
  lemma DerivedRadiusMonotone(cbrt: real -> real, m1: real, m2: real)
    requires CubeRootLike(cbrt)
    requires 0.0 <= m1 <= m2
    ensures DerivedRadius(cbrt, m1) <= DerivedRadius(cbrt, m2)
  {
    var a := cbrt(m1 / RadiusMassUnit) / RadiusDivisor;
    var b := cbrt(m2 / RadiusMassUnit) / RadiusDivisor;
    assert m1 / RadiusMassUnit <= m2 / RadiusMassUnit;
    assert a <= b;
    FloorMonotone(a, b);
  }

  lemma FloorMonotone(a: real, b: real)
    requires a <= b
    ensures a.Floor <= b.Floor
  {
    assert a.Floor as real <= a;
    assert (b.Floor + 1) as real > b;
  }

  /** The Schwarzschild radius of a merged mass is the sum of the parts'. */
  lemma SchwarzschildAdditive(m1: real, m2: real)
    ensures SchwarzschildRadius(m1 + m2) == SchwarzschildRadius(m1) + SchwarzschildRadius(m2)
  {
  }

  class Particle {
    var pos: Vec3
    var vel: Vec3
    var mass: real
    var radius: real
    var rs: real
    var classi: Class

    /** `Particle(x, y, z, mass, rad, vx, vy, vz)`. Without `rad` the radius
        is derived from the mass, which the source can only do for a
        non-negative mass (a negative one makes the power complex and the
        floor division raise). */
    constructor (x: real, y: real, z: real, mass: real, rad: Option<real>,
                 vx: real, vy: real, vz: real, cbrt: real -> real)
      requires CubeRootLike(cbrt)
      requires rad.Some? || mass >= 0.0
      ensures pos == Vec3(x, y, z) && vel == Vec3(vx, vy, vz) && this.mass == mass
      ensures rs == SchwarzschildRadius(mass)
      ensures classi == Classify(mass)
      ensures radius == if rad.Some? then rad.value else DerivedRadius(cbrt, mass)
    {
      pos := Vec3(x, y, z);
      this.mass := mass;
      vel := Vec3(vx, vy, vz);
      rs := SchwarzschildRadius(mass);
      classi := Classify(mass);
      radius := if rad.Some? then rad.value else DerivedRadius(cbrt, mass);
    }

    function View(): Body
      reads this
    {
      Body(pos, vel, mass, radius, rs, classi)
    }

    /** Moves the particle along its velocity for `dt`. */
    method Update(dt: real)
      modifies this
      ensures pos == Add(old(pos), Scale(dt, vel))
      ensures vel == old(vel) && mass == old(mass) && radius == old(radius)
      ensures rs == old(rs) && classi == old(classi)
    {
      pos := Add(pos, Scale(dt, vel));
    }
  }
}
