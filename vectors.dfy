/** Three-component real vectors: the numpy arrays of length 3 that hold
    positions, velocities and forces, with the element-wise operations the
    simulator applies to them. */
module Vectors {

  datatype Vec3 = Vec3(x: real, y: real, z: real)

  const Zero: Vec3 := Vec3(0.0, 0.0, 0.0)

  function Add(a: Vec3, b: Vec3): Vec3 {
    Vec3(a.x + b.x, a.y + b.y, a.z + b.z)
  }

  function Sub(a: Vec3, b: Vec3): Vec3 {
    Vec3(a.x - b.x, a.y - b.y, a.z - b.z)
  }

  function Neg(a: Vec3): Vec3 {
    Vec3(-a.x, -a.y, -a.z)
  }

  /** A scalar times a vector (numpy broadcasting `s * v`). */
  function Scale(s: real, a: Vec3): Vec3 {
    Vec3(s * a.x, s * a.y, s * a.z)
  }

  /** A vector divided by a scalar (numpy `v / s`). */
  function Div(a: Vec3, s: real): Vec3
    requires s != 0.0
  {
    Vec3(a.x / s, a.y / s, a.z / s)
  }

  /** Squared Euclidean length: numpy `np.sum(v**2)`. */
  function Norm2(a: Vec3): (r: real)
    ensures r >= 0.0
    ensures a == Zero ==> r == 0.0
  {
    SquareFacts(a.x);
    SquareFacts(a.y);
    SquareFacts(a.z);
    a.x * a.x + a.y * a.y + a.z * a.z
  }

  lemma SquareFacts(r: real)
    ensures r * r >= 0.0
  {
    if r < 0.0 {
      var s := -r;
      assert r * r == s * s;
    }
  }

  predicate IsIntegral(r: real) {
    r == r.Floor as real
  }

  /** numpy floor division of a float vector by a float scalar: every
      component is the greatest integer not above the exact quotient. */
  function FloorDiv(a: Vec3, s: real): (r: Vec3)
    requires s != 0.0
    ensures IsIntegral(r.x) && r.x <= a.x / s < r.x + 1.0
    ensures IsIntegral(r.y) && r.y <= a.y / s < r.y + 1.0
    ensures IsIntegral(r.z) && r.z <= a.z / s < r.z + 1.0
  {
    Vec3((a.x / s).Floor as real, (a.y / s).Floor as real, (a.z / s).Floor as real)
  }

  lemma Norm2Symmetric(a: Vec3, b: Vec3)
    ensures Norm2(Sub(a, b)) == Norm2(Sub(b, a))
  {
    var d := Sub(a, b);
    assert Sub(b, a) == Neg(d);
    assert (-d.x) * (-d.x) == d.x * d.x;
    assert (-d.y) * (-d.y) == d.y * d.y;
    assert (-d.z) * (-d.z) == d.z * d.z;
  }
}
