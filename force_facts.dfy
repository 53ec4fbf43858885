/** What the forces returned by `calculate_gravity` satisfy: every pair's
    pulls are equal and opposite, so the forces of one call add up to zero,
    and they depend on the positions and masses of the snapshot alone. */
module ForceFacts {
  import opened Vectors
  import opened Matter
  import opened Gravity

  /** Newton's third law for one pair: the pull of `j` on `i` is the
      opposite of the pull of `i` on `j`. */
  lemma PullOpposite(snap: seq<Body>, i: nat, j: nat)
    requires i < |snap| && j < |snap|
    ensures Pull(snap, i, j) == Neg(Pull(snap, j, i))
  {
    var d := Sub(snap[j].pos, snap[i].pos);
    assert Sub(snap[i].pos, snap[j].pos) == Neg(d);
    Norm2Symmetric(snap[j].pos, snap[i].pos);
    CoefficientSymmetric(snap[i].mass, snap[j].mass, Norm2(d));
    ScaleNeg(Coefficient(snap[i].mass, snap[j].mass, Norm2(d)), d);
  }

  lemma CoefficientSymmetric(mi: real, mj: real, dsq: real)
    ensures Coefficient(mi, mj, dsq) == Coefficient(mj, mi, dsq)
  {
  }

  lemma ScaleNeg(c: real, d: Vec3)
    ensures Scale(c, Neg(d)) == Neg(Scale(c, d))
  {
    assert c * (-d.x) == -(c * d.x);
    assert c * (-d.y) == -(c * d.y);
    assert c * (-d.z) == -(c * d.z);
  }

  /** The sum of the first `k` vectors of `vs`. */
  function VecSumTo(vs: seq<Vec3>, k: nat): Vec3
    requires k <= |vs|
  {
    if k == 0 then Zero else Add(VecSumTo(vs, k - 1), vs[k - 1])
  }

  function VecSum(vs: seq<Vec3>): Vec3 {
    VecSumTo(vs, |vs|)
  }

  /** The pulls of body `j` on bodies `0 .. r-1`. */
  function ColumnSum(snap: seq<Body>, j: nat, r: nat): Vec3
    requires j < |snap| && r <= |snap|
  {
    if r == 0 then Zero else Add(ColumnSum(snap, j, r - 1), Pull(snap, r - 1, j))
  }

  /** The pulls of bodies `0 .. m-1` on bodies `0 .. r-1`, summed. */
  function BlockSum(snap: seq<Body>, m: nat, r: nat): Vec3
    requires m <= |snap| && r <= |snap|
  {
    if r == 0 then Zero else Add(BlockSum(snap, m, r - 1), ForceSum(snap, r - 1, m))
  }

  /** What `j` feels from `0 .. r-1` is the opposite of what it exerts on them. */
  lemma {:induction false} ColumnOpposite(snap: seq<Body>, j: nat, r: nat)
    requires j < |snap| && r <= |snap|
    ensures ColumnSum(snap, j, r) == Neg(ForceSum(snap, j, r))
  {
    if r > 0 {
      ColumnOpposite(snap, j, r - 1);
      PullOpposite(snap, r - 1, j);
    }
  }

  /** Widening the block by one source body `m` adds that body's column. */
  lemma {:induction false} BlockGrows(snap: seq<Body>, m: nat, r: nat)
    requires m < |snap| && r <= |snap|
    ensures BlockSum(snap, m + 1, r) == Add(BlockSum(snap, m, r), ColumnSum(snap, m, r))
  {
    if r > 0 {
      BlockGrows(snap, m, r - 1);
    }
  }

  /** The pulls among bodies `0 .. m-1` cancel out. */
  lemma {:induction false} SquareCancels(snap: seq<Body>, m: nat)
    requires m <= |snap|
    ensures BlockSum(snap, m, m) == Zero
  {
    if m > 0 {
      var k := m - 1;
      SquareCancels(snap, k);
      BlockGrows(snap, k, k);
      ColumnOpposite(snap, k, k);
      NoSelfPull(snap, k);
      BlockStep(snap, m, k);
      CancelAfterZero(ForceSum(snap, k, k));
    }
  }

  lemma BlockStep(snap: seq<Body>, m: nat, r: nat)
    requires m <= |snap| && r < |snap|
    ensures BlockSum(snap, m, r + 1) == Add(BlockSum(snap, m, r), ForceSum(snap, r, m))
  {
  }

  lemma CancelAfterZero(a: Vec3)
    ensures Add(Add(Zero, Neg(a)), a) == Zero
  {
  }

  /** A body adds nothing to the force on itself. */
  lemma NoSelfPull(snap: seq<Body>, k: nat)
    requires k < |snap|
    ensures ForceSum(snap, k, k + 1) == ForceSum(snap, k, k)
  {
    SelfPull(snap, k);
    ForceSumStep(snap, k, k);
    AddZero(ForceSum(snap, k, k));
  }

  lemma SelfPull(snap: seq<Body>, k: nat)
    requires k < |snap|
    ensures Pull(snap, k, k) == Zero
  {
  }

  lemma ForceSumStep(snap: seq<Body>, i: nat, k: nat)
    requires i < |snap| && k < |snap|
    ensures ForceSum(snap, i, k + 1) == Add(ForceSum(snap, i, k), Pull(snap, i, k))
  {
  }

  lemma AddZero(a: Vec3)
    ensures Add(a, Zero) == a
  {
  }

  /** The prefix sums of the returned forces are the blocks over all
      source bodies. */
  lemma {:induction false} ForcesPrefix(snap: seq<Body>, r: nat)
    requires r <= |snap|
    ensures VecSumTo(Forces(snap), r) == BlockSum(snap, |snap|, r)
  {
    if r > 0 {
      ForcesPrefix(snap, r - 1);
    }
  }

  /** The forces of one call add up to zero: the total momentum change they
      cause in the kick of the integrator is zero (before the masses
      changed by resolution divide them). */
  lemma ForcesBalance(snap: seq<Body>)
    ensures VecSum(Forces(snap)) == Zero
  {
    ForcesPrefix(snap, |snap|);
    SquareCancels(snap, |snap|);
  }

  /** Two snapshots that agree on positions and masses produce the same
      forces: radii, velocities and classifications play no part. */
  lemma {:induction false} ForceSumFromPositionsAndMasses(a: seq<Body>, b: seq<Body>, i: nat, k: nat)
    requires |a| == |b| && i < |a| && k <= |a|
    requires forall n :: 0 <= n < |a| ==> a[n].pos == b[n].pos && a[n].mass == b[n].mass
    ensures ForceSum(a, i, k) == ForceSum(b, i, k)
  {
    if k > 0 {
      ForceSumFromPositionsAndMasses(a, b, i, k - 1);
      assert Pull(a, i, k - 1) == Pull(b, i, k - 1);
    }
  }

  lemma ForcesFromPositionsAndMasses(a: seq<Body>, b: seq<Body>)
    requires |a| == |b|
    requires forall n :: 0 <= n < |a| ==> a[n].pos == b[n].pos && a[n].mass == b[n].mass
    ensures Forces(a) == Forces(b)
  {
    forall i | 0 <= i < |a|
      ensures Forces(a)[i] == Forces(b)[i]
    {
      ForceSumFromPositionsAndMasses(a, b, i, |a|);
    }
  }
}
