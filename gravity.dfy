/** One call of `calculate_gravity` (`Interstellar/gravity.py`).

    The call first takes a snapshot of every particle (positions, masses,
    radii, scaled Schwarzschild radii, classifications). Then, for each
    index `i` in turn, it
      1. scans for the first other particle inside the summed scaled
         Schwarzschild radii and moves the mass to the heavier of the two,
      2. if `i` was not a black hole at the start of the call, scans for the
         first particle touching it, rewrites both velocities and moves the
         mass the same way,
      3. records the net gravitational pull on `i`, computed from the
         snapshot alone.

    The value-level functions below specify that behaviour over `seq<Body>`;
    `CalculateGravity` performs it in place on the particle objects and is
    proved to agree with them. */
module Gravity {
  import opened Vectors
  import opened Matter

  /** Mass left on a body that lost a resolution. */
  const Neutral: real := 1e-10

  /** Divisor applied to every Schwarzschild radius before it is compared
      with distances (a rendering scale). */
  const CriticalScale: real := 4e19

  // ---------------------------------------------------------------------
  // Distances compared without square roots
  // ---------------------------------------------------------------------

  /** `dist < s`, where `dsq` is the squared distance. */
  predicate Within(dsq: real, s: real) {
    0.0 < s && dsq < s * s
  }

  /** `dist <= s`, where `dsq` is the squared distance. */
  predicate WithinOrOn(dsq: real, s: real) {
    0.0 <= s && dsq <= s * s
  }

  /** For a distance `d`, the squared comparisons above agree with comparing
      `d` itself, whatever the sign of the threshold. */
  lemma WithinMeansCloser(d: real, s: real)
    requires d >= 0.0
    ensures Within(d * d, s) <==> d < s
    ensures WithinOrOn(d * d, s) <==> d <= s
  {
    if 0.0 <= s {
      if d < s {
        SquareLess(d, s);
      } else {
        SquareLessEq(s, d);
        if s < d {
          SquareLess(s, d);
        }
      }
    }
  }

  lemma SquareLess(d: real, s: real)
    requires 0.0 <= d < s
    ensures d * d < s * s
  {
    PositiveProduct(s - d, s + d);
    assert (s - d) * (s + d) == s * s - d * d;
  }

  lemma SquareLessEq(d: real, s: real)
    requires 0.0 <= d <= s
    ensures d * d <= s * s
  {
    if d < s {
      SquareLess(d, s);
    }
  }

  lemma PositiveProduct(a: real, b: real)
    requires a > 0.0 && b > 0.0
    ensures a * b > 0.0
  {
  }

  // ---------------------------------------------------------------------
  // The snapshot tests
  // ---------------------------------------------------------------------

  /** Scaled Schwarzschild radius used by the absorption test. */
  function Critical(b: Body): real {
    b.rs / CriticalScale
  }

  /** Squared distance between bodies `i` and `j`. */
  function DistSq(snap: seq<Body>, i: nat, j: nat): real
    requires i < |snap| && j < |snap|
  {
    Norm2(Sub(snap[j].pos, snap[i].pos))
  }

  /** The two kinds of contact the call resolves. */
  datatype Rule = Absorption | Collision

  /** Whether pair `(i, j)` qualifies under `rule`, judged on the snapshot:
      absorption when the distance is below the summed scaled Schwarzschild
      radii, collision when it is at most the summed radii. */
  predicate Triggers(rule: Rule, snap: seq<Body>, i: nat, j: nat)
    requires i < |snap| && j < |snap|
  {
    match rule
    case Absorption => Within(DistSq(snap, i, j), Critical(snap[j]) + Critical(snap[i]))
    case Collision => WithinOrOn(DistSq(snap, i, j), snap[j].radius + snap[i].radius)
  }

  /** The boolean mask the source builds for scanning body `i` under `rule`
      (`black_hole_consumption` or `collided`): entry `j` says whether pair
      `(i, j)` qualifies. */
  function Mask(rule: Rule, snap: seq<Body>, i: nat): (m: seq<bool>)
    requires i < |snap|
    ensures |m| == |snap|
  {
    seq(|snap|, j requires 0 <= j < |snap| => Triggers(rule, snap, i, j))
  }

  // ---------------------------------------------------------------------
  // Resolving one pair
  // ---------------------------------------------------------------------

  /** The state after one pair was handled. `Raised` is the division by a
      zero winner radius: the mass moves already made are kept and the scan
      goes on with the next candidate. */
  datatype PairResult = Resolved(bodies: seq<Body>) | Raised(bodies: seq<Body>)

  predicate AllPositive(bs: seq<Body>) {
    forall k :: 0 <= k < |bs| ==> bs[k].mass > 0.0
  }

  predicate NoZeroRadius(bs: seq<Body>) {
    forall k :: 0 <= k < |bs| ==> bs[k].radius != 0.0
  }

  /** Positions, Schwarzschild radii and classifications agree: the fields
      that resolution never writes. */
  predicate SameFixedFields(a: seq<Body>, b: seq<Body>) {
    && |a| == |b|
    && forall k :: 0 <= k < |a| ==> a[k].pos == b[k].pos && a[k].rs == b[k].rs && a[k].classi == b[k].classi
  }

  predicate SameVelocities(a: seq<Body>, b: seq<Body>) {
    && |a| == |b|
    && forall k :: 0 <= k < |a| ==> a[k].vel == b[k].vel
  }

  /** Body `w` takes the mass of body `l`; `l` keeps the neutral mass and its
      radius is multiplied by `1 / radius[w]`. */
  function Merge(bs: seq<Body>, w: nat, l: nat): (r: PairResult)
    requires w < |bs| && l < |bs| && w != l
    ensures |r.bodies| == |bs|
    ensures AllPositive(bs) ==> AllPositive(r.bodies)
  {
    var massed := bs[w := bs[w].(mass := bs[w].mass + bs[l].mass)][l := bs[l].(mass := Neutral)];
    if bs[w].radius == 0.0 then
      Raised(massed)
    else
      var shrunk := bs[l].radius * (1.0 / bs[w].radius);
      Resolved(massed[l := massed[l].(radius := shrunk)])
  }

  /** The body of pair `(i, j)` that keeps the mass: `i` when it is strictly
      heavier, `j` otherwise (so `j` wins a tie). */
  function Winner(bs: seq<Body>, i: nat, j: nat): (w: nat)
    requires i < |bs| && j < |bs| && i != j
    ensures w == i || w == j
    ensures w == i <==> bs[i].mass > bs[j].mass
  {
    if bs[i].mass > bs[j].mass then i else j
  }

  /** The other body of the pair. */
  function Loser(bs: seq<Body>, i: nat, j: nat): (l: nat)
    requires i < |bs| && j < |bs| && i != j
    ensures (l == i || l == j) && l != Winner(bs, i, j)
  {
    if Winner(bs, i, j) == i then j else i
  }

  /** Moves the mass of the pair to its winner. */
  function Transfer(bs: seq<Body>, i: nat, j: nat): PairResult
    requires i < |bs| && j < |bs| && i != j
  {
    Merge(bs, Winner(bs, i, j), Loser(bs, i, j))
  }

  /** `(m_i v_i + m_j v_j) // (m_i + m_j)`, component by component. */
  function CommonVelocity(mi: real, vi: Vec3, mj: real, vj: Vec3): Vec3
    requires mi + mj != 0.0
  {
    FloorDiv(Add(Scale(mi, vi), Scale(mj, vj)), mi + mj)
  }

  /** Body `i` gets the common velocity and body `j` its opposite. */
  function Rebounded(bs: seq<Body>, i: nat, j: nat): seq<Body>
    requires i < |bs| && j < |bs| && i != j
    requires bs[i].mass + bs[j].mass != 0.0
  {
    var vf := CommonVelocity(bs[i].mass, bs[i].vel, bs[j].mass, bs[j].vel);
    bs[i := bs[i].(vel := vf)][j := bs[j].(vel := Neg(vf))]
  }

  /** Resolves pair `(i, j)` under `rule`. */
  function Pair(rule: Rule, bs: seq<Body>, i: nat, j: nat): (r: PairResult)
    requires i < |bs| && j < |bs| && i != j
    requires AllPositive(bs)
    ensures |r.bodies| == |bs|
    ensures AllPositive(r.bodies)
  {
    match rule
    case Absorption => Transfer(bs, i, j)
    case Collision => Transfer(Rebounded(bs, i, j), i, j)
  }

  // ---------------------------------------------------------------------
  // The scans and the whole pass
  // ---------------------------------------------------------------------

  /** The scan of body `i` under `rule` over the candidates `j' >= j` whose
      mask entry is set: the first pair that resolves without raising ends
      it, a raising pair lets it go on. */
  function Scan(rule: Rule, hits: seq<bool>, live: seq<Body>, i: nat, j: nat): (r: seq<Body>)
    requires |live| == |hits| && i < |hits| && j <= |hits|
    requires AllPositive(live)
    decreases |hits| - j
    ensures |r| == |live|
    ensures AllPositive(r)
  {
    if j == |hits| then
      live
    else if j != i && hits[j] then
      match Pair(rule, live, i, j)
      case Resolved(b) => b
      case Raised(b) => Scan(rule, hits, b, i, j + 1)
    else
      Scan(rule, hits, live, i, j + 1)
  }

  /** Everything the call does for index `i`: the absorption scan, then the
      collision scan unless `i` was a black hole at the start of the call. */
  function StepFor(snap: seq<Body>, live: seq<Body>, i: nat): (r: seq<Body>)
    requires |live| == |snap| && i < |snap|
    requires AllPositive(live)
    ensures |r| == |live|
    ensures AllPositive(r)
  {
    var absorbed := Scan(Absorption, Mask(Absorption, snap, i), live, i, 0);
    if snap[i].classi != Blackhole then Scan(Collision, Mask(Collision, snap, i), absorbed, i, 0) else absorbed
  }

  /** The state after indices `0 .. k-1` were handled, starting from the
      snapshot. */
  function Resolve(snap: seq<Body>, k: nat): (r: seq<Body>)
    requires k <= |snap|
    requires AllPositive(snap)
    ensures |r| == |snap|
    ensures AllPositive(r)
  {
    if k == 0 then snap else StepFor(snap, Resolve(snap, k - 1), k - 1)
  }

  /** The state `calculate_gravity` leaves behind. */
  function Resolution(snap: seq<Body>): seq<Body>
    requires AllPositive(snap)
  {
    Resolve(snap, |snap|)
  }

  // ---------------------------------------------------------------------
  // Forces
  // ---------------------------------------------------------------------

  /** The force magnitude factor `G m_i m_j / |d|^2`. At zero distance
      numpy yields `inf` (or `nan` for `0/0`), which `nan_to_num` turns
      into a finite number that then multiplies the zero direction; the
      factor is taken to be zero there, which gives the same product. */
  function Coefficient(mi: real, mj: real, dsq: real): real {
    if dsq == 0.0 then 0.0 else G * mi * mj / dsq
  }

  /** The pull of body `j` on body `i`: the magnitude factor times the
      direction `d = p_j - p_i`. */
  function Pull(snap: seq<Body>, i: nat, j: nat): (f: Vec3)
    requires i < |snap| && j < |snap|
    ensures snap[i].pos == snap[j].pos ==> f == Zero
  {
    var d := Sub(snap[j].pos, snap[i].pos);
    Scale(Coefficient(snap[i].mass, snap[j].mass, Norm2(d)), d)
  }

  /** The pulls of bodies `0 .. k-1` on body `i`. */
  function ForceSum(snap: seq<Body>, i: nat, k: nat): Vec3
    requires i < |snap| && k <= |snap|
  {
    if k == 0 then Zero else Add(ForceSum(snap, i, k - 1), Pull(snap, i, k - 1))
  }

  function NetForce(snap: seq<Body>, i: nat): Vec3
    requires i < |snap|
  {
    ForceSum(snap, i, |snap|)
  }

  /** The array `calculate_gravity` returns: one net force per body, in the
      order of the bodies. */
  function Forces(snap: seq<Body>): seq<Vec3> {
    seq(|snap|, i requires 0 <= i < |snap| => NetForce(snap, i))
  }

  // ---------------------------------------------------------------------
  // The particle objects
  // ---------------------------------------------------------------------

  predicate Distinct(ps: seq<Particle>) {
    forall a, b :: 0 <= a < b < |ps| ==> ps[a] != ps[b]
  }

  /** The current values of the particles, in list order. */
  function Views(ps: seq<Particle>): seq<Body>
    reads set p | p in ps
  {
    seq(|ps|, k requires 0 <= k < |ps| reads ps => ps[k].View())
  }

  /** The mass move of one resolution, in place. */
  method MergeInPlace(ps: seq<Particle>, w: nat, l: nat) returns (raised: bool)
    requires Distinct(ps) && w < |ps| && l < |ps| && w != l
    modifies ps[w], ps[l]
    ensures raised == Merge(old(Views(ps)), w, l).Raised?
    ensures Views(ps) == Merge(old(Views(ps)), w, l).bodies
  {
    ghost var before := Views(ps);
    ps[w].mass := ps[w].mass + ps[l].mass;
    ps[l].mass := Neutral;
    raised := ps[w].radius == 0.0;
    if !raised {
      ps[l].radius := ps[l].radius * (1.0 / ps[w].radius);
    }
    ghost var after := Merge(before, w, l).bodies;
    assert after[w] == ps[w].View();
    assert after[l] == ps[l].View();
    forall k | 0 <= k < |ps| && k != w && k != l
      ensures Views(ps)[k] == after[k]
    {
      assert ps[k] != ps[w] && ps[k] != ps[l];
      assert ps[k].View() == before[k];
    }
    assert Views(ps) == after;
  }

  /** The heavier of `i` and `j` takes the other's mass, in place. */
  method TransferInPlace(ps: seq<Particle>, i: nat, j: nat) returns (raised: bool)
    requires Distinct(ps) && i < |ps| && j < |ps| && i != j
    modifies ps[i], ps[j]
    ensures raised == Transfer(old(Views(ps)), i, j).Raised?
    ensures Views(ps) == Transfer(old(Views(ps)), i, j).bodies
  {
    if ps[i].mass > ps[j].mass {
      raised := MergeInPlace(ps, i, j);
    } else {
      raised := MergeInPlace(ps, j, i);
    }
  }

  /** The velocity rewrite of a collision, in place. */
  method ReboundInPlace(ps: seq<Particle>, i: nat, j: nat)
    requires Distinct(ps) && i < |ps| && j < |ps| && i != j
    requires ps[i].mass + ps[j].mass != 0.0
    modifies ps[i], ps[j]
    ensures Views(ps) == Rebounded(old(Views(ps)), i, j)
  {
    ghost var before := Views(ps);
    var vf := CommonVelocity(ps[i].mass, ps[i].vel, ps[j].mass, ps[j].vel);
    ps[i].vel, ps[j].vel := vf, Neg(vf);
    ghost var after := Rebounded(before, i, j);
    assert after[i] == ps[i].View();
    assert after[j] == ps[j].View();
    forall k | 0 <= k < |ps| && k != i && k != j
      ensures Views(ps)[k] == after[k]
    {
      assert ps[k] != ps[i] && ps[k] != ps[j];
      assert ps[k].View() == before[k];
    }
    assert Views(ps) == after;
  }

  /** A collision of `i` and `j`, in place: the velocity rewrite, then the
      mass move. */
  method CollideInPlace(ps: seq<Particle>, i: nat, j: nat) returns (raised: bool)
    requires Distinct(ps) && i < |ps| && j < |ps| && i != j
    requires AllPositive(Views(ps))
    modifies ps[i], ps[j]
    ensures raised == Pair(Collision, old(Views(ps)), i, j).Raised?
    ensures Views(ps) == Pair(Collision, old(Views(ps)), i, j).bodies
  {
    assert Views(ps)[i].mass > 0.0 && Views(ps)[j].mass > 0.0;
    ReboundInPlace(ps, i, j);
    raised := TransferInPlace(ps, i, j);
  }

  /** Candidate `j` of the scan of body `i` under `rule`: a set mask entry
      with `j != i` resolves the pair in place; `stop` says whether the
      scan breaks here (a pair that raised lets it continue). */
  method Visit(rule: Rule, ps: seq<Particle>, hits: seq<bool>, i: nat, j: nat) returns (stop: bool)
    requires Distinct(ps) && |hits| == |ps| && i < |ps| && j < |ps|
    requires AllPositive(Views(ps))
    modifies set p | p in ps
    ensures AllPositive(Views(ps))
    ensures stop ==> Views(ps) == Scan(rule, hits, old(Views(ps)), i, j)
    ensures !stop ==> Scan(rule, hits, Views(ps), i, j + 1) == Scan(rule, hits, old(Views(ps)), i, j)
  {
    stop := false;
    if j != i && hits[j] {
      var raised;
      if rule == Absorption {
        raised := TransferInPlace(ps, i, j);
      } else {
        raised := CollideInPlace(ps, i, j);
      }
      stop := !raised;
    }
  }

  /** The scan of body `i` under `rule`: the absorption loop (lines 28-46 of
      the source) or the collision loop (lines 50-70). */
  method ScanInPlace(rule: Rule, ps: seq<Particle>, hits: seq<bool>, i: nat)
    requires Distinct(ps) && |hits| == |ps| && i < |ps|
    requires AllPositive(Views(ps))
    modifies set p | p in ps
    ensures Views(ps) == Scan(rule, hits, old(Views(ps)), i, 0)
  {
    ghost var start := Views(ps);
    var j := 0;
    while j < |ps|
      invariant 0 <= j <= |ps|
      invariant AllPositive(Views(ps))
      invariant Scan(rule, hits, Views(ps), i, j) == Scan(rule, hits, start, i, 0)
    {
      var stop := Visit(rule, ps, hits, i, j);
      if stop {
        break;
      }
      j := j + 1;
    }
  }

  /** The first `i` rows of `forces` hold the net forces of the snapshot. */
  predicate Filled(forces: seq<Vec3>, snap: seq<Body>, i: nat) {
    && |forces| == |snap| && i <= |snap|
    && forall k :: 0 <= k < i ==> forces[k] == NetForce(snap, k)
  }

  /** The resolutions of turn `i`: the absorption loop, then the collision
      loop unless `i` was a black hole at the start of the call. */
  method Turn(ps: seq<Particle>, snap: seq<Body>, i: nat)
    requires Distinct(ps) && |snap| == |ps| && i < |ps|
    requires AllPositive(snap) && Views(ps) == Resolve(snap, i)
    modifies set p | p in ps
    ensures Views(ps) == Resolve(snap, i + 1)
  {
    ScanInPlace(Absorption, ps, Mask(Absorption, snap, i), i);
    if snap[i].classi != Blackhole {
      ScanInPlace(Collision, ps, Mask(Collision, snap, i), i);
    }
  }

  /** The loop over `i` (lines 22-79 of the source), from the snapshot:
      each turn resolves, then writes row `i` of `forces` (line 79). */
  method Turns(ps: seq<Particle>, snap: seq<Body>, forces: array<Vec3>)
    requires Distinct(ps) && |snap| == |ps|
    requires AllPositive(snap) && Views(ps) == snap
    requires forces.Length == |snap|
    modifies forces, set p | p in ps
    ensures Filled(forces[..], snap, |snap|)
    ensures Views(ps) == Resolve(snap, |snap|)
  {
    for i := 0 to |ps|
      invariant Views(ps) == Resolve(snap, i)
      invariant Filled(forces[..], snap, i)
    {
      Turn(ps, snap, i);
      forces[i] := NetForce(snap, i);
    }
  }

  /** `calculate_gravity(particles)`: resolves absorptions and collisions in
      place and returns a new array of the net forces computed from the
      state at entry. */
  method CalculateGravity(ps: seq<Particle>) returns (forces: array<Vec3>)
    requires Distinct(ps)
    requires AllPositive(Views(ps))
    modifies set p | p in ps
    ensures fresh(forces)
    ensures forces[..] == Forces(old(Views(ps)))
    ensures Views(ps) == Resolution(old(Views(ps)))
  {
    var snap := Views(ps);
    forces := new Vec3[|ps|](_ => Zero);
    Turns(ps, snap, forces);
    assert forall k :: 0 <= k < |snap| ==> forces[..][k] == Forces(snap)[k];
  }
}
