/** What one call of `update_particles` does to the values of the particles:
    the kick leaves the total momentum of the resolved bodies unchanged (the
    forces cancel), the drift is undone by a drift backwards, and the
    quantities fixed at construction stay fixed. */
module SimulatorFacts {
  import opened Options
  import opened Vectors
  import opened Matter
  import opened Gravity
  import opened ResolutionFacts
  import opened ForceFacts
  import opened Simulator

  /** The sum of `m v` over the first `k` bodies. */
  function MomentumTo(bs: seq<Body>, k: nat): Vec3
    requires k <= |bs|
  {
    if k == 0 then Zero else Add(MomentumTo(bs, k - 1), Scale(bs[k - 1].mass, bs[k - 1].vel))
  }

  function Momentum(bs: seq<Body>): Vec3 {
    MomentumTo(bs, |bs|)
  }

  /** Over any prefix, the kick adds `dt` times the sum of the forces to the
      momentum: each body's mass cancels against the division by it. */
  lemma {:induction false} KickMomentumTo(bs: seq<Body>, fs: seq<Vec3>, dt: real, k: nat)
    requires |fs| == |bs| && AllPositive(bs) && k <= |bs|
    ensures MomentumTo(Kick(bs, fs, dt), k) == Add(MomentumTo(bs, k), Scale(dt, VecSumTo(fs, k)))
  {
    if k == 0 {
      ScaleZero(dt);
      AddZero(Zero);
    } else {
      var b := bs[k - 1];
      KickMomentumTo(bs, fs, dt, k - 1);
      KickedBody(bs, fs, dt, k - 1);
      KickImpulse(b.mass, b.vel, fs[k - 1], dt);
      ScaleAdd(dt, VecSumTo(fs, k - 1), fs[k - 1]);
      Regroup(MomentumTo(bs, k - 1), Scale(dt, VecSumTo(fs, k - 1)), Scale(b.mass, b.vel), Scale(dt, fs[k - 1]));
    }
  }

  lemma KickedBody(bs: seq<Body>, fs: seq<Vec3>, dt: real, k: nat)
    requires |fs| == |bs| && AllPositive(bs) && k < |bs|
    ensures Kick(bs, fs, dt)[k].mass == bs[k].mass
    ensures Kick(bs, fs, dt)[k].vel == Add(bs[k].vel, Scale(dt, Div(fs[k], bs[k].mass)))
  {
  }

  /** One body: `m (v + dt f / m) = m v + dt f`. */
  lemma KickImpulse(m: real, v: Vec3, f: Vec3, dt: real)
    requires m != 0.0
    ensures Scale(m, Add(v, Scale(dt, Div(f, m)))) == Add(Scale(m, v), Scale(dt, f))
  {
    DivCancels(f, m);
    Impulse(m, v, Div(f, m), f, dt);
  }

  lemma DivCancels(f: Vec3, m: real)
    requires m != 0.0
    ensures Scale(m, Div(f, m)) == f
  {
  }

  lemma Impulse(m: real, v: Vec3, a: Vec3, f: Vec3, dt: real)
    requires Scale(m, a) == f
    ensures Scale(m, Add(v, Scale(dt, a))) == Add(Scale(m, v), Scale(dt, f))
  {
    ScaleAdd(m, v, Scale(dt, a));
    ScaleCommute(m, dt, a);
  }

  lemma ScaleCommute(s: real, t: real, a: Vec3)
    ensures Scale(s, Scale(t, a)) == Scale(t, Scale(s, a))
  {
  }

  lemma ScaleAdd(s: real, a: Vec3, b: Vec3)
    ensures Scale(s, Add(a, b)) == Add(Scale(s, a), Scale(s, b))
  {
    assert s * (a.x + b.x) == s * a.x + s * b.x;
    assert s * (a.y + b.y) == s * a.y + s * b.y;
    assert s * (a.z + b.z) == s * a.z + s * b.z;
  }

  lemma ScaleZero(s: real)
    ensures Scale(s, Zero) == Zero
  {
  }

  lemma Regroup(a: Vec3, b: Vec3, c: Vec3, d: Vec3)
    ensures Add(Add(a, b), Add(c, d)) == Add(Add(a, c), Add(b, d))
  {
  }

  /** The kick of `update_particles` conserves the total momentum of the
      bodies as the resolutions left them: the forces of the call sum to
      zero. */
  lemma KickConservesMomentum(snap: seq<Body>, dt: real)
    requires AllPositive(snap)
    ensures Momentum(Kick(Resolution(snap), Forces(snap), dt)) == Momentum(Resolution(snap))
  {
    var resolved := Resolution(snap);
    var fs := Forces(snap);
    KickMomentumTo(resolved, fs, dt, |resolved|);
    ForcesBalance(snap);
    ScaleZero(dt);
    AddZero(Momentum(resolved));
  }

  /** Bodies that agree on masses and velocities have the same momentum. */
  lemma {:induction false} MomentumOfSameMotion(a: seq<Body>, b: seq<Body>, k: nat)
    requires |a| == |b| && k <= |a|
    requires forall n :: 0 <= n < |a| ==> a[n].mass == b[n].mass && a[n].vel == b[n].vel
    ensures MomentumTo(a, k) == MomentumTo(b, k)
  {
    if k > 0 {
      MomentumOfSameMotion(a, b, k - 1);
    }
  }

  /** The drift moves positions only, so it keeps the momentum. */
  lemma DriftKeepsMomentum(bs: seq<Body>, dt: real)
    ensures Momentum(Drift(bs, dt)) == Momentum(bs)
  {
    MomentumOfSameMotion(Drift(bs, dt), bs, |bs|);
  }

  /** A whole update changes the momentum only through the resolutions of
      `calculate_gravity`, never through the forces. */
  lemma StepMomentum(snap: seq<Body>, dt: real)
    requires AllPositive(snap)
    ensures Momentum(Step(snap, dt)) == Momentum(Resolution(snap))
  {
    KickConservesMomentum(snap, dt);
    DriftKeepsMomentum(Kick(Resolution(snap), Forces(snap), dt), dt);
  }

  /** Drifting for `dt` and then for `-dt` returns every body to where it was. */
  lemma DriftRoundTrip(bs: seq<Body>, dt: real)
    ensures Drift(Drift(bs, dt), -dt) == bs
  {
    var there := Drift(bs, dt);
    var back := Drift(there, -dt);
    forall k | 0 <= k < |bs|
      ensures back[k] == bs[k]
    {
      MoveBack(bs[k].pos, bs[k].vel, dt);
    }
  }

  lemma MoveBack(p: Vec3, v: Vec3, dt: real)
    ensures Add(Add(p, Scale(dt, v)), Scale(-dt, v)) == p
  {
    assert (-dt) * v.x == -(dt * v.x);
    assert (-dt) * v.y == -(dt * v.y);
    assert (-dt) * v.z == -(dt * v.z);
  }

  /** Every body after an update: its mass and velocity come from the
      resolutions and the kick, its position is its position at entry (no
      resolution moves a body) advanced by `dt` times its new velocity, and
      its Schwarzschild radius and classification are those it entered with. */
  lemma StepFields(snap: seq<Body>, dt: real, k: nat)
    requires AllPositive(snap) && k < |snap|
    ensures Step(snap, dt)[k].mass == Resolution(snap)[k].mass
    ensures Step(snap, dt)[k].vel
         == Add(Resolution(snap)[k].vel, Scale(dt, Div(Forces(snap)[k], Resolution(snap)[k].mass)))
    ensures Step(snap, dt)[k].pos == Add(snap[k].pos, Scale(dt, Step(snap, dt)[k].vel))
    ensures Step(snap, dt)[k].rs == snap[k].rs && Step(snap, dt)[k].classi == snap[k].classi
  {
    ResolveKeepsFixedFields(snap, |snap|);
  }

  /** The masses stay positive, so `update_particles` can be called again. */
  lemma StepKeepsPositive(snap: seq<Body>, dt: real)
    requires AllPositive(snap)
    ensures AllPositive(Step(snap, dt))
  {
    var resolved := Resolution(snap);
    var kicked := Kick(resolved, Forces(snap), dt);
    assert forall k :: 0 <= k < |snap| ==> kicked[k].mass == resolved[k].mass;
  }

  /** With no pair within reach, an update is a plain kick and drift of the
      bodies as they were. */
  lemma QuietStep(snap: seq<Body>, dt: real)
    requires AllPositive(snap)
    requires forall i, j :: 0 <= i < |snap| && 0 <= j < |snap| && i != j ==> !Triggers(Absorption, snap, i, j)
    requires forall i, j :: 0 <= i < |snap| && 0 <= j < |snap| && i != j && snap[i].classi != Blackhole ==> !Triggers(Collision, snap, i, j)
    ensures Step(snap, dt) == Drift(Kick(snap, Forces(snap), dt), dt)
  {
    QuietResolve(snap, |snap|);
  }

  /** The classification depends on the mass alone: for any positive mass,
      an explicit radius half the Schwarzschild radius and one twice it give
      the same label, the one `Classify` gives the mass. */
  lemma RadiusDoesNotClassify(cbrt: real -> real, m: real)
    requires CubeRootLike(cbrt) && m > 0.0
    ensures var inside := Spawned(cbrt, 0.0, 0.0, 0.0, m, Some(SchwarzschildRadius(m) / 2.0), 0.0, 0.0, 0.0);
            var outside := Spawned(cbrt, 0.0, 0.0, 0.0, m, Some(2.0 * SchwarzschildRadius(m)), 0.0, 0.0, 0.0);
            && inside.radius < inside.rs && outside.radius > outside.rs
            && inside.classi == outside.classi == Classify(m)
  {
  }
}
