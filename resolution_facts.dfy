/** What one call of `calculate_gravity` does to the bodies, stated over the
    value-level specification in module `Gravity`: the effect of one pair,
    the first-match rule of each scan, the fields no resolution touches, and
    the bookkeeping of the total mass. */
module ResolutionFacts {
  import opened Options
  import opened Vectors
  import opened Matter
  import opened Gravity

  // ---------------------------------------------------------------------
  // One pair
  // ---------------------------------------------------------------------

  /** One merge: the winner `w` gains the loser's mass; the loser `l` keeps
      the neutral mass and, unless the winner's radius is zero (the raising
      case), has its radius divided by the winner's. Nothing else changes. */
  lemma MergeEffect(bs: seq<Body>, w: nat, l: nat)
    requires w < |bs| && l < |bs| && w != l
    ensures Merge(bs, w, l).Raised? <==> bs[w].radius == 0.0
    ensures Merge(bs, w, l).bodies[w] == bs[w].(mass := bs[w].mass + bs[l].mass)
    ensures Merge(bs, w, l).bodies[l] ==
              bs[l].(mass := Neutral,
                     radius := if bs[w].radius == 0.0 then bs[l].radius else bs[l].radius / bs[w].radius)
    ensures forall k :: 0 <= k < |bs| && k != w && k != l ==> Merge(bs, w, l).bodies[k] == bs[k]
  {
    if bs[w].radius != 0.0 {
      assert bs[l].radius * (1.0 / bs[w].radius) == bs[l].radius / bs[w].radius;
    }
  }

  /** The velocity rewrite of a collision: `i` gets the common velocity, `j`
      its opposite, and nothing else changes. */
  lemma ReboundEffect(bs: seq<Body>, i: nat, j: nat)
    requires i < |bs| && j < |bs| && i != j
    requires bs[i].mass + bs[j].mass != 0.0
    ensures var vf := CommonVelocity(bs[i].mass, bs[i].vel, bs[j].mass, bs[j].vel);
            && Rebounded(bs, i, j)[i] == bs[i].(vel := vf)
            && Rebounded(bs, i, j)[j] == bs[j].(vel := Neg(vf))
    ensures forall k :: 0 <= k < |bs| && k != i && k != j ==> Rebounded(bs, i, j)[k] == bs[k]
  {
  }

  /** The momentum of the pair after the velocity rewrite is
      `(m_i - m_j) v_f`, not the `m_i v_i + m_j v_j` the impulse comment of
      the source states: `j` gets `-v_f` rather than `v_f`. */
  lemma ReboundMomentum(bs: seq<Body>, i: nat, j: nat)
    requires i < |bs| && j < |bs| && i != j
    requires bs[i].mass + bs[j].mass != 0.0
    ensures var r := Rebounded(bs, i, j);
            var vf := CommonVelocity(bs[i].mass, bs[i].vel, bs[j].mass, bs[j].vel);
            Add(Scale(r[i].mass, r[i].vel), Scale(r[j].mass, r[j].vel)) == Scale(bs[i].mass - bs[j].mass, vf)
  {
    ReboundEffect(bs, i, j);
    OppositeMomenta(bs[i].mass, bs[j].mass, CommonVelocity(bs[i].mass, bs[i].vel, bs[j].mass, bs[j].vel));
  }

  /** Two bodies of mass 1 moving together at `(1, 0, 0)`: their momentum
      along `x` is 2 before the velocity rewrite and 0 after it, so the
      rewrite does not keep the momentum the impulse comment states. */
  lemma ReboundLosesMomentum()
    ensures var bs := [Body(Zero, Vec3(1.0, 0.0, 0.0), 1.0, 1.0, 0.0, Ordinary),
                       Body(Zero, Vec3(1.0, 0.0, 0.0), 1.0, 1.0, 0.0, Ordinary)];
            var r := Rebounded(bs, 0, 1);
            && Add(Scale(bs[0].mass, bs[0].vel), Scale(bs[1].mass, bs[1].vel)).x == 2.0
            && Add(Scale(r[0].mass, r[0].vel), Scale(r[1].mass, r[1].vel)).x == 0.0
  {
    var bs := [Body(Zero, Vec3(1.0, 0.0, 0.0), 1.0, 1.0, 0.0, Ordinary),
               Body(Zero, Vec3(1.0, 0.0, 0.0), 1.0, 1.0, 0.0, Ordinary)];
    ReboundMomentum(bs, 0, 1);
  }

  lemma OppositeMomenta(mi: real, mj: real, v: Vec3)
    ensures Add(Scale(mi, v), Scale(mj, Neg(v))) == Scale(mi - mj, v)
  {
    assert mi * v.x + mj * (-v.x) == (mi - mj) * v.x;
    assert mi * v.y + mj * (-v.y) == (mi - mj) * v.y;
    assert mi * v.z + mj * (-v.z) == (mi - mj) * v.z;
  }

  /** A resolved or raising pair under either rule changes only bodies `i`
      and `j`, and in them neither position, Schwarzschild radius nor
      classification. */
  lemma PairTouchesOnlyThePair(rule: Rule, bs: seq<Body>, i: nat, j: nat)
    requires i < |bs| && j < |bs| && i != j
    requires AllPositive(bs)
    ensures forall k :: 0 <= k < |bs| && k != i && k != j ==> Pair(rule, bs, i, j).bodies[k] == bs[k]
    ensures SameFixedFields(bs, Pair(rule, bs, i, j).bodies)
  {
    var cs := if rule == Absorption then bs else Rebounded(bs, i, j);
    if rule == Collision {
      ReboundEffect(bs, i, j);
    }
    MergeEffect(cs, Winner(cs, i, j), Loser(cs, i, j));
  }

  /** The mass move of a pair: the winner (`i` exactly when it is strictly
      heavier) gains the loser's mass, the loser keeps `1e-10`, a zero
      winner radius raises, and otherwise the loser's radius is divided by
      the winner's. The winner keeps its radius. */
  lemma PairMoves(rule: Rule, bs: seq<Body>, i: nat, j: nat)
    requires i < |bs| && j < |bs| && i != j
    requires AllPositive(bs)
    ensures var r := Pair(rule, bs, i, j);
            var w := Winner(bs, i, j);
            var l := Loser(bs, i, j);
            && (r.Raised? <==> bs[w].radius == 0.0)
            && r.bodies[w].mass == bs[w].mass + bs[l].mass
            && r.bodies[l].mass == Neutral
            && r.bodies[w].radius == bs[w].radius
            && r.bodies[l].radius == (if r.Raised? then bs[l].radius else bs[l].radius / bs[w].radius)
  {
    var cs := if rule == Absorption then bs else Rebounded(bs, i, j);
    if rule == Collision {
      ReboundEffect(bs, i, j);
    }
    assert Winner(cs, i, j) == Winner(bs, i, j);
    MergeEffect(cs, Winner(bs, i, j), Loser(bs, i, j));
  }

  /** `r_s` is derived from the mass once, when the particle is built, and
      a pair never re-derives it: a winner whose `r_s` matched its mass
      ends with an `r_s` short of its new mass's by exactly the loser's
      Schwarzschild radius, so it matches no longer. */
  lemma WinnerKeepsStaleSchwarzschild(rule: Rule, bs: seq<Body>, i: nat, j: nat)
    requires i < |bs| && j < |bs| && i != j
    requires AllPositive(bs)
    requires bs[Winner(bs, i, j)].rs == SchwarzschildRadius(bs[Winner(bs, i, j)].mass)
    ensures var r := Pair(rule, bs, i, j).bodies;
            var w := Winner(bs, i, j);
            && r[w].rs == SchwarzschildRadius(r[w].mass) - SchwarzschildRadius(bs[Loser(bs, i, j)].mass)
            && r[w].rs != SchwarzschildRadius(r[w].mass)
  {
    var w := Winner(bs, i, j);
    var l := Loser(bs, i, j);
    PairMoves(rule, bs, i, j);
    PairTouchesOnlyThePair(rule, bs, i, j);
    SchwarzschildAdditive(bs[w].mass, bs[l].mass);
  }

  /** Absorption never changes a velocity; a collision gives `i` the common
      velocity `(m_i v_i + m_j v_j) // (m_i + m_j)` and `j` its opposite,
      whichever body wins. */
  lemma PairVelocities(rule: Rule, bs: seq<Body>, i: nat, j: nat)
    requires i < |bs| && j < |bs| && i != j
    requires AllPositive(bs)
    ensures var r := Pair(rule, bs, i, j).bodies;
            var vf := CommonVelocity(bs[i].mass, bs[i].vel, bs[j].mass, bs[j].vel);
            && (rule == Absorption ==> r[i].vel == bs[i].vel && r[j].vel == bs[j].vel)
            && (rule == Collision ==> r[i].vel == vf && r[j].vel == Neg(vf))
  {
    var cs := if rule == Absorption then bs else Rebounded(bs, i, j);
    if rule == Collision {
      ReboundEffect(bs, i, j);
    }
    MergeEffect(cs, Winner(cs, i, j), Loser(cs, i, j));
  }

  /** With no zero radius, a pair never raises and the loser's radius stays
      non-zero, so no zero radius appears afterwards either. */
  lemma PairKeepsNoZeroRadius(rule: Rule, bs: seq<Body>, i: nat, j: nat)
    requires i < |bs| && j < |bs| && i != j
    requires AllPositive(bs) && NoZeroRadius(bs)
    ensures Pair(rule, bs, i, j).Resolved?
    ensures NoZeroRadius(Pair(rule, bs, i, j).bodies)
  {
    PairMoves(rule, bs, i, j);
    PairTouchesOnlyThePair(rule, bs, i, j);
    var w := Winner(bs, i, j);
    var l := Loser(bs, i, j);
    QuotientNonzero(bs[l].radius, bs[w].radius);
  }

  lemma QuotientNonzero(a: real, b: real)
    requires a != 0.0 && b != 0.0
    ensures a / b != 0.0
  {
    assert (a / b) * b == a;
  }

  // ---------------------------------------------------------------------
  // The first-match rule
  // ---------------------------------------------------------------------

  /** The first candidate `j' >= j`, `j' != i`, whose mask entry is set. */
  function FirstHit(hits: seq<bool>, i: nat, j: nat): (r: Option<nat>)
    requires j <= |hits|
    decreases |hits| - j
    ensures r.Some? ==> j <= r.value < |hits| && r.value != i && hits[r.value]
    ensures forall k :: j <= k < |hits| && k != i && (r.None? || k < r.value) ==> !hits[k]
  {
    if j == |hits| then None
    else if j != i && hits[j] then Some(j)
    else FirstHit(hits, i, j + 1)
  }

  /** When no radius is zero, a scan resolves exactly the first qualifying
      pair and stops there; with none, nothing changes. */
  lemma {:induction false} ScanFindsFirst(rule: Rule, hits: seq<bool>, live: seq<Body>, i: nat, j: nat)
    requires |live| == |hits| && i < |hits| && j <= |hits|
    requires AllPositive(live) && NoZeroRadius(live)
    decreases |hits| - j
    ensures Scan(rule, hits, live, i, j) ==
              match FirstHit(hits, i, j)
              case None => live
              case Some(k) => Pair(rule, live, i, k).bodies
  {
    if j < |hits| {
      if j != i && hits[j] {
        FirstHitHere(rule, hits, live, i, j);
      } else {
        SkipCandidate(rule, hits, live, i, j);
        ScanFindsFirst(rule, hits, live, i, j + 1);
      }
    }
  }

  /** The step of `ScanFindsFirst` at a qualifying candidate. */
  lemma FirstHitHere(rule: Rule, hits: seq<bool>, live: seq<Body>, i: nat, j: nat)
    requires |live| == |hits| && i < |hits| && j < |hits| && j != i && hits[j]
    requires AllPositive(live) && NoZeroRadius(live)
    ensures FirstHit(hits, i, j) == Some(j)
    ensures Scan(rule, hits, live, i, j) == Pair(rule, live, i, j).bodies
  {
    PairKeepsNoZeroRadius(rule, live, i, j);
  }

  /** A candidate that does not qualify is passed over. */
  lemma SkipCandidate(rule: Rule, hits: seq<bool>, live: seq<Body>, i: nat, j: nat)
    requires |live| == |hits| && i < |hits| && j < |hits| && (j == i || !hits[j])
    requires AllPositive(live)
    ensures FirstHit(hits, i, j) == FirstHit(hits, i, j + 1)
    ensures Scan(rule, hits, live, i, j) == Scan(rule, hits, live, i, j + 1)
  {
  }

  /** A scan over candidates none of which qualifies changes nothing. */
  lemma {:induction false} QuietScan(rule: Rule, hits: seq<bool>, live: seq<Body>, i: nat, j: nat)
    requires |live| == |hits| && i < |hits| && j <= |hits|
    requires AllPositive(live)
    requires forall k :: j <= k < |hits| && k != i ==> !hits[k]
    decreases |hits| - j
    ensures Scan(rule, hits, live, i, j) == live
  {
    if j < |hits| {
      QuietScan(rule, hits, live, i, j + 1);
    }
  }

  /** No pair within reach of each other under either rule (collisions only
      counted for scanning bodies that are not black holes): the call leaves
      every body as it was. */
  lemma {:induction false} QuietResolve(snap: seq<Body>, k: nat)
    requires k <= |snap| && AllPositive(snap)
    requires forall i, j :: 0 <= i < |snap| && 0 <= j < |snap| && i != j ==> !Triggers(Absorption, snap, i, j)
    requires forall i, j :: 0 <= i < |snap| && 0 <= j < |snap| && i != j && snap[i].classi != Blackhole ==> !Triggers(Collision, snap, i, j)
    ensures Resolve(snap, k) == snap
  {
    if k > 0 {
      QuietResolve(snap, k - 1);
      QuietScan(Absorption, Mask(Absorption, snap, k - 1), snap, k - 1, 0);
      if snap[k - 1].classi != Blackhole {
        QuietScan(Collision, Mask(Collision, snap, k - 1), snap, k - 1, 0);
      }
    }
  }

  // ---------------------------------------------------------------------
  // Fields no resolution touches
  // ---------------------------------------------------------------------

  lemma {:induction false} ScanKeepsFixedFields(rule: Rule, hits: seq<bool>, live: seq<Body>, i: nat, j: nat)
    requires |live| == |hits| && i < |hits| && j <= |hits|
    requires AllPositive(live)
    decreases |hits| - j
    ensures SameFixedFields(live, Scan(rule, hits, live, i, j))
  {
    if j < |hits| {
      if j != i && hits[j] {
        var bodies, stopped := HitFixed(rule, hits, live, i, j);
        if !stopped {
          ScanKeepsFixedFields(rule, hits, bodies, i, j + 1);
          FixedFieldsTransitive(live, bodies, Scan(rule, hits, bodies, i, j + 1));
        }
      } else {
        SkipCandidate(rule, hits, live, i, j);
        ScanKeepsFixedFields(rule, hits, live, i, j + 1);
      }
    }
  }

  /** A qualifying candidate: the bodies after its pair, which keep the
      fixed fields, and whether the scan stops there. */
  lemma HitFixed(rule: Rule, hits: seq<bool>, live: seq<Body>, i: nat, j: nat) returns (bodies: seq<Body>, stopped: bool)
    requires |live| == |hits| && i < |hits| && j < |hits| && j != i && hits[j]
    requires AllPositive(live)
    ensures |bodies| == |live| && AllPositive(bodies)
    ensures SameFixedFields(live, bodies)
    ensures stopped ==> Scan(rule, hits, live, i, j) == bodies
    ensures !stopped ==> Scan(rule, hits, live, i, j) == Scan(rule, hits, bodies, i, j + 1)
  {
    var p := Pair(rule, live, i, j);
    PairTouchesOnlyThePair(rule, live, i, j);
    bodies, stopped := p.bodies, p.Resolved?;
  }

  lemma FixedFieldsTransitive(a: seq<Body>, b: seq<Body>, c: seq<Body>)
    requires SameFixedFields(a, b) && SameFixedFields(b, c)
    ensures SameFixedFields(a, c)
  {
  }

  lemma StepKeepsFixedFields(snap: seq<Body>, live: seq<Body>, i: nat)
    requires |live| == |snap| && i < |snap|
    requires AllPositive(live)
    ensures SameFixedFields(live, StepFor(snap, live, i))
  {
    var absorbed := Scan(Absorption, Mask(Absorption, snap, i), live, i, 0);
    ScanKeepsFixedFields(Absorption, Mask(Absorption, snap, i), live, i, 0);
    if snap[i].classi != Blackhole {
      ScanKeepsFixedFields(Collision, Mask(Collision, snap, i), absorbed, i, 0);
    }
  }

  /** Positions, Schwarzschild radii and classifications leave the call as
      they entered it: the call never moves a body and never re-derives the
      quantities computed from the mass at construction. */
  lemma {:induction false} ResolveKeepsFixedFields(snap: seq<Body>, k: nat)
    requires k <= |snap| && AllPositive(snap)
    ensures SameFixedFields(snap, Resolve(snap, k))
  {
    if k > 0 {
      ResolveKeepsFixedFields(snap, k - 1);
      StepKeepsFixedFields(snap, Resolve(snap, k - 1), k - 1);
    }
  }

  /** An absorption scan never changes a velocity. */
  lemma {:induction false} AbsorptionKeepsVelocities(hits: seq<bool>, live: seq<Body>, i: nat, j: nat)
    requires |live| == |hits| && i < |hits| && j <= |hits|
    requires AllPositive(live)
    decreases |hits| - j
    ensures SameVelocities(live, Scan(Absorption, hits, live, i, j))
  {
    if j < |hits| {
      if j != i && hits[j] {
        var bodies, stopped := HitAbsorption(hits, live, i, j);
        if !stopped {
          AbsorptionKeepsVelocities(hits, bodies, i, j + 1);
          VelocitiesTransitive(live, bodies, Scan(Absorption, hits, bodies, i, j + 1));
        }
      } else {
        SkipCandidate(Absorption, hits, live, i, j);
        AbsorptionKeepsVelocities(hits, live, i, j + 1);
      }
    }
  }

  /** A qualifying candidate of an absorption scan: the bodies after its
      pair, which keep every velocity, and whether the scan stops there. */
  lemma HitAbsorption(hits: seq<bool>, live: seq<Body>, i: nat, j: nat) returns (bodies: seq<Body>, stopped: bool)
    requires |live| == |hits| && i < |hits| && j < |hits| && j != i && hits[j]
    requires AllPositive(live)
    ensures |bodies| == |live| && AllPositive(bodies)
    ensures SameVelocities(live, bodies)
    ensures stopped ==> Scan(Absorption, hits, live, i, j) == bodies
    ensures !stopped ==> Scan(Absorption, hits, live, i, j) == Scan(Absorption, hits, bodies, i, j + 1)
  {
    var p := Pair(Absorption, live, i, j);
    PairVelocities(Absorption, live, i, j);
    PairTouchesOnlyThePair(Absorption, live, i, j);
    bodies, stopped := p.bodies, p.Resolved?;
  }

  lemma VelocitiesTransitive(a: seq<Body>, b: seq<Body>, c: seq<Body>)
    requires SameVelocities(a, b) && SameVelocities(b, c)
    ensures SameVelocities(a, c)
  {
  }

  /** A body that was a black hole at the start of the call only absorbs:
      its turn changes no velocity. */
  lemma BlackholeTurnKeepsVelocities(snap: seq<Body>, live: seq<Body>, i: nat)
    requires |live| == |snap| && i < |snap|
    requires AllPositive(live)
    requires snap[i].classi == Blackhole
    ensures SameVelocities(live, StepFor(snap, live, i))
  {
    AbsorptionKeepsVelocities(Mask(Absorption, snap, i), live, i, 0);
  }

  /** Only the label of the scanning body gates the collision scan: when
      `i` is not a black hole, absorbs nothing, and `j` is the first body
      it touches, `j` gets the opposite of the common velocity whatever its
      own label, a black hole included. */
  lemma PartnerLabelNotChecked(snap: seq<Body>, i: nat, j: nat)
    requires i < |snap| && j < |snap| && i != j
    requires AllPositive(snap) && NoZeroRadius(snap)
    requires snap[i].classi != Blackhole
    requires forall k :: 0 <= k < |snap| && k != i ==> !Triggers(Absorption, snap, i, k)
    requires Triggers(Collision, snap, i, j)
    requires forall k :: 0 <= k < j && k != i ==> !Triggers(Collision, snap, i, k)
    ensures StepFor(snap, snap, i)[j].vel ==
              Neg(CommonVelocity(snap[i].mass, snap[i].vel, snap[j].mass, snap[j].vel))
  {
    QuietScan(Absorption, Mask(Absorption, snap, i), snap, i, 0);
    var cm := Mask(Collision, snap, i);
    ScanFindsFirst(Collision, cm, snap, i, 0);
    assert cm[j];
    assert forall k :: 0 <= k < j && k != i ==> !cm[k];
    assert FirstHit(cm, i, 0) == Some(j);
    PairVelocities(Collision, snap, i, j);
  }

  /** With no zero radius at the start, the division by the winner's radius
      never raises during the whole call. */
  lemma {:induction false} ScanKeepsNoZeroRadius(rule: Rule, hits: seq<bool>, live: seq<Body>, i: nat, j: nat)
    requires |live| == |hits| && i < |hits| && j <= |hits|
    requires AllPositive(live) && NoZeroRadius(live)
    ensures NoZeroRadius(Scan(rule, hits, live, i, j))
  {
    ScanFindsFirst(rule, hits, live, i, j);
    var f := FirstHit(hits, i, j);
    if f.Some? {
      PairKeepsNoZeroRadius(rule, live, i, f.value);
    }
  }

  lemma {:induction false} ResolveKeepsNoZeroRadius(snap: seq<Body>, k: nat)
    requires k <= |snap| && AllPositive(snap) && NoZeroRadius(snap)
    ensures NoZeroRadius(Resolve(snap, k))
  {
    if k > 0 {
      ResolveKeepsNoZeroRadius(snap, k - 1);
      var live := Resolve(snap, k - 1);
      var absorbed := Scan(Absorption, Mask(Absorption, snap, k - 1), live, k - 1, 0);
      ScanKeepsNoZeroRadius(Absorption, Mask(Absorption, snap, k - 1), live, k - 1, 0);
      if snap[k - 1].classi != Blackhole {
        ScanKeepsNoZeroRadius(Collision, Mask(Collision, snap, k - 1), absorbed, k - 1, 0);
      }
    }
  }

  // ---------------------------------------------------------------------
  // Total mass
  // ---------------------------------------------------------------------

  /** The summed mass of bodies `0 .. k-1`. */
  function MassOf(bs: seq<Body>, k: nat): real
    requires k <= |bs|
  {
    if k == 0 then 0.0 else MassOf(bs, k - 1) + bs[k - 1].mass
  }

  function TotalMass(bs: seq<Body>): real {
    MassOf(bs, |bs|)
  }

  lemma {:induction false} MassOfUpdate(bs: seq<Body>, k: nat, b: Body, m: nat)
    requires k < |bs| && m <= |bs|
    ensures MassOf(bs[k := b], m) == MassOf(bs, m) + (if k < m then b.mass - bs[k].mass else 0.0)
  {
    if m > 0 {
      MassOfUpdate(bs, k, b, m - 1);
    }
  }

  lemma TotalMassUpdate(bs: seq<Body>, k: nat, b: Body)
    requires k < |bs|
    ensures TotalMass(bs[k := b]) == TotalMass(bs) - bs[k].mass + b.mass
  {
    MassOfUpdate(bs, k, b, |bs|);
  }

  lemma {:induction false} MassOfSameMasses(a: seq<Body>, b: seq<Body>, m: nat)
    requires |a| == |b| && m <= |a|
    requires forall k :: 0 <= k < |a| ==> a[k].mass == b[k].mass
    ensures MassOf(a, m) == MassOf(b, m)
  {
    if m > 0 {
      MassOfSameMasses(a, b, m - 1);
    }
  }

  lemma TotalMassOfSameMasses(a: seq<Body>, b: seq<Body>)
    requires |a| == |b|
    requires forall k :: 0 <= k < |a| ==> a[k].mass == b[k].mass
    ensures TotalMass(a) == TotalMass(b)
  {
    MassOfSameMasses(a, b, |a|);
  }

  /** Every merge adds exactly the neutral mass to the total: the loser's
      mass is handed over and the loser keeps `1e-10`. */
  lemma MergeAddsNeutral(bs: seq<Body>, w: nat, l: nat)
    requires w < |bs| && l < |bs| && w != l
    ensures TotalMass(Merge(bs, w, l).bodies) == TotalMass(bs) + Neutral
  {
    var gained := bs[w := bs[w].(mass := bs[w].mass + bs[l].mass)];
    TotalMassUpdate(bs, w, gained[w]);
    var massed := gained[l := gained[l].(mass := Neutral)];
    TotalMassUpdate(gained, l, massed[l]);
    TotalMassOfSameMasses(massed, Merge(bs, w, l).bodies);
  }

  /** Every resolved or raising pair adds exactly the neutral mass. */
  lemma PairAddsNeutral(rule: Rule, bs: seq<Body>, i: nat, j: nat)
    requires i < |bs| && j < |bs| && i != j
    requires AllPositive(bs)
    ensures TotalMass(Pair(rule, bs, i, j).bodies) == TotalMass(bs) + Neutral
  {
    var w := Winner(bs, i, j);
    var l := Loser(bs, i, j);
    if rule == Absorption {
      MergeAddsNeutral(bs, w, l);
    } else {
      var cs := Rebounded(bs, i, j);
      ReboundEffect(bs, i, j);
      TotalMassOfSameMasses(bs, cs);
      assert Pair(rule, bs, i, j) == Merge(cs, w, l);
      MergeAddsNeutral(cs, w, l);
    }
  }

  /** A scan never loses mass. */
  lemma {:induction false} ScanKeepsMass(rule: Rule, hits: seq<bool>, live: seq<Body>, i: nat, j: nat)
    requires |live| == |hits| && i < |hits| && j <= |hits|
    requires AllPositive(live)
    decreases |hits| - j
    ensures TotalMass(live) <= TotalMass(Scan(rule, hits, live, i, j))
  {
    if j < |hits| {
      if j != i && hits[j] {
        var bodies, stopped := HitMass(rule, hits, live, i, j);
        if !stopped {
          ScanKeepsMass(rule, hits, bodies, i, j + 1);
        }
      } else {
        SkipCandidate(rule, hits, live, i, j);
        ScanKeepsMass(rule, hits, live, i, j + 1);
      }
    }
  }

  /** A scan adds at most the neutral mass once per candidate it visits. */
  lemma {:induction false} ScanMassBounded(rule: Rule, hits: seq<bool>, live: seq<Body>, i: nat, j: nat)
    requires |live| == |hits| && i < |hits| && j <= |hits|
    requires AllPositive(live)
    decreases |hits| - j, 1
    ensures TotalMass(Scan(rule, hits, live, i, j)) <= TotalMass(live) + Repeated(|hits| - j, Neutral)
  {
    if j == |hits| {
      assert Scan(rule, hits, live, i, j) == live;
    } else if j != i && hits[j] {
      HitMassBounded(rule, hits, live, i, j);
    } else {
      var rest := Repeated(|hits| - (j + 1), Neutral);
      assert Repeated(|hits| - j, Neutral) == rest + Neutral;
      SkipCandidate(rule, hits, live, i, j);
      ScanMassBounded(rule, hits, live, i, j + 1);
    }
  }

  /** The step of `ScanMassBounded` at a candidate whose mask entry is set. */
  lemma {:induction false} HitMassBounded(rule: Rule, hits: seq<bool>, live: seq<Body>, i: nat, j: nat)
    requires |live| == |hits| && i < |hits| && j < |hits| && j != i && hits[j]
    requires AllPositive(live)
    decreases |hits| - j, 0
    ensures TotalMass(Scan(rule, hits, live, i, j)) <= TotalMass(live) + Repeated(|hits| - j, Neutral)
  {
    var rest := Repeated(|hits| - (j + 1), Neutral);
    assert Repeated(|hits| - j, Neutral) == rest + Neutral;
    var bodies, stopped := HitMass(rule, hits, live, i, j);
    if !stopped {
      ScanMassBounded(rule, hits, bodies, i, j + 1);
    }
    StepWithinBudget(TotalMass(live), TotalMass(bodies), TotalMass(Scan(rule, hits, live, i, j)), rest, stopped);
  }

  /** A qualifying candidate: the bodies after its pair, which carry the
      neutral mass more, and whether the scan stops there. */
  lemma HitMass(rule: Rule, hits: seq<bool>, live: seq<Body>, i: nat, j: nat) returns (bodies: seq<Body>, stopped: bool)
    requires |live| == |hits| && i < |hits| && j < |hits| && j != i && hits[j]
    requires AllPositive(live)
    ensures |bodies| == |live| && AllPositive(bodies)
    ensures TotalMass(bodies) == TotalMass(live) + Neutral
    ensures stopped ==> Scan(rule, hits, live, i, j) == bodies
    ensures !stopped ==> Scan(rule, hits, live, i, j) == Scan(rule, hits, bodies, i, j + 1)
  {
    var p := Pair(rule, live, i, j);
    PairAddsNeutral(rule, live, i, j);
    bodies, stopped := p.bodies, p.Resolved?;
  }

  /** The arithmetic of `HitMassBounded`: the pair adds the neutral mass and
      the rest of the scan at most `rest`. */
  lemma StepWithinBudget(before: real, paired: real, after: real, rest: real, stopped: bool)
    requires paired == before + Neutral && 0.0 <= rest
    requires stopped ==> after == paired
    requires !stopped ==> after <= paired + rest
    ensures after <= before + (rest + Neutral)
  {
  }

  /** `b` added up `k` times. */
  function Repeated(k: nat, b: real): (r: real)
    ensures 0.0 <= b ==> 0.0 <= r
  {
    if k == 0 then 0.0 else Repeated(k - 1, b) + b
  }

  lemma {:induction false} RepeatedIsProduct(k: nat, b: real)
    ensures Repeated(k, b) == (k as real) * b
  {
    if k > 0 {
      RepeatedIsProduct(k - 1, b);
      var x := (k - 1) as real;
      assert k as real == x + 1.0;
      assert (x + 1.0) * b == x * b + b;
    }
  }

  /** The most mass one turn can add: the neutral mass once per candidate
      in each of its two scans. */
  function TurnBudget(n: nat): real {
    2.0 * Repeated(n, Neutral)
  }

  /** One turn never loses mass and adds at most `TurnBudget`. */
  lemma StepMassBounds(snap: seq<Body>, live: seq<Body>, i: nat)
    requires |live| == |snap| && i < |snap|
    requires AllPositive(live)
    ensures TotalMass(live) <= TotalMass(StepFor(snap, live, i))
    ensures TotalMass(StepFor(snap, live, i)) <= TotalMass(live) + TurnBudget(|snap|)
  {
    var absorbed := Scan(Absorption, Mask(Absorption, snap, i), live, i, 0);
    ScanKeepsMass(Absorption, Mask(Absorption, snap, i), live, i, 0);
    ScanMassBounded(Absorption, Mask(Absorption, snap, i), live, i, 0);
    if snap[i].classi != Blackhole {
      ScanKeepsMass(Collision, Mask(Collision, snap, i), absorbed, i, 0);
      ScanMassBounded(Collision, Mask(Collision, snap, i), absorbed, i, 0);
    }
  }

  /** Over the first `k` turns the total mass never drops, and grows by at
      most `TurnBudget` per turn. */
  lemma {:induction false} ResolveMassBounds(snap: seq<Body>, k: nat)
    requires k <= |snap| && AllPositive(snap)
    ensures TotalMass(snap) <= TotalMass(Resolve(snap, k))
    ensures TotalMass(Resolve(snap, k)) <= TotalMass(snap) + Repeated(k, TurnBudget(|snap|))
  {
    if k > 0 {
      ResolveMassBounds(snap, k - 1);
      StepMassBounds(snap, Resolve(snap, k - 1), k - 1);
    }
  }

  /** With no zero radius, a scan resolves at most one pair, so it adds at
      most the neutral mass once. */
  lemma ScanAddsAtMostNeutral(rule: Rule, hits: seq<bool>, live: seq<Body>, i: nat)
    requires |live| == |hits| && i < |hits|
    requires AllPositive(live) && NoZeroRadius(live)
    ensures TotalMass(live) <= TotalMass(Scan(rule, hits, live, i, 0)) <= TotalMass(live) + Neutral
  {
    ScanFindsFirst(rule, hits, live, i, 0);
    var f := FirstHit(hits, i, 0);
    if f.Some? {
      PairAddsNeutral(rule, live, i, f.value);
    }
  }

  /** With no zero radius, a turn adds at most twice the neutral mass. */
  lemma StepAddsAtMostTwoNeutral(snap: seq<Body>, live: seq<Body>, i: nat)
    requires |live| == |snap| && i < |snap|
    requires AllPositive(live) && NoZeroRadius(live)
    ensures TotalMass(live) <= TotalMass(StepFor(snap, live, i)) <= TotalMass(live) + 2.0 * Neutral
  {
    var absorbed := Scan(Absorption, Mask(Absorption, snap, i), live, i, 0);
    ScanAddsAtMostNeutral(Absorption, Mask(Absorption, snap, i), live, i);
    if snap[i].classi != Blackhole {
      ScanKeepsNoZeroRadius(Absorption, Mask(Absorption, snap, i), live, i, 0);
      ScanAddsAtMostNeutral(Collision, Mask(Collision, snap, i), absorbed, i);
    }
  }

  /** With no zero radius at entry, the first `k` turns add at most
      `2 k * 1e-10`: a whole call over `n` bodies adds at most `2 n * 1e-10`. */
  lemma {:induction false} ResolveMassTight(snap: seq<Body>, k: nat)
    requires k <= |snap| && AllPositive(snap) && NoZeroRadius(snap)
    ensures TotalMass(snap) <= TotalMass(Resolve(snap, k)) <= TotalMass(snap) + 2.0 * (k as real) * Neutral
  {
    if k > 0 {
      ResolveMassTight(snap, k - 1);
      ResolveKeepsNoZeroRadius(snap, k - 1);
      StepAddsAtMostTwoNeutral(snap, Resolve(snap, k - 1), k - 1);
      assert 2.0 * ((k - 1) as real) * Neutral + 2.0 * Neutral == 2.0 * (k as real) * Neutral;
    }
  }

  /** The budget of a whole call, `n` turns over `n` bodies: `2 n^2` times
      the neutral mass. */
  lemma CallBudget(n: nat)
    ensures Repeated(n, TurnBudget(n)) == 2.0 * (n as real) * (n as real) * Neutral
  {
    var x := n as real;
    RepeatedIsProduct(n, Neutral);
    RepeatedIsProduct(n, TurnBudget(n));
    assert x * (2.0 * (x * Neutral)) == 2.0 * x * x * Neutral;
  }
}
