# Interstellar simulator: the physics kernel in Dafny

This project models the physics step of the Interstellar simulator. It covers three parts:

- `calculate_gravity`, which resolves black-hole absorptions and collisions in place and returns the net gravitational force on every particle.
- The `Particle` record: the quantities derived at construction, and its position update.
- The three driver functions: `add_particle` and `init_particles` fill the particle list, and `update_particles` advances it by one semi-implicit Euler step.

Floats are exact `real`s. `G` and `c` are positive constants. The cube root `** (2/6)` is a function parameter that is only assumed non-negative and monotone.

The model has a value level and an object level:

- **Value level.** A `Body` datatype is the value of one particle. Functions over `seq<Body>` state what one call does:
  - `Gravity.Scan`, `Gravity.StepFor` and `Gravity.Resolve` give the state after the resolutions.
  - `Gravity.Forces` gives the returned forces.
  - `Simulator.Step` gives a whole update.
- **Object level.** The particles are objects of class `Matter.Particle`, and the simulator's list is a field of class `Simulator.Simulation`.
  - `Gravity.CalculateGravity` and the methods under it change particle fields in place, loop by loop.
  - They write the forces into a fresh array row by row.
  - Each is proved equal to the value-level functions.
  - The lemmas in `ResolutionFacts`, `ForceFacts` and `SimulatorFacts` prove what those functions promise.

Modules and files:

| file | module | contents |
|---|---|---|
| `options.dfy` | `Options` | `Option` |
| `vectors.dfy` | `Vectors` | 3-vectors and the element-wise operations used on them |
| `matter.dfy` | `Matter` | constants, `Body`, derived quantities, class `Particle` |
| `gravity.dfy` | `Gravity` | the snapshot tests, pair resolution, scans, forces, the in-place methods |
| `resolution_facts.dfy` | `ResolutionFacts` | what a call does to masses, radii, velocities and fixed fields |
| `force_facts.dfy` | `ForceFacts` | Newton's third law and the balance of the returned forces |
| `sim.dfy` | `Simulator` | `add_particle`, `init_particles`, `update_particles` |
| `sim_facts.dfy` | `SimulatorFacts` | momentum, drift reversal and the fields of one update |

## Model

| member | source | states |
|---|---|---|
| Vectors.FloorDiv | Interstellar/gravity.py:55 | numpy `//` of a vector by a scalar: every component is an integer no larger than the exact quotient and within 1 of it |
| Matter.SchwarzschildRadius | Interstellar/matter.py:21 | `r_s = 2 G m / c^2` is positive exactly when the mass is positive, and zero exactly when the mass is zero |
| Matter.Classify | Interstellar/matter.py:23-26 | the label is `Blackhole` if and only if the mass is at least `1e42` |
| Matter.DerivedRadius | Interstellar/matter.py:30-31 | the radius derived from a non-negative mass is at least 1 |
| Matter.DerivedRadiusMonotone | Interstellar/matter.py:30-31 | a heavier body never gets a smaller derived radius |
| Matter.Particle.constructor | Interstellar/matter.py:18-31 | position, velocity and mass are stored as given; `r_s` and the label come from the mass; an explicit radius is kept verbatim, otherwise the radius is derived |
| Matter.Particle.Update | Interstellar/matter.py:37-38 | the position moves by `dt` times the velocity; velocity, mass, radius, `r_s` and label are unchanged |
| Gravity.WithinMeansCloser | Interstellar/gravity.py:25-28 | for a distance `d`, comparing `d*d` with the squared threshold decides `d < s` and `d <= s` exactly, for thresholds of either sign |
| Gravity.Winner | Interstellar/gravity.py:33-44 | the winner is one of the pair, and it is `i` if and only if `i` is strictly heavier, so `j` wins a tie |
| Gravity.Loser | Interstellar/gravity.py:33-44 | the loser is the other body of the pair |
| Gravity.Pull | Interstellar/gravity.py:73-79 | two bodies at the same position, and a body with itself, pull with zero force |
| Gravity.MergeInPlace | Interstellar/gravity.py:34-36 | the in-place mass move leaves exactly the state `Merge` specifies and reports whether the radius division raised |
| Gravity.TransferInPlace | Interstellar/gravity.py:33-44 | the in-place move to the heavier body agrees with `Transfer` |
| Gravity.ReboundInPlace | Interstellar/gravity.py:55-56 | the in-place velocity rewrite agrees with `Rebounded` |
| Gravity.CollideInPlace | Interstellar/gravity.py:55-68 | a collision in place agrees with `Pair(Collision, ...)` |
| Gravity.Visit | Interstellar/gravity.py:29-46 | one candidate of a scan: when it stops the scan, the state is the scan's result; otherwise the rest of the scan yields the same result |
| Gravity.ScanInPlace | Interstellar/gravity.py:28-46 | the in-place scan loop ends in the state `Scan` specifies, breaking at the first resolved pair |
| Gravity.Turn | Interstellar/gravity.py:28-70 | the two scans of turn `i` take the particles from `Resolve(snap, i)` to `Resolve(snap, i + 1)` |
| Gravity.Turns | Interstellar/gravity.py:22-79 | the loop over `i` leaves every particle as `Resolve` over all indices and every row equal to the net force of the snapshot |
| Gravity.CalculateGravity | Interstellar/gravity.py:3-81 | returns a fresh array of one force per particle, in list order, each from the positions and masses at entry; the particles end as `Resolution` of their values at entry |
| ResolutionFacts.MergeEffect | Interstellar/gravity.py:33-44 | a merge raises if and only if the winner's radius is zero; the winner gains the loser's mass; the loser keeps `1e-10` and, unless raised, has its radius divided by the winner's; no other body changes |
| ResolutionFacts.ReboundEffect | Interstellar/gravity.py:55-56 | `i` gets the common velocity and `j` its opposite; no other body changes |
| ResolutionFacts.ReboundMomentum | Interstellar/gravity.py:53-56 | after the rewrite the pair's momentum is `(m_i - m_j) v_f`, not the `m_i v_i + m_j v_j` the comment at line 53 states |
| ResolutionFacts.ReboundLosesMomentum | Interstellar/gravity.py:53-56 | two bodies of mass 1 both moving at `(1, 0, 0)` have `x`-momentum 2 before the rewrite and 0 after it, so the rewrite breaks the conservation the comment at line 53 states |
| ResolutionFacts.PairTouchesOnlyThePair | Interstellar/gravity.py:31-70 | a pair changes only bodies `i` and `j`, and in them neither position, `r_s` nor label |
| ResolutionFacts.WinnerKeepsStaleSchwarzschild | Interstellar/matter.py:21 | `r_s` is derived from the mass only at construction: a winner whose `r_s` matched its mass ends with an `r_s` short of its new mass's by exactly the loser's, so it no longer matches |
| ResolutionFacts.PairMoves | Interstellar/gravity.py:33-44 | the winner gains the loser's mass and keeps its radius; the loser has mass `1e-10`; the pair raises if and only if the winner's radius is zero; otherwise the loser's radius is divided by the winner's |
| ResolutionFacts.PairVelocities | Interstellar/gravity.py:33-44 | absorption keeps both velocities; a collision gives `i` the floor-divided common velocity and `j` its opposite, whoever wins |
| ResolutionFacts.PairKeepsNoZeroRadius | Interstellar/gravity.py:36 | with no zero radius, a pair never raises and leaves no zero radius |
| ResolutionFacts.FirstHit | Interstellar/gravity.py:29-30 | the first index at or after `j`, other than `i`, whose mask entry is set; every earlier candidate is unset |
| ResolutionFacts.ScanFindsFirst | Interstellar/gravity.py:28-44 | with no zero radius, a scan resolves exactly the first qualifying pair in index order and nothing else; with none, it changes nothing |
| ResolutionFacts.QuietScan | Interstellar/gravity.py:29-30 | a scan with no qualifying candidate changes nothing |
| ResolutionFacts.QuietResolve | Interstellar/gravity.py:22-70 | when no pair qualifies for absorption and none for collision (judged for non-black-hole scanners), the call changes no body |
| ResolutionFacts.ScanKeepsFixedFields | Interstellar/gravity.py:28-70 | a scan, including its raising pairs, keeps every position, `r_s` and label |
| ResolutionFacts.StepKeepsFixedFields | Interstellar/gravity.py:28-70 | a turn keeps every position, `r_s` and label |
| ResolutionFacts.ResolveKeepsFixedFields | Interstellar/gravity.py:22-70 | after the whole call, positions, `r_s` and labels are those at entry: nothing is moved and nothing derived from the mass is recomputed |
| ResolutionFacts.AbsorptionKeepsVelocities | Interstellar/gravity.py:28-46 | an absorption scan changes no velocity |
| ResolutionFacts.BlackholeTurnKeepsVelocities | Interstellar/gravity.py:49 | the turn of a body labelled `Blackhole` at entry changes no velocity, whatever the label of its partners |
| ResolutionFacts.PartnerLabelNotChecked | Interstellar/gravity.py:49-56 | when `i` is not a black hole and absorbs nothing, the first body `j` it touches gets `-v_f` whatever `j`'s own label, a black hole included |
| ResolutionFacts.ScanKeepsNoZeroRadius | Interstellar/gravity.py:36-42 | with no zero radius before a scan, there is none after it |
| ResolutionFacts.ResolveKeepsNoZeroRadius | Interstellar/gravity.py:22-70 | with no zero radius at entry, no division in the call raises and no zero radius appears |
| ResolutionFacts.MergeAddsNeutral | Interstellar/gravity.py:34-35 | one merge raises the total mass by exactly `1e-10` |
| ResolutionFacts.PairAddsNeutral | Interstellar/gravity.py:33-68 | every handled pair, resolved or raising, raises the total mass by exactly `1e-10` |
| ResolutionFacts.ScanKeepsMass | Interstellar/gravity.py:28-70 | a scan never lowers the total mass |
| ResolutionFacts.ScanMassBounded | Interstellar/gravity.py:28-70 | a scan raises the total mass by at most `1e-10` per candidate |
| ResolutionFacts.StepMassBounds | Interstellar/gravity.py:28-70 | a turn never lowers the total mass and raises it by at most `2 n * 1e-10` |
| ResolutionFacts.ResolveMassBounds | Interstellar/gravity.py:22-70 | over the call the total mass never drops and grows by at most the per-turn budget times the number of turns |
| ResolutionFacts.CallBudget | Interstellar/gravity.py:22-70 | that budget for `n` bodies is `2 n^2 * 1e-10` |
| ResolutionFacts.ScanAddsAtMostNeutral | Interstellar/gravity.py:28-46 | with no zero radius, a scan resolves at most one pair, so the total mass grows by at most `1e-10` and never drops |
| ResolutionFacts.StepAddsAtMostTwoNeutral | Interstellar/gravity.py:28-70 | with no zero radius, a turn grows the total mass by at most `2 * 1e-10` and never lowers it |
| ResolutionFacts.ResolveMassTight | Interstellar/gravity.py:22-70 | with no zero radius at entry, the first `k` turns grow the total mass by at most `2 k * 1e-10`, so a call over `n` bodies by at most `2 n * 1e-10` |
| ForceFacts.PullOpposite | Interstellar/gravity.py:73-79 | the pull of `j` on `i` is the opposite of the pull of `i` on `j` |
| ForceFacts.ForcesBalance | Interstellar/gravity.py:73-81 | the returned forces add up to the zero vector |
| ForceFacts.ForcesFromPositionsAndMasses | Interstellar/gravity.py:14-15 | two snapshots with the same positions and masses yield the same forces: radii, velocities and labels play no part |
| Simulator.Spawned | Interstellar/InterstellarSim.py:41-44 | the new body has the given position and mass; with a radius it gets `vx`, `vy` and zero `vz`, without one all three and a derived radius of at least 1; label `Blackhole` if and only if the mass is at least `1e42` |
| Simulator.KickAll | Interstellar/InterstellarSim.py:115-116 | every velocity is increased by its force divided by its current mass, times `dt` |
| Simulator.DriftAll | Interstellar/InterstellarSim.py:118-119 | every particle moves by its velocity times `dt` |
| Simulator.Simulation.constructor | Interstellar/InterstellarSim.py:17-18 | the particle list starts empty and the time step starts at `1e-20` |
| Simulator.Simulation.AddParticle | Interstellar/InterstellarSim.py:41-44 | succeeds exactly when a radius is given or the mass is non-negative, and then appends one fresh particle whose value is `Spawned`, keeping the earlier entries; otherwise the list is unchanged; the time step is kept |
| Simulator.Simulation.InitParticles | Interstellar/InterstellarSim.py:59-64 | appends at most `count` fresh particles, keeping earlier entries; each has integer coordinates inside the margins, a mass between the bounds and the common velocity; it succeeds if and only if it appends all `count`; with `count > 0`, a margin range with no integer makes it add none; drawable ranges and non-negative bounds make it succeed; the time step is kept |
| Simulator.Simulation.UpdateParticles | Interstellar/InterstellarSim.py:114-119 | the list keeps its length and order, and the particles end as `Step` of their values at entry, with the simulation's current `deltaTime` as the step |
| SimulatorFacts.KickMomentumTo | Interstellar/InterstellarSim.py:115-116 | over any prefix, the kick adds `dt` times the sum of the forces to the momentum |
| SimulatorFacts.KickConservesMomentum | Interstellar/InterstellarSim.py:114-116 | the kick leaves the total momentum of the resolved bodies unchanged |
| SimulatorFacts.DriftKeepsMomentum | Interstellar/InterstellarSim.py:118-119 | the drift keeps the total momentum |
| SimulatorFacts.StepMomentum | Interstellar/InterstellarSim.py:114-119 | after an update the total momentum is that left by the resolutions: the forces change no total momentum |
| SimulatorFacts.DriftRoundTrip | Interstellar/matter.py:37-38 | drifting by `dt` and then by `-dt` returns every body to where it was |
| SimulatorFacts.StepFields | Interstellar/InterstellarSim.py:114-119 | after an update each body has its resolved mass and its kicked velocity (force over the resolved mass); its position is its entry position plus `dt` times the new velocity; its `r_s` and label are unchanged |
| SimulatorFacts.StepKeepsPositive | Interstellar/InterstellarSim.py:114-119 | positive masses stay positive through an update, so the next update is defined |
| SimulatorFacts.QuietStep | Interstellar/InterstellarSim.py:114-119 | with no qualifying pair, an update is a kick by the snapshot forces followed by a drift |
| SimulatorFacts.RadiusDoesNotClassify | Interstellar/matter.py:23-29 | for any positive mass, an explicit radius of half `r_s` and one of twice `r_s` give the same label, the one the mass alone gives |

## Left out

- Rendering, the window, the event loop and key handling (`draw_matters`, `update_win`, `runner`) are not part of this model. `draw_matters` re-sorts the list by depth between steps; the model takes each step's input order as given.
- `samples` is not part of this model: it picks a scene preset by running a string with `exec`.
- The field-overlay grids `r`, `theta`, `R` and `THETA`, and the colour, are not modelled. They are rendering-only.
- Floating point is not modelled: rounding, overflow, `inf` and `nan` are absent, and reals stand in for floats.
- The zero-distance force uses a factor of 0 in place of `nan_to_num(inf)`. Both give a zero contribution, because the direction vector is zero.
- `G` and `c` come from a module that is not part of this model. They are constants with their SI values, and the proofs use only their positivity.
- The cube root is a parameter `cbrt` that is assumed non-negative and monotone on non-negative reals. Its values are not computed.
- Random draws are nondeterministic choices within the drawn ranges, so no particular sequence of draws is modelled.
- `deltaTime` is a field of `Simulation` that starts at `1e-20`; `UpdateParticles` uses whatever value it holds. The key handling that halves it, multiplies it by 1.5 or resets it belongs to the event loop.
- The source's `print` calls are left out.
- Positions and velocities are values of a `Vec3` datatype, not numpy arrays shared by reference. No two particles share an array in the source, so nothing observable is lost.
- Gravity.CalculateGravity requires every mass to be positive. This is a simplification shared with `update_particles`. Every row of the force computation (`Interstellar/gravity.py:73`) divides by the zero self-distance; `nan_to_num` makes that entry finite, and it multiplies a zero direction, which the model's zero factor reproduces for any masses. A zero winner radius divides by zero in the mass move, which the model keeps as a raising pair. The only mass-driven fault is a collision whose masses sum to zero (`Interstellar/gravity.py:55`).
- Simulator.Simulation.UpdateParticles requires every mass to be positive. It divides each force by the resolved mass, so a zero mass there gives `inf` or `nan`, which reals cannot represent.
- Matter.Particle.constructor requires a radius or a non-negative mass. Otherwise the source raises a TypeError; `Simulator.Simulation.AddParticle` models that failure as `ok == false`.
- Simulator.Spawned requires a radius or a non-negative mass, for the same reason.
- Simulator.Simulation.InitParticles models a failed draw or a raising constructor as `ok == false`, with the particles added before it kept. The exception itself is not modelled.

## Behaviour worth noting

The model follows the code in each of these:

- Equal masses go to `j`, not to the lower index (`Winner`).
- Only `i`'s classification at entry gates the collision scan (`BlackholeTurnKeepsVelocities`). The label of the body it touches is not checked, so a black hole can be rebounded by a lighter body (`PartnerLabelNotChecked`).
- `r_s` and the classification are never recomputed after mass moves (`ResolveKeepsFixedFields`), so a winner's `r_s` no longer matches its mass (`WinnerKeepsStaleSchwarzschild`).
- Radii are not clamped: a zero winner radius raises, and the pair's mass move is kept.
- Each handled pair raises the total mass by `1e-10`, including raising pairs (`PairAddsNeutral`).
- The common velocity uses floor division (`FloorDiv`).
- The comment at `Interstellar/gravity.py:53` states the impulse law `m1v1 + m2v2 = m1vf + m2vf`. The code gives `j` the velocity `-v_f`, so the pair's momentum becomes `(m_i - m_j) v_f` (`ReboundMomentum`), and two equal bodies moving together lose all their momentum (`ReboundLosesMomentum`).
- A pair can be handled twice in one call, once from each side: the scan of `j` does not skip bodies already handled.
- `add_particle` drops `vz` when a radius is given.
- The `add_particle` docstring at `Interstellar/InterstellarSim.py:35-37` says a radius below `r_s` creates a black hole. That holds only for drawing: with the field overlay on, `draw_matters` omits the body's own circle when `r_s // 4e15` is not below the radius (`Interstellar/InterstellarSim.py:147-149`), and rendering is not part of this model. The `classi` label, which gates collisions, depends on the mass alone (`RadiusDoesNotClassify`).
- A zero mass, or any mass with an explicit radius, is accepted at construction. Only a negative mass without a radius raises.
