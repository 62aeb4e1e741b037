# water-sandbox fluid core in Dafny

This project models the core of *water-sandbox*, a 2D fluid simulator built on
Smoothed Particle Hydrodynamics (SPH), and proves properties of the model.
Each particle carries a position, a velocity, an acceleration, a predicted
position, and the density and pressure values the density pass computes. One
CPU tick has three passes:

- integrate the positions, with damped collisions against a rectangular
  container;
- sum smoothing-kernel weights over the neighbours to get density and near
  density, then turn them into pressure and near pressure;
- accumulate the pressure and viscosity forces into each particle's
  acceleration.

Around that tick the project models:

- the five smoothing kernels;
- the container's extents;
- the grid that seeds the initial particle block;
- the keyboard-driven live tuning of the parameters;
- the host-side scheduling of the GPU variant: workgroup batching, the
  initial buffers, the stage list of the bitonic sorting network, and the
  buffer reset on Space.

How the source maps onto Dafny:

- **Numbers.** `f32` values are exact `real`s. `u32` is the subset type
  `FluidCompute.U32`, so every `u32` value is checked to fit in 32 bits.
  `powi` is repeated multiplication. `PI` is a positive constant.
- **Square roots.** `sqrt` is never computed. The distances between
  predicted positions come in as a table `dist`. Each entry is non-negative,
  is zero exactly for coincident points, and squares to the squared distance
  (`Fluid.IsDistanceTable`).
- **Particle components.** The engine stores them as separate components.
  In `Fluid.FluidWorld` they are parallel sequences. The three passes are
  methods with loops, proved against specification functions
  (`IntegrateParticle`, `DensityAndPressure`, `Acceleration`).
- **Live tuning.** The tunable resources form the class `Hud.Tunables`. The
  pressed keys are a set.
- **Worker buffers.** The GPU worker's buffers form the class
  `FluidCompute.FluidWorkerBuffers`.

Modules:

- `Vectors` (vectors.dfy) holds `Vec2`, `Vec3` and `Vec4`.
- `Smoothing` (smoothing.dfy) holds the kernels.
- `Container` (fluid_container.dfy) holds the container.
- `Helpers` (helpers.dfy) holds the grid seeding.
- `Fluid` (fluid.dfy) holds the tick.
- `FluidCompute` (fluid_compute.dfy) holds the GPU scheduling.
- `Hud` (hud.dfy) holds the live tuning.

## Model

| member | source | states |
|---|---|---|
| Smoothing.Powi | src/smoothing.rs:11 | `radius.powi(k)` as k-fold multiplication; it is positive for a positive base |
| Smoothing.Volume | src/smoothing.rs:11 | the normalisation `numerator / (PI * radius^k)` of each kernel is positive for a positive radius |
| Smoothing.SmoothingKernel | src/smoothing.rs:7-14 | the density kernel is non-negative, and positive exactly strictly inside the radius |
| Smoothing.SmoothingKernelDerivative | src/smoothing.rs:17-25 | the density slope is non-positive, and negative exactly strictly inside the radius |
| Smoothing.SmoothingKernelNear | src/smoothing.rs:28-35 | the near kernel is non-negative, and positive exactly strictly inside the radius |
| Smoothing.SmoothingKernelDerivativeNearAsWritten | src/smoothing.rs:38-47 | the near slope as written (it squares `distance - radius`) is non-negative, and positive exactly strictly inside the radius |
| Smoothing.SmoothingKernelDerivativeNear | src/smoothing.rs:38-47 | the corrected near slope is the negation of the as-written one: non-positive, and negative exactly strictly inside the radius |
| Smoothing.SmoothingKernelViscosity | src/smoothing.rs:49-56 | the viscosity kernel is zero from the radius on; for distances from -radius up it is non-negative, and positive exactly when -radius < distance < radius |
| Smoothing.KernelsVanishFromCutoff | src/smoothing.rs:7-56 | all five kernels are 0 at the radius and beyond, so each is continuous at the cutoff |
| Smoothing.SmoothingKernelDecreasing | src/smoothing.rs:11-13 | the density kernel strictly decreases in the distance up to the radius |
| Smoothing.SmoothingKernelNearDecreasing | src/smoothing.rs:32-34 | the near kernel strictly decreases in the distance up to the radius |
| Smoothing.SmoothingKernelDerivativeIsSlope | src/smoothing.rs:11-13 | the kernel's change over a step h equals h times the derivative kernel plus a term of order h^2, so it is the exact derivative |
| Smoothing.SmoothingKernelDerivativeNearIsSlope | src/smoothing.rs:32-34 | the corrected near slope is the exact derivative of the near kernel |
| Smoothing.DerivativeNearAsWrittenIsNegatedSlope | src/smoothing.rs:44-46 | the near slope as written is the derivative of the near kernel with its sign flipped |
| Smoothing.DerivativeNearAsWrittenWrongSignAtOrigin | src/smoothing.rs:38-47 | concrete witness: at radius 1 the near kernel falls from 0 to 0.5, yet the as-written slope at 0 is positive and the corrected one negative |
| Smoothing.NearSlopeAsWrittenOppositeToDensitySlope | src/smoothing.rs:23-24 | inside the radius the density slope is negative while the as-written near slope is positive |
| Container.Default | src/fluid_container.rs:38-41 | the default container sits at the origin with size (800, 640) |
| Container.GetExtents | src/fluid_container.rs:28-34 | max - min equals the size on each axis, and the midpoint of the corners is the position |
| Container.ExtentsOrderedIffSizeNonNegative | src/fluid_container.rs:28-34 | min <= max on both axes exactly when the size is non-negative |
| Container.PositionInsideExtents | src/fluid_container.rs:28-34 | a box of non-negative size contains its centre |
| Container.DefaultExtents | src/fluid_container.rs:5-6 | the default extents are (-400, -320) to (400, 320) |
| Container.ExtentsTranslate | src/fluid_container.rs:28-34 | moving the container moves both corners by the same offset |
| Helpers.CubeFluid | src/helpers.rs:3-17 | exactly ni * nj points; point k is the centre of cell (k / nj, k % nj), that is ((2i + 1 - ni) r, (2j + 1 - nj) r) |
| Helpers.RowMajorIndex | src/helpers.rs:8-13 | i * nj + j recovers i by division and j by remainder |
| Helpers.CellAtRowMajorIndex | src/helpers.rs:8-13 | cell (i, j) of the block sits at index i * nj + j |
| Helpers.NeighboursOneDiameterApart | src/helpers.rs:9-12 | neighbouring cells are exactly one diameter 2r apart along one axis and aligned on the other |
| Helpers.BlockCentredOnOrigin | src/helpers.rs:5-12 | the cell mirrored through the centre is the negated point |
| Helpers.BlockFitsHalfExtents | src/helpers.rs:5-6 | every particle disc lies inside [-ni r, ni r] x [-nj r, nj r] |
| Fluid.CollisionBounds | src/fluid.rs:157-160 | the allowed box for particle centres is non-empty along an axis exactly when the container is at least one particle diameter (2 × radius) wide along it |
| Fluid.CentreInBoundsKeepsDiscInside | src/fluid.rs:157-160 | a centre inside the allowed box keeps the particle's whole disc, radius on every side, inside the container's extents |
| Fluid.CollideAxis | src/fluid.rs:173-187 | after the collision the coordinate lies within non-empty bounds, and it is the old coordinate or one of the bounds |
| Fluid.CollideAxisInBoundsUnchanged | src/fluid.rs:173-187 | a coordinate within the bounds keeps its position and velocity |
| Fluid.CollideAxisOutOfBounds | src/fluid.rs:173-187 | a coordinate below (above) the bounds is set to the violated bound, and its velocity becomes -damping times its old value |
| Fluid.CollideAxisIdempotent | src/fluid.rs:173-187 | colliding again with non-empty bounds changes nothing |
| Fluid.CollideAxisDoesNotGainSpeed | src/fluid.rs:174-186 | with damping in [0, 1] a collision never increases the speed along the axis; with damping below 1 a moving particle that bounces strictly loses speed |
| Fluid.CollideAxisBouncesInward | src/fluid.rs:174-186 | with positive damping, a particle that crossed a bound while moving outward moves back inward |
| Fluid.FreeFlight | src/fluid.rs:169-170 | mass times the velocity change is (gravity + acceleration) dt, and the displacement is the new velocity times dt |
| Fluid.IntegrateParticle | src/fluid.rs:169-190 | the final position is within the bounds on each axis whose bounds are non-empty; predicted = position + velocity / 60 |
| Fluid.IntegrateXIndependent | src/fluid.rs:169-187 | the x results (position, velocity, prediction) depend only on the x inputs |
| Fluid.IntegrateYIndependent | src/fluid.rs:169-187 | the y results depend only on the y inputs |
| Fluid.IntegrateWithoutCollision | src/fluid.rs:169-187 | when the free flight stays inside the bounds, integration is just the free flight |
| Fluid.CollideOnAxis | src/fluid.rs:173-187 | the collision branch on one axis, written as assignments, yields CollideAxis |
| Fluid.IntegrateOne | src/fluid.rs:169-190 | the loop body for one particle (velocity, translation, both collision branches, prediction) yields IntegrateParticle |
| Fluid.FluidWorld.Spawn | src/fluid.rs:121-147 | one particle at rest at each seeded point, every other component zero |
| Fluid.FluidWorld.IntegratePositions | src/fluid.rs:150-192 | every particle's translation, velocity and predicted position become those of IntegrateParticle against CollisionBounds; acceleration and density results are untouched |
| Fluid.DensityTerm | src/fluid.rs:207-212 | a neighbour's weight is non-negative, and positive exactly strictly inside the smoothing radius |
| Fluid.KernelSum | src/fluid.rs:205-213 | the raw kernel sum is non-negative |
| Fluid.KernelSumAtLeastTerm | src/fluid.rs:205-213 | the sum is at least any single neighbour's term |
| Fluid.KernelSumIgnoresFarNeighbours | src/fluid.rs:207-209 | neighbours beyond the smoothing radius do not change the sum |
| Fluid.DensityAtLeastPadding | src/fluid.rs:216-219 | with mass >= 0 both densities are at least DENSITY_PADDING, hence positive |
| Fluid.DensityIncludesSelf | src/fluid.rs:205-216 | the particle counts itself at distance 0: density >= mass * smoothing_kernel(r, 0) + padding |
| Fluid.NearDensityIncludesSelf | src/fluid.rs:205-219 | near density >= mass * smoothing_kernel_near(r, 0) + padding |
| Fluid.DensityIgnoresFarNeighbours | src/fluid.rs:207-220 | a particle's density results depend only on its neighbours within the smoothing radius |
| Fluid.PressureSign | src/fluid.rs:217-220 | with a positive scalar the pressure is positive (negative) exactly when the density is above (below) target; the near pressure has the sign of the near density |
| Fluid.NearPressurePositive | src/fluid.rs:219-220 | after the density pass (mass >= 0, positive near scalar) the near pressure is positive |
| Fluid.ParticleDensityAndPressure | src/fluid.rs:200-221 | the neighbour loop with its cutoff `continue` computes DensityAndPressure of the particle's distance row |
| Fluid.FluidWorld.UpdateDensityAndPressure | src/fluid.rs:195-222 | every particle's properties become DensityAndPressure of its distances to all particles (itself included); nothing else changes |
| Fluid.SelfDistanceZero | src/fluid.rs:206 | in a distance table every particle is at distance 0 from itself |
| Fluid.DensityPassEnablesForcePass | src/fluid.rs:216-219 | after the density pass (mass >= 0) every density is non-zero, so the force pass's divisions are defined, and every density counts the particle itself |
| Fluid.SharedPressure | src/fluid.rs:264 | the shared pressure is the midpoint of the two pressures |
| Fluid.SharedPressureSymmetric | src/fluid.rs:264-268 | the shared pressure is the same from either side and lies between the two |
| Fluid.CoincidentDirectionIsUnitY | src/fluid.rs:255-259 | at zero distance the direction is +Y |
| Fluid.DirectionIsUnit | src/fluid.rs:251-257 | at a positive distance the direction is a unit vector |
| Fluid.ContributionAlongOffset | src/fluid.rs:255-271 | a pressure term lies along the offset to the neighbour, scaled by mass * shared * slope / (distance * density) |
| Fluid.ContributionSign | src/fluid.rs:262-271 | at a positive distance equal to the offset's length, with positive mass, shared pressure and density, a negative slope pushes away from the neighbour and a positive slope pulls towards it |
| Fluid.PressureTermsRepel | src/fluid.rs:262-271 | under compression the density term and the corrected near term both push away from a neighbour strictly inside the radius |
| Fluid.NearPressureAsWrittenAttracts | src/fluid.rs:266-271 | with the near slope as written the near term pulls towards the neighbour |
| Fluid.NearSlopeAt | src/fluid.rs:267 | the near slope the pass uses: as written it is non-negative, corrected non-positive, and either is non-zero exactly inside the radius |
| Fluid.NearTermDirectionInPass | src/fluid.rs:262-271 | for a neighbour inside the radius with zero shared pressure and positive shared near pressure, one neighbour's pressure force as written points towards the neighbour and with the corrected slope away from it |
| Fluid.ViscosityPairAntisymmetric | src/fluid.rs:273-275 | what j adds to i's viscosity force is the negation of what i adds to j's, with either near slope |
| Fluid.IsolatedParticleFeelsNoForce | src/fluid.rs:246-253 | a particle with no other particle within the smoothing radius accumulates no force, with either near slope |
| Fluid.ForceSumIgnoresSkipped | src/fluid.rs:246-253 | the forces do not depend on the skipped neighbours (itself, and those beyond the radius), with either near slope |
| Fluid.NeighbourTerms | src/fluid.rs:255-275 | one neighbour's pressure and viscosity terms, computed step by step with the near slope as written, equal NeighbourForces of kind AsWritten |
| Fluid.ParticleAcceleration | src/fluid.rs:236-277 | the neighbour loop, skipping itself and far neighbours, yields Acceleration with the near slope as written: pressure force / own density + viscosity force * strength |
| Fluid.FluidWorld.UpdatePressureForce | src/fluid.rs:225-279 | every particle's acceleration becomes Acceleration (near slope as written) over the unchanged velocities, properties and predicted positions |
| FluidCompute.GetBatchSize | src/fluid_compute.rs:228-234 | the least b with b * 1024 >= n, i.e. ceil(n / 1024); it is 0 exactly when n is 0 |
| FluidCompute.CreateInitialIndexBuffer | src/fluid_compute.rs:241-247 | length n, entry i is i |
| FluidCompute.IdentityIsPermutation | src/fluid_compute.rs:241-247 | every index below n occurs exactly once and nothing else occurs |
| FluidCompute.MakeVecFromPositions | src/fluid_compute.rs:119-129 | one particle per point, in order, at the point with w = 0 and predicted there, every other component zero |
| FluidCompute.NextPowerOfTwo | src/fluid_compute.rs:250-253 | the least power of two that is at least n (1 for n = 0) |
| FluidCompute.CheckedNextPowerOfTwo | src/fluid_compute.rs:250-253 | when present, equals the next power of two |
| FluidCompute.CheckedNextPowerOfTwoFails | src/fluid_compute.rs:250-253 | the check fails exactly for n > 2^31 |
| FluidCompute.InputLength | src/fluid_compute.rs:250-253 | for n <= 2^30 the padded length is the least power of two that is at least n |
| FluidCompute.AppendBlockStages | src/fluid_compute.rs:258-266 | the inner loop appends, numbered on from uniform_id, exactly the steps for block dim/2, dim/4, ..., 1 of the current dim, so the stages keep following the schedule |
| FluidCompute.GetBitSorterStages | src/fluid_compute.rs:249-271 | one stage per step of the network over the padded length, in order; stage i is dispatched as [batch_size, 1, 1] and named `bit_sorter_{i+1}` |
| FluidCompute.NoStagesForTinyInput | src/fluid_compute.rs:250-257 | n <= 1 pads to 1 and has no stages |
| FluidCompute.ScheduleLength | src/fluid_compute.rs:257-268 | over 2^k elements the network has exactly k(k+1)/2 stages |
| FluidCompute.Log2 | src/fluid_compute.rs:250-253 | every power of two is 2^k for the returned k |
| FluidCompute.StageCount | src/fluid_compute.rs:250-268 | for n <= 2^30 elements the sorter has k(k+1)/2 stages, where 2^k is the padded length |
| FluidCompute.ScheduleBounds | src/fluid_compute.rs:257-265 | every dim is a power of two with 2 <= dim <= L; every block is a power of two with 1 <= block <= dim / 2 |
| FluidCompute.ScheduleOrdered | src/fluid_compute.rs:257-268 | within a dim the block halves down to 1; after block 1 the dim doubles and the block restarts at dim / 2; the first stage is (1, 2) |
| FluidCompute.ScheduleStepsDistinct | src/fluid_compute.rs:257-268 | later stages have a larger dim or the same dim and a smaller block, so no step repeats |
| FluidCompute.UniformNamesDistinct | src/fluid_compute.rs:263 | distinct stage numbers give distinct uniform names |
| FluidCompute.DecimalStringInjective | src/fluid_compute.rs:263 | distinct numbers have distinct decimal renderings |
| FluidCompute.FluidWorkerBuffers.DespawnLiquid | src/fluid_compute.rs:503-523 | without a fresh Space press or a ready worker nothing changes; otherwise the state switches to GameOver and the buffers are rewritten from the stored initial positions alone to exactly what `build` created (`AsBuilt`: the particles at the initial positions, all three index buffers the identity of length `len as u32`); buffers that were as built are left unchanged, and every buffer keeps its length |
| FluidCompute.ResetsAgree | src/fluid_compute.rs:515-522 | two resets from the same initial positions write identical contents, whatever the buffers held before |
| FluidCompute.ResetRestoresBuild | src/fluid_compute.rs:284-306 | any two buffer sets as built from the same initial positions hold the same contents, so the state after a reset equals the one `build` created, the GameOver flag aside |
| FluidCompute.FluidWorkerBuffers.constructor | src/fluid_compute.rs:284-306 | the buffers `build` creates and the initial positions it keeps in `FluidParticlesInitial` (src/fluid_compute.rs:287-288): the particle buffer from those positions, and the identity index buffer of length `len as u32` given to all three index buffers (`AsBuilt`), each buffer at its creation length (`Sized`); the game is not over |
| Hud.FirstApplicable | src/hud.rs:121-141 | the position of the first key in the fixed order that is held and passes its guard; every earlier key fails |
| Hud.UpdatedAsNudges | src/hud.rs:121-141 | the first-applicable-key effect equals the chain that tests Digit1 (with its guard), Digit2, ..., X in turn and nudges the first held one |
| Hud.Tunables.UpdateFluidProps | src/hud.rs:116-143 | the if/else-if chain has the effect of the first applicable key in order, or none |
| Hud.AtMostOneParameterChanges | src/hud.rs:121-141 | at most one parameter changes per call |
| Hud.UntunedFieldsUnchanged | src/hud.rs:121-141 | mass, radius, damping, viscosity and horizontal gravity never change |
| Hud.KeyEffect | src/hud.rs:10 | the applied key's parameter moves by exactly 0.05 in its direction; all others keep their values |
| Hud.SmoothingRadiusStaysPositive | src/hud.rs:121-124 | a positive smoothing radius stays positive |
| Hud.FirstKeyWins | src/hud.rs:121-141 | a key takes effect exactly when it is held, passes its guard, and no earlier key does |
| Hud.Digit1FallsThrough | src/hud.rs:121-124 | Digit1 at radius 0.05 fails its guard, so a held Digit2 raises the radius to 0.1 |
| Hud.GravityKeysTouchOnlyGravityY | src/hud.rs:125-128 | Digit3 and Digit4 change only gravity.y, by one step |
| Hud.NoListedKeyNoChange | src/hud.rs:121-141 | with none of the listed keys held nothing changes |
| Hud.Tunables.constructor | src/fluid.rs:80-91 | the tunables start at the default static properties and at the default gravity (0, -10) of src/gravity.rs:17-21 |

## Left out

- Rendering, meshes, materials, gizmos, `update_color`, the HUD text, the menu, the camera and the engine plugins are left out: they have no logic to state.
- The GPU side is left out: the WGSL shaders (hashing, bitonic sort, cell offsets, density, force, integrate) and the worker's pass wiring. Only the host-side arithmetic that feeds them is modelled.
- `FluidStaticProps::get_smoothing_kernel` (src/fluid_compute.rs:55-63) is left out: it is only float normalisation constants for the shaders.
- `FluidWorker::build` (src/fluid_compute.rs:276-363): only its buffer initialisation (lines 284-306) is modelled, by `FluidCompute.FluidWorkerBuffers.constructor`. The uniform and pass wiring is left out, and so are the three-dimensional `cube_fluid` and `FluidContainer::get_ext` it calls, which are not part of this model; the constructor takes the initial positions as a parameter. The `setup` and `update` systems are left out. `setup` spawns the particle meshes. `update` copies the particle positions back into the transforms, and it also writes the `fluid_props`, `smoothing_kernel` and `gravity` uniforms to the worker every frame (src/fluid_compute.rs:477-479); that is the path by which values tuned in `Hud.Tunables` reach the GPU passes, and the model does not connect the two.
- `f32` rounding, NaN and infinities are not modelled: all arithmetic is on exact reals. `PI` is a rational constant, and only PI > 0 is used.
- Distances and `length()` come in as an input table (`Fluid.IsDistanceTable`). The table is not proved symmetric, and no momentum-conservation claim is made for the summed forces.
- Frame time, keyboard state and worker readiness are parameters: `dt`, the set of pressed keys, and the `spaceJustPressed` / `workerReady` flags.
- `par_iter_mut` runs sequentially in the model. Each particle's writes are disjoint, so order does not matter.
- Translation is modelled in xy only. The z coordinate is never changed by the tick, since `velocity.extend(0.)` adds nothing to it.
- Where the source adds two pressure terms one by one, the model adds them together. The two agree over exact reals.
- Despawning the CPU particles (`despawn_liquid` in src/fluid.rs:301-317) is left out: it only removes entities and sets the game state.
- The tick's system schedule is left out. That covers the order of the three passes and the game-state gating.
- `GameState` is a boolean `gameOver` flag. `write_slice` is modelled as a full overwrite. That is exact because each reset writes data of the length the buffer was created with: `FluidWorkerBuffers.Sized` holds after the constructor and is kept by `DespawnLiquid`.
- Fluid.FluidWorld.IntegratePositions: requires a non-zero mass, since the source divides by it. With a zero mass the source would produce infinities.
- Fluid.FreeFlight: requires a non-zero mass, as above.
- Fluid.IntegrateParticle: requires a non-zero mass, as above.
- Fluid.FluidWorld.UpdatePressureForce: requires non-zero densities, since the source divides by them. Fluid.DensityPassEnablesForcePass shows the density pass guarantees this whenever mass >= 0.
- Fluid.ParticleAcceleration: requires non-zero densities, as above.
- Fluid.NeighbourTerms: requires non-zero neighbour densities, as above.
- Fluid.FluidWorld.UpdateDensityAndPressure: requires a positive smoothing radius. A radius of at most 0 never occurs: the default is 0.2, and Hud.SmoothingRadiusStaysPositive shows the live tuning keeps it positive. At radius 0 and distance 0 the source would divide by zero; for a negative radius every distance is beyond it and the kernels return 0, a case the model does not cover.
- Smoothing.SmoothingKernel: requires radius > 0, for the reasons just given (an unreachable case, and a division by zero at radius 0). The same holds for the other four kernels, Smoothing.Volume, Fluid.DensityTerm, Fluid.KernelSum and Fluid.DensityAndPressure.
- FluidCompute.GetBitSorterStages: requires at most 2^30 elements. Beyond that, `dim <<= 1` wraps `u32` to 0 and the source loop never ends.

## Findings

`smoothing_kernel_derivative_near` squares `distance - radius`, so its sign
can never be negative. It is the negation of the derivative of
`smoothing_kernel_near`. In `update_pressure_force` the near-pressure term
therefore pulls neighbours together, although near pressure, like the density
pressure with its negative slope, is meant to be short-range repulsion.

The model keeps the as-written function, with lemmas that exhibit the error.
The force pass functions take the near slope's kind (`Fluid.NearSlope`): the
methods that model `update_pressure_force` use the slope as written, and
`Fluid.NearTermDirectionInPass` shows that this pass pulls a close neighbour in
where the corrected pass pushes it away.

| source | as written | input that shows it | evidently intended | confidence | as-written member | corrected member |
|---|---|---|---|---|---|---|
| src/smoothing.rs:38-47 | returns `(distance - radius)^2 * 30 / (PI radius^5)`, which is >= 0 | radius 1, distance 0: the near kernel falls (value at 0.5 < value at 0), yet the returned slope is positive (`Smoothing.DerivativeNearAsWrittenWrongSignAtOrigin`); in the force pass the near term then attracts (`Fluid.NearPressureAsWrittenAttracts`) | `-(radius - distance)^2 * 30 / (PI radius^5)`, the true derivative, <= 0, so that near pressure repels | high (not executed) | Smoothing.SmoothingKernelDerivativeNearAsWritten | Smoothing.SmoothingKernelDerivativeNear |
