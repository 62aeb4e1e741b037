/**
 * The CPU side of one SPH tick: integrating positions with wall collisions,
 * the density and pressure pass, and the pressure / viscosity force pass.
 *
 * The engine stores each particle's data as separate components; here they
 * are parallel sequences in one `FluidWorld`, index i being particle i.  The
 * passes run over every particle in turn.  Square roots are not computed: the
 * distances between predicted positions are given as a table `dist` whose
 * entries are non-negative and square to the squared distances.
 */
module Fluid {
  import opened Vectors
  import opened Smoothing
  import opened Container

  const PARTICLE_RADIUS: real := 0.05
  const PARTICLE_COLLISION_DAMPING: real := 0.95
  const PARTICLE_MASS: real := 1.0
  const PARTICLE_SMOOTHING_RADIUS: real := 0.2
  const PARTICLE_TARGET_DENSITY: real := 10.0
  const PARTICLE_PRESSURE_SCALAR: real := 30.0
  const PARTICLE_NEAR_PRESSURE_SCALAR: real := 1.0
  const PARTICLE_VISCOSITY_STRENGTH: real := 0.1
  /** How far ahead (in seconds) the predicted position looks: one 60 Hz frame. */
  const PARTICLE_LOOKAHEAD_SCALAR: real := 1.0 / 60.0

  /** The simulation-wide particle parameters (a shared resource, editable from the HUD). */
  datatype FluidProps = FluidProps(
    radius: real,
    collisionDamping: real,
    mass: real,
    smoothingRadius: real,
    targetDensity: real,
    pressureScalar: real,
    nearPressureScalar: real,
    viscosityStrength: real)

  const DEFAULT_FLUID_PROPS: FluidProps := FluidProps(
    PARTICLE_RADIUS, PARTICLE_COLLISION_DAMPING, PARTICLE_MASS, PARTICLE_SMOOTHING_RADIUS,
    PARTICLE_TARGET_DENSITY, PARTICLE_PRESSURE_SCALAR, PARTICLE_NEAR_PRESSURE_SCALAR,
    PARTICLE_VISCOSITY_STRENGTH)

  /** Per-particle results of the density pass. */
  datatype ParticleProps = ParticleProps(density: real, nearDensity: real, pressure: real, nearPressure: real)

  const ZERO_PROPS: ParticleProps := ParticleProps(0.0, 0.0, 0.0, 0.0)

  // ---------------------------------------------------------------------
  // Integration and collisions
  // ---------------------------------------------------------------------

  /**
   * The box a particle centre may occupy: the container's extents shrunk by
   * the particle radius.  It is non-empty along an axis exactly when the
   * container is at least one particle diameter wide there.
   */
  function CollisionBounds(container: FluidContainer, radius: real): (b: (Vec2, Vec2))
    ensures b.0.x <= b.1.x <==> container.size.x >= 2.0 * radius
    ensures b.0.y <= b.1.y <==> container.size.y >= 2.0 * radius
  {
    var (extMin, extMax) := GetExtents(container);
    var radVec := Vec2(1.0, 1.0).Scaled(radius);
    (extMin.Plus(radVec), extMax.Minus(radVec))
  }

  /** A centre inside the collision bounds keeps the particle's whole disc inside the container. */
  lemma CentreInBoundsKeepsDiscInside(container: FluidContainer, radius: real, c: Vec2)
    requires radius >= 0.0
    requires InBox(c, CollisionBounds(container, radius).0, CollisionBounds(container, radius).1)
    ensures var (lo, hi) := GetExtents(container);
            InBox(Vec2(c.x - radius, c.y - radius), lo, hi) && InBox(Vec2(c.x + radius, c.y + radius), lo, hi)
  {
  }

  /**
   * Collision handling along one axis: a coordinate below `lo` or above `hi`
   * is put on that bound and its velocity is reflected and damped.  The result
   * is (position, velocity).
   */
  function CollideAxis(p: real, v: real, lo: real, hi: real, damping: real): (r: (real, real))
    ensures lo <= hi ==> lo <= r.0 <= hi
    ensures r.0 == p || r.0 == lo || r.0 == hi
  {
    if p < lo then (lo, v * (-1.0 * damping))
    else if p > hi then (hi, v * (-1.0 * damping))
    else (p, v)
  }

  /**
   * The step before collisions: (position, velocity) after the velocity picks
   * up (gravity + acceleration) / mass over dt and the position moves by the
   * new velocity over dt (semi-implicit Euler).
   */
  function FreeFlight(fp: FluidProps, gravity: Vec2, dt: real,
                      position: Vec2, velocity: Vec2, acceleration: Vec2): (r: (Vec2, Vec2))
    requires fp.mass != 0.0
    ensures r.1.Minus(velocity).Scaled(fp.mass) == gravity.Plus(acceleration).Scaled(dt)
    ensures r.0.Minus(position) == r.1.Scaled(dt)
  {
    var v := velocity.Plus(gravity.Plus(acceleration).DividedBy(fp.mass).Scaled(dt));
    (position.Plus(v.Scaled(dt)), v)
  }

  /** A particle's kinematic state after integration. */
  datatype Motion = Motion(position: Vec2, velocity: Vec2, predicted: Vec2)

  /**
   * `integrate_positions` for one particle: the velocity picks up
   * (gravity + acceleration) / mass over the step, the position moves by the
   * new velocity, each axis is collided against the bounds, and the predicted
   * position looks one 60 Hz frame ahead along the final velocity.
   */
  function IntegrateParticle(fp: FluidProps, bounds: (Vec2, Vec2), gravity: Vec2, dt: real,
                             position: Vec2, velocity: Vec2, acceleration: Vec2): (m: Motion)
    requires fp.mass != 0.0
    ensures bounds.0.x <= bounds.1.x ==> bounds.0.x <= m.position.x <= bounds.1.x
    ensures bounds.0.y <= bounds.1.y ==> bounds.0.y <= m.position.y <= bounds.1.y
    ensures m.predicted == m.position.Plus(m.velocity.Scaled(PARTICLE_LOOKAHEAD_SCALAR))
  {
    var (p, v) := FreeFlight(fp, gravity, dt, position, velocity, acceleration);
    var (px, vx) := CollideAxis(p.x, v.x, bounds.0.x, bounds.1.x, fp.collisionDamping);
    var (py, vy) := CollideAxis(p.y, v.y, bounds.0.y, bounds.1.y, fp.collisionDamping);
    var position' := Vec2(px, py);
    var velocity' := Vec2(vx, vy);
    Motion(position', velocity', position'.Plus(velocity'.Scaled(PARTICLE_LOOKAHEAD_SCALAR)))
  }

  /** A coordinate already within the bounds is left alone, and so is its velocity. */
  lemma CollideAxisInBoundsUnchanged(p: real, v: real, lo: real, hi: real, damping: real)
    requires lo <= p <= hi
    ensures CollideAxis(p, v, lo, hi, damping) == (p, v)
  {
  }

  /**
   * A coordinate below the lower bound is put on it, and one above the upper
   * bound on that; either way the velocity becomes -damping times its value.
   */
  lemma CollideAxisOutOfBounds(p: real, v: real, lo: real, hi: real, damping: real)
    ensures p < lo ==> CollideAxis(p, v, lo, hi, damping) == (lo, -damping * v)
    ensures lo <= p && hi < p ==> CollideAxis(p, v, lo, hi, damping) == (hi, -damping * v)
  {
  }

  /** Colliding a second time changes nothing when the bounds are non-empty. */
  lemma CollideAxisIdempotent(p: real, v: real, lo: real, hi: real, damping: real)
    requires lo <= hi
    ensures var (p', v') := CollideAxis(p, v, lo, hi, damping);
            CollideAxis(p', v', lo, hi, damping) == (p', v')
  {
  }

  function Abs(x: real): real { if x < 0.0 then -x else x }

  /**
   * With a damping factor in [0, 1], a collision never speeds a particle up
   * along the axis; with damping below 1, a moving particle that bounces
   * strictly loses speed.
   */
  lemma CollideAxisDoesNotGainSpeed(p: real, v: real, lo: real, hi: real, damping: real)
    requires 0.0 <= damping <= 1.0
    ensures Abs(CollideAxis(p, v, lo, hi, damping).1) <= Abs(v)
    ensures (p < lo || p > hi) && damping < 1.0 && v != 0.0 ==> Abs(CollideAxis(p, v, lo, hi, damping).1) < Abs(v)
  {
    if p < lo || p > hi {
      var w := v * (-1.0 * damping);
      assert w == -(v * damping);
      if v > 0.0 && damping > 0.0 {
        MulPos(v, damping);
        if damping < 1.0 {
          MulMonotone(1.0, damping, v);
        }
      } else if v < 0.0 && damping > 0.0 {
        MulNegPos(v, damping);
        if damping < 1.0 {
          MulMonotone(1.0, damping, -v);
        }
        assert (-v) * damping == -(v * damping);
      }
    }
  }

  /** A particle that crossed the lower bound while moving down bounces back up. */
  lemma CollideAxisBouncesInward(p: real, v: real, lo: real, hi: real, damping: real)
    requires damping > 0.0
    ensures p < lo && v < 0.0 ==> CollideAxis(p, v, lo, hi, damping).1 > 0.0
    ensures lo <= p && hi < p && v > 0.0 ==> CollideAxis(p, v, lo, hi, damping).1 < 0.0
  {
    if v < 0.0 {
      MulNegPos(v, damping);
    } else if v > 0.0 {
      MulPos(v, damping);
    }
  }

  /**
   * Integration treats the axes independently: the x results depend only on
   * the x inputs (IntegrateYIndependent states the same for y).
   */
  lemma IntegrateXIndependent(fp: FluidProps, bounds: (Vec2, Vec2), bounds': (Vec2, Vec2),
                              g: Vec2, g': Vec2, dt: real,
                              p: Vec2, p': Vec2, v: Vec2, v': Vec2, a: Vec2, a': Vec2)
    requires fp.mass != 0.0
    requires bounds.0.x == bounds'.0.x && bounds.1.x == bounds'.1.x
    requires g.x == g'.x && p.x == p'.x && v.x == v'.x && a.x == a'.x
    ensures var m, m' := IntegrateParticle(fp, bounds, g, dt, p, v, a), IntegrateParticle(fp, bounds', g', dt, p', v', a');
            m.position.x == m'.position.x && m.velocity.x == m'.velocity.x && m.predicted.x == m'.predicted.x
  {
    var f, f' := FreeFlight(fp, g, dt, p, v, a), FreeFlight(fp, g', dt, p', v', a');
    assert f.1.x == f'.1.x;
    assert f.0.x == f'.0.x;
    var cx := CollideAxis(f.0.x, f.1.x, bounds.0.x, bounds.1.x, fp.collisionDamping);
    var m := IntegrateParticle(fp, bounds, g, dt, p, v, a);
    assert m.position.x == cx.0 && m.velocity.x == cx.1;
    var m' := IntegrateParticle(fp, bounds', g', dt, p', v', a');
    assert m'.position.x == cx.0 && m'.velocity.x == cx.1;
  }

  /** The y results of integration depend only on the y inputs. */
  lemma IntegrateYIndependent(fp: FluidProps, bounds: (Vec2, Vec2), bounds': (Vec2, Vec2),
                              g: Vec2, g': Vec2, dt: real,
                              p: Vec2, p': Vec2, v: Vec2, v': Vec2, a: Vec2, a': Vec2)
    requires fp.mass != 0.0
    requires bounds.0.y == bounds'.0.y && bounds.1.y == bounds'.1.y
    requires g.y == g'.y && p.y == p'.y && v.y == v'.y && a.y == a'.y
    ensures var m, m' := IntegrateParticle(fp, bounds, g, dt, p, v, a), IntegrateParticle(fp, bounds', g', dt, p', v', a');
            m.position.y == m'.position.y && m.velocity.y == m'.velocity.y && m.predicted.y == m'.predicted.y
  {
    var f, f' := FreeFlight(fp, g, dt, p, v, a), FreeFlight(fp, g', dt, p', v', a');
    assert f.1.y == f'.1.y;
    assert f.0.y == f'.0.y;
    var cy := CollideAxis(f.0.y, f.1.y, bounds.0.y, bounds.1.y, fp.collisionDamping);
    var m := IntegrateParticle(fp, bounds, g, dt, p, v, a);
    assert m.position.y == cy.0 && m.velocity.y == cy.1;
    var m' := IntegrateParticle(fp, bounds', g', dt, p', v', a');
    assert m'.position.y == cy.0 && m'.velocity.y == cy.1;
  }

  /** Where the free flight stays inside the bounds, integration is just the free flight. */
  lemma IntegrateWithoutCollision(fp: FluidProps, bounds: (Vec2, Vec2), g: Vec2, dt: real,
                                  p: Vec2, v: Vec2, a: Vec2)
    requires fp.mass != 0.0
    requires var (q, _) := FreeFlight(fp, g, dt, p, v, a);
             bounds.0.x <= q.x <= bounds.1.x && bounds.0.y <= q.y <= bounds.1.y
    ensures var m := IntegrateParticle(fp, bounds, g, dt, p, v, a);
            (m.position, m.velocity) == FreeFlight(fp, g, dt, p, v, a)
  {
  }

  // ---------------------------------------------------------------------
  // Density and pressure
  // ---------------------------------------------------------------------

  /** Which of the two density kernels a sum uses. */
  datatype DensityKind = Density | NearDensity

  /**
   * What a neighbour at `distance` adds to a particle's raw density: nothing
   * beyond the smoothing radius, its kernel weight otherwise.
   */
  function DensityTerm(kind: DensityKind, smoothingRadius: real, distance: real): (w: real)
    requires smoothingRadius > 0.0
    ensures w >= 0.0
    ensures w > 0.0 <==> distance < smoothingRadius
  {
    if distance > smoothingRadius then 0.0
    else match kind
      case Density => SmoothingKernel(smoothingRadius, distance)
      case NearDensity => SmoothingKernelNear(smoothingRadius, distance)
  }

  /** The raw (unweighted by mass) density from the neighbours at the given distances. */
  function KernelSum(kind: DensityKind, smoothingRadius: real, row: seq<real>): (s: real)
    requires smoothingRadius > 0.0
    ensures s >= 0.0
    decreases |row|
  {
    if row == [] then 0.0
    else KernelSum(kind, smoothingRadius, row[..|row| - 1]) + DensityTerm(kind, smoothingRadius, row[|row| - 1])
  }

  /**
   * The linear equations of state: pressure grows with the excess of density
   * over the target, near pressure with the near density.
   */
  function EquationOfState(fp: FluidProps, density: real, nearDensity: real): ParticleProps {
    ParticleProps(density, nearDensity,
                  fp.pressureScalar * (density - fp.targetDensity),
                  fp.nearPressureScalar * nearDensity)
  }

  /**
   * `update_density_and_pressure` for one particle, given its distances to
   * every particle (itself included): mass-weighted kernel sums plus the
   * padding, then the equations of state.
   */
  function DensityAndPressure(fp: FluidProps, row: seq<real>): ParticleProps
    requires fp.smoothingRadius > 0.0
  {
    EquationOfState(fp,
      PaddedDensity(fp.mass, KernelSum(Density, fp.smoothingRadius, row)),
      PaddedDensity(fp.mass, KernelSum(NearDensity, fp.smoothingRadius, row)))
  }

  /** A raw kernel sum weighted by the particle mass, plus the padding. */
  function PaddedDensity(mass: real, rawDensity: real): real {
    mass * rawDensity + DENSITY_PADDING
  }

  /** With a non-negative mass, both densities are at least the padding, hence positive. */
  lemma DensityAtLeastPadding(fp: FluidProps, row: seq<real>)
    requires fp.smoothingRadius > 0.0 && fp.mass >= 0.0
    ensures DensityAndPressure(fp, row).density >= DENSITY_PADDING
    ensures DensityAndPressure(fp, row).nearDensity >= DENSITY_PADDING
  {
    MulNonneg(fp.mass, KernelSum(Density, fp.smoothingRadius, row));
    MulNonneg(fp.mass, KernelSum(NearDensity, fp.smoothingRadius, row));
  }

  /** The sum is at least the term of any one neighbour. */
  lemma {:induction false} KernelSumAtLeastTerm(kind: DensityKind, smoothingRadius: real, row: seq<real>, j: nat)
    requires smoothingRadius > 0.0 && j < |row|
    ensures KernelSum(kind, smoothingRadius, row) >= DensityTerm(kind, smoothingRadius, row[j])
    decreases |row|
  {
    if j < |row| - 1 {
      KernelSumAtLeastTerm(kind, smoothingRadius, row[..|row| - 1], j);
    }
  }

  /** Neighbours beyond the smoothing radius do not affect the sum, wherever they are. */
  lemma {:induction false} KernelSumIgnoresFarNeighbours(kind: DensityKind, smoothingRadius: real,
                                                         row: seq<real>, row': seq<real>)
    requires smoothingRadius > 0.0 && |row| == |row'|
    requires forall j :: 0 <= j < |row| ==>
               row[j] == row'[j] || (row[j] > smoothingRadius && row'[j] > smoothingRadius)
    ensures KernelSum(kind, smoothingRadius, row) == KernelSum(kind, smoothingRadius, row')
    decreases |row|
  {
    if row != [] {
      KernelSumIgnoresFarNeighbours(kind, smoothingRadius, row[..|row| - 1], row'[..|row'| - 1]);
    }
  }

  /**
   * Every particle counts itself at distance zero, so its density is at
   * least mass * smoothing_kernel(r, 0) plus the padding (for mass >= 0).
   */
  lemma DensityIncludesSelf(fp: FluidProps, row: seq<real>, i: nat)
    requires fp.smoothingRadius > 0.0 && fp.mass >= 0.0
    requires i < |row| && row[i] == 0.0
    ensures DensityAndPressure(fp, row).density
            >= PaddedDensity(fp.mass, SmoothingKernel(fp.smoothingRadius, 0.0))
  {
    PaddedSumAtLeastTerm(fp.mass, Density, fp.smoothingRadius, row, i);
    assert DensityTerm(Density, fp.smoothingRadius, row[i]) == SmoothingKernel(fp.smoothingRadius, 0.0);
  }

  /** Likewise the near density is at least mass * smoothing_kernel_near(r, 0) plus the padding. */
  lemma NearDensityIncludesSelf(fp: FluidProps, row: seq<real>, i: nat)
    requires fp.smoothingRadius > 0.0 && fp.mass >= 0.0
    requires i < |row| && row[i] == 0.0
    ensures DensityAndPressure(fp, row).nearDensity
            >= PaddedDensity(fp.mass, SmoothingKernelNear(fp.smoothingRadius, 0.0))
  {
    PaddedSumAtLeastTerm(fp.mass, NearDensity, fp.smoothingRadius, row, i);
    assert DensityTerm(NearDensity, fp.smoothingRadius, row[i]) == SmoothingKernelNear(fp.smoothingRadius, 0.0);
  }

  /** With mass >= 0, the padded density is at least the mass-weighted term of any one neighbour. */
  lemma PaddedSumAtLeastTerm(m: real, kind: DensityKind, r: real, row: seq<real>, j: nat)
    requires m >= 0.0 && r > 0.0 && j < |row|
    ensures PaddedDensity(m, KernelSum(kind, r, row)) >= PaddedDensity(m, DensityTerm(kind, r, row[j]))
  {
    KernelSumAtLeastTerm(kind, r, row, j);
    PaddedMonotone(m, DensityTerm(kind, r, row[j]), KernelSum(kind, r, row));
  }

  /** A larger raw density gives a larger padded density, for mass >= 0. */
  lemma PaddedMonotone(m: real, t: real, s: real)
    requires m >= 0.0 && t <= s
    ensures PaddedDensity(m, s) >= PaddedDensity(m, t)
  {
    ScaleOrdered(t, s, m);
  }

  /** The properties of a particle depend only on its neighbours within the smoothing radius. */
  lemma DensityIgnoresFarNeighbours(fp: FluidProps, row: seq<real>, row': seq<real>)
    requires fp.smoothingRadius > 0.0 && |row| == |row'|
    requires forall j :: 0 <= j < |row| ==>
               row[j] == row'[j] || (row[j] > fp.smoothingRadius && row'[j] > fp.smoothingRadius)
    ensures DensityAndPressure(fp, row) == DensityAndPressure(fp, row')
  {
    KernelSumIgnoresFarNeighbours(Density, fp.smoothingRadius, row, row');
    KernelSumIgnoresFarNeighbours(NearDensity, fp.smoothingRadius, row, row');
  }

  /**
   * With a positive pressure scalar the pressure is positive exactly when
   * the density exceeds the target (the fluid is compressed) and negative
   * exactly when it falls short; with a positive near-pressure scalar the
   * near pressure has the sign of the near density.
   */
  lemma PressureSign(fp: FluidProps, density: real, nearDensity: real)
    ensures var pp := EquationOfState(fp, density, nearDensity);
            fp.pressureScalar > 0.0 ==>
              (pp.pressure > 0.0 <==> density > fp.targetDensity) &&
              (pp.pressure < 0.0 <==> density < fp.targetDensity)
    ensures var pp := EquationOfState(fp, density, nearDensity);
            fp.nearPressureScalar > 0.0 ==> (pp.nearPressure > 0.0 <==> nearDensity > 0.0)
  {
    var e := density - fp.targetDensity;
    if fp.pressureScalar > 0.0 {
      if e > 0.0 {
        MulPos(fp.pressureScalar, e);
      } else if e < 0.0 {
        MulNegPos(e, fp.pressureScalar);
      }
    }
    if fp.nearPressureScalar > 0.0 {
      if nearDensity > 0.0 {
        MulPos(fp.nearPressureScalar, nearDensity);
      } else if nearDensity < 0.0 {
        MulNegPos(nearDensity, fp.nearPressureScalar);
      }
    }
  }

  /**
   * After the density pass (mass >= 0, positive near-pressure scalar) every
   * particle has a positive near pressure.
   */
  lemma NearPressurePositive(fp: FluidProps, row: seq<real>)
    requires fp.smoothingRadius > 0.0 && fp.mass >= 0.0 && fp.nearPressureScalar > 0.0
    ensures DensityAndPressure(fp, row).nearPressure > 0.0
  {
    DensityAtLeastPadding(fp, row);
    var pp := DensityAndPressure(fp, row);
    PressureSign(fp, pp.density, pp.nearDensity);
  }

  // ---------------------------------------------------------------------
  // Distances
  // ---------------------------------------------------------------------

  /**
   * `distance` is the Euclidean distance between p and q: non-negative, zero
   * exactly for coincident points, and squaring to the squared distance.
   */
  predicate IsDistance(distance: real, p: Vec2, q: Vec2) {
    distance >= 0.0 && (distance == 0.0 <==> p == q) && distance * distance == SquaredDistance(p, q)
  }

  /** `dist[i][j]` is the distance from point i to point j, for all i and j. */
  predicate IsDistanceTable(points: seq<Vec2>, dist: seq<seq<real>>) {
    |dist| == |points| &&
    (forall i :: 0 <= i < |dist| ==> |dist[i]| == |points|) &&
    (forall i, j :: 0 <= i < |dist| && 0 <= j < |dist[i]| ==> IsDistance(dist[i][j], points[i], points[j]))
  }

  /** In a distance table every point is at distance zero from itself. */
  lemma SelfDistanceZero(points: seq<Vec2>, dist: seq<seq<real>>, i: nat)
    requires IsDistanceTable(points, dist) && i < |points|
    ensures dist[i][i] == 0.0
  {
    assert IsDistance(dist[i][i], points[i], points[i]);
  }

  // ---------------------------------------------------------------------
  // Pressure and viscosity forces
  // ---------------------------------------------------------------------

  /**
   * The unit vector from a particle towards a neighbour at `distance` along
   * `offset`; coincident particles are pushed apart along +Y instead.
   */
  function Direction(offset: Vec2, distance: real): Vec2 {
    if distance > 0.0 then offset.DividedBy(distance) else UNIT_Y
  }

  /** The pressure a pair shares: the mean of the two pressures. */
  function SharedPressure(p: real, q: real): (s: real)
    ensures s - p == q - s
  {
    (p + q) / 2.0
  }

  /** One pressure term of a neighbour: direction * shared * slope / neighbour's density. */
  function PressureContribution(direction: Vec2, shared: real, slope: real, density: real): Vec2
    requires density != 0.0
  {
    direction.Scaled(shared).Scaled(slope).DividedBy(density)
  }

  /** Accumulated pressure force and viscosity force. */
  datatype Forces = Forces(pressure: Vec2, viscosity: Vec2) {
    function Add(o: Forces): Forces { Forces(pressure.Plus(o.pressure), viscosity.Plus(o.viscosity)) }
  }

  const NO_FORCES: Forces := Forces(ZERO2, ZERO2)

  /**
   * Which near slope the force pass uses: the one `smoothing_kernel_derivative_near`
   * returns as written (squared, hence never negative), or the corrected
   * derivative of the near kernel.
   */
  datatype NearSlope = AsWritten | Corrected

  /** The near slope of the chosen kind: non-negative as written, non-positive corrected, zero from the radius on. */
  function NearSlopeAt(near: NearSlope, r: real, distance: real): (w: real)
    requires r > 0.0
    ensures near == AsWritten ==> w >= 0.0 && (w > 0.0 <==> distance < r)
    ensures near == Corrected ==> w <= 0.0 && (w < 0.0 <==> distance < r)
  {
    match near
    case AsWritten => SmoothingKernelDerivativeNearAsWritten(r, distance)
    case Corrected => SmoothingKernelDerivativeNear(r, distance)
  }

  /**
   * What one neighbour within the smoothing radius adds to a particle's
   * forces: the density-pressure and near-pressure terms along the
   * mass-scaled direction, and the viscosity pull towards the neighbour's
   * velocity.  The near term uses the near slope of kind `near`.
   */
  function NeighbourForces(fp: FluidProps, near: NearSlope, props: ParticleProps, neighbourProps: ParticleProps,
                           velocity: Vec2, neighbourVelocity: Vec2, offset: Vec2, distance: real): Forces
    requires fp.smoothingRadius > 0.0
    requires neighbourProps.density != 0.0 && neighbourProps.nearDensity != 0.0
  {
    var r := fp.smoothingRadius;
    var direction := Direction(offset, distance).Scaled(fp.mass);
    var slope := SmoothingKernelDerivative(r, distance);
    var shared := SharedPressure(props.pressure, neighbourProps.pressure);
    var slopeNear := NearSlopeAt(near, r, distance);
    var sharedNear := SharedPressure(props.nearPressure, neighbourProps.nearPressure);
    Forces(
      PressureContribution(direction, shared, slope, neighbourProps.density)
        .Plus(PressureContribution(direction, sharedNear, slopeNear, neighbourProps.nearDensity)),
      neighbourVelocity.Minus(velocity).Scaled(SmoothingKernelViscosity(r, distance)))
  }

  /** Every density is non-zero, so dividing by one is defined. */
  predicate NonZeroDensities(props: seq<ParticleProps>) {
    forall j :: 0 <= j < |props| ==> props[j].density != 0.0 && props[j].nearDensity != 0.0
  }

  /** What the force pass reads: equal-length component sequences, a distance table, non-zero densities. */
  predicate ForceInputs(fp: FluidProps, velocity: seq<Vec2>, props: seq<ParticleProps>,
                        predicted: seq<Vec2>, dist: seq<seq<real>>) {
    fp.smoothingRadius > 0.0 && |velocity| == |props| == |predicted| &&
    IsDistanceTable(predicted, dist) && NonZeroDensities(props)
  }

  /** A neighbour the force pass skips: the particle itself, or one beyond the smoothing radius. */
  predicate Skipped(fp: FluidProps, dist: seq<seq<real>>, i: nat, j: nat)
    requires i < |dist| && j < |dist[i]|
  {
    i == j || dist[i][j] > fp.smoothingRadius
  }

  /** The forces on particle i from neighbours 0 .. k-1, in iteration order. */
  function ForceSum(fp: FluidProps, near: NearSlope, velocity: seq<Vec2>, props: seq<ParticleProps>,
                    predicted: seq<Vec2>, dist: seq<seq<real>>, i: nat, k: nat): Forces
    requires ForceInputs(fp, velocity, props, predicted, dist) && i < |props| && k <= |props|
    decreases k
  {
    if k == 0 then NO_FORCES
    else
      var acc := ForceSum(fp, near, velocity, props, predicted, dist, i, k - 1);
      var j := k - 1;
      if Skipped(fp, dist, i, j) then acc
      else acc.Add(NeighbourForces(fp, near, props[i], props[j], velocity[i], velocity[j],
                                   predicted[j].Minus(predicted[i]), dist[i][j]))
  }

  /**
   * `update_pressure_force` for particle i: the pressure force divided by
   * the particle's own density plus the viscosity force times the viscosity
   * strength.
   */
  function Acceleration(fp: FluidProps, near: NearSlope, velocity: seq<Vec2>, props: seq<ParticleProps>,
                        predicted: seq<Vec2>, dist: seq<seq<real>>, i: nat): Vec2
    requires ForceInputs(fp, velocity, props, predicted, dist) && i < |props|
  {
    var f := ForceSum(fp, near, velocity, props, predicted, dist, i, |props|);
    f.pressure.DividedBy(props[i].density).Plus(f.viscosity.Scaled(fp.viscosityStrength))
  }

  /** A particle with no neighbour within the smoothing radius feels no force. */
  lemma {:induction false} IsolatedParticleFeelsNoForce(fp: FluidProps, near: NearSlope, velocity: seq<Vec2>, props: seq<ParticleProps>,
                                                        predicted: seq<Vec2>, dist: seq<seq<real>>, i: nat, k: nat)
    requires ForceInputs(fp, velocity, props, predicted, dist) && i < |props| && k <= |props|
    requires forall j :: 0 <= j < |props| && j != i ==> dist[i][j] > fp.smoothingRadius
    ensures ForceSum(fp, near, velocity, props, predicted, dist, i, k) == NO_FORCES
    decreases k
  {
    if k > 0 {
      IsolatedParticleFeelsNoForce(fp, near, velocity, props, predicted, dist, i, k - 1);
    }
  }

  /**
   * The forces on particle i depend only on the neighbours it does not skip:
   * changing the velocity or properties of the particles beyond the
   * smoothing radius changes nothing.
   */
  lemma {:induction false} ForceSumIgnoresSkipped(fp: FluidProps, near: NearSlope, velocity: seq<Vec2>, velocity': seq<Vec2>,
                                                  props: seq<ParticleProps>, props': seq<ParticleProps>,
                                                  predicted: seq<Vec2>, dist: seq<seq<real>>, i: nat, k: nat)
    requires ForceInputs(fp, velocity, props, predicted, dist) && ForceInputs(fp, velocity', props', predicted, dist)
    requires i < |props| && k <= |props|
    requires velocity'[i] == velocity[i] && props'[i] == props[i]
    requires forall j :: 0 <= j < |props| && !Skipped(fp, dist, i, j) ==>
               velocity'[j] == velocity[j] && props'[j] == props[j]
    ensures ForceSum(fp, near, velocity, props, predicted, dist, i, k) == ForceSum(fp, near, velocity', props', predicted, dist, i, k)
    decreases k
  {
    if k > 0 {
      ForceSumIgnoresSkipped(fp, near, velocity, velocity', props, props', predicted, dist, i, k - 1);
    }
  }

  /** Coincident particles use the fixed direction +Y. */
  lemma CoincidentDirectionIsUnitY(offset: Vec2)
    ensures Direction(offset, 0.0) == UNIT_Y
  {
  }

  /** The direction to a neighbour at a positive distance is a unit vector. */
  lemma DirectionIsUnit(offset: Vec2, distance: real)
    requires distance > 0.0 && distance * distance == offset.LengthSquared()
    ensures Direction(offset, distance).LengthSquared() == 1.0
  {
    var u := offset.DividedBy(distance);
    var l := offset.LengthSquared();
    DividedLengthSquared(u, offset, distance);
    ProductPositive(distance, distance, l);
    assert (u.LengthSquared() - 1.0) * l == 0.0;
  }

  lemma DividedLengthSquared(u: Vec2, o: Vec2, d: real)
    requires d != 0.0 && u == o.DividedBy(d)
    ensures u.LengthSquared() * (d * d) == o.LengthSquared()
  {
    assert u.x * d == o.x && u.y * d == o.y;
  }

  /** The shared pressure of a pair does not depend on which particle is asking. */
  lemma SharedPressureSymmetric(p: real, q: real)
    ensures SharedPressure(p, q) == SharedPressure(q, p)
    ensures p <= q ==> p <= SharedPressure(p, q) <= q
  {
  }

  /**
   * The pressure term of a neighbour at positive distance lies along the
   * offset to it, scaled by mass * shared * slope / (distance * density).
   */
  lemma ContributionAlongOffset(offset: Vec2, distance: real, mass: real, shared: real, slope: real, density: real)
    requires distance > 0.0 && density != 0.0
    ensures PressureContribution(Direction(offset, distance).Scaled(mass), shared, slope, density)
         == offset.Scaled(((1.0 / distance) * mass * shared * slope) / density)
  {
    assert offset.x / distance == offset.x * (1.0 / distance);
    assert offset.y / distance == offset.y * (1.0 / distance);
  }

  /**
   * With mass, shared pressure and neighbour density positive, a term with a
   * negative slope pushes the particle away from its neighbour (its dot
   * product with the offset to the neighbour is negative) and a term with a
   * positive slope pulls it towards the neighbour.
   */
  lemma ContributionSign(offset: Vec2, distance: real, mass: real, shared: real, slope: real, density: real)
    requires distance > 0.0 && distance * distance == offset.LengthSquared()
    requires mass > 0.0 && shared > 0.0 && density > 0.0
    ensures slope < 0.0 ==> PressureContribution(Direction(offset, distance).Scaled(mass), shared, slope, density).Dot(offset) < 0.0
    ensures slope > 0.0 ==> PressureContribution(Direction(offset, distance).Scaled(mass), shared, slope, density).Dot(offset) > 0.0
  {
    ContributionAlongOffset(offset, distance, mass, shared, slope, density);
    var k := ((1.0 / distance) * mass * shared * slope) / density;
    DotScaled(offset, k);
    var l := offset.LengthSquared();
    ProductPositive(distance, distance, l);
    var a := 1.0 / distance;
    MulPos(a, mass);
    MulPos(a * mass, shared);
    var b := a * mass * shared * slope;
    var c := 1.0 / density;
    DivAsMul(b, density);
    if slope < 0.0 {
      MulNegPos(slope, a * mass * shared);
      assert b == slope * (a * mass * shared);
      MulNegPos(b, c);
      MulNegPos(k, l);
    } else if slope > 0.0 {
      MulPos(slope, a * mass * shared);
      assert b == slope * (a * mass * shared);
      MulPos(b, c);
      MulPos(k, l);
    }
  }

  lemma DotScaled(offset: Vec2, k: real)
    ensures offset.Scaled(k).Dot(offset) == k * offset.LengthSquared()
  {
  }

  lemma DivAsMul(b: real, d: real)
    requires d != 0.0
    ensures b / d == b * (1.0 / d)
  {
  }

  /**
   * Under compression (positive shared pressure) the density-pressure term of
   * a neighbour strictly inside the smoothing radius pushes the particle away
   * from it, and so does the near-pressure term with the corrected slope.
   */
  lemma PressureTermsRepel(fp: FluidProps, offset: Vec2, distance: real, shared: real, density: real)
    requires fp.smoothingRadius > 0.0 && fp.mass > 0.0
    requires 0.0 < distance < fp.smoothingRadius && distance * distance == offset.LengthSquared()
    requires shared > 0.0 && density > 0.0
    ensures PressureContribution(Direction(offset, distance).Scaled(fp.mass), shared,
              SmoothingKernelDerivative(fp.smoothingRadius, distance), density).Dot(offset) < 0.0
    ensures PressureContribution(Direction(offset, distance).Scaled(fp.mass), shared,
              SmoothingKernelDerivativeNear(fp.smoothingRadius, distance), density).Dot(offset) < 0.0
  {
    ContributionSign(offset, distance, fp.mass, shared, SmoothingKernelDerivative(fp.smoothingRadius, distance), density);
    ContributionSign(offset, distance, fp.mass, shared, SmoothingKernelDerivativeNear(fp.smoothingRadius, distance), density);
  }

  /**
   * With the near slope as written, the near-pressure term of a neighbour
   * strictly inside the smoothing radius pulls the particle TOWARDS it,
   * although near pressure is meant to keep particles apart.
   */
  lemma NearPressureAsWrittenAttracts(fp: FluidProps, offset: Vec2, distance: real, sharedNear: real, nearDensity: real)
    requires fp.smoothingRadius > 0.0 && fp.mass > 0.0
    requires 0.0 < distance < fp.smoothingRadius && distance * distance == offset.LengthSquared()
    requires sharedNear > 0.0 && nearDensity > 0.0
    ensures PressureContribution(Direction(offset, distance).Scaled(fp.mass), sharedNear,
              SmoothingKernelDerivativeNearAsWritten(fp.smoothingRadius, distance), nearDensity).Dot(offset) > 0.0
  {
    ContributionSign(offset, distance, fp.mass, sharedNear,
                     SmoothingKernelDerivativeNearAsWritten(fp.smoothingRadius, distance), nearDensity);
  }

  /**
   * The force pass as written and the corrected one push in opposite
   * directions: for a neighbour strictly inside the smoothing radius whose
   * shared density pressure is zero and whose shared near pressure is
   * positive, the as-written pass pulls the particle towards the neighbour
   * and the corrected pass pushes it away.
   */
  lemma NearTermDirectionInPass(fp: FluidProps, near: NearSlope, props: ParticleProps, neighbourProps: ParticleProps,
                                velocity: Vec2, neighbourVelocity: Vec2, offset: Vec2, distance: real)
    requires fp.smoothingRadius > 0.0 && fp.mass > 0.0
    requires 0.0 < distance < fp.smoothingRadius && distance * distance == offset.LengthSquared()
    requires neighbourProps.density != 0.0 && neighbourProps.nearDensity > 0.0
    requires SharedPressure(props.pressure, neighbourProps.pressure) == 0.0
    requires SharedPressure(props.nearPressure, neighbourProps.nearPressure) > 0.0
    ensures near == AsWritten ==>
              NeighbourForces(fp, near, props, neighbourProps, velocity, neighbourVelocity, offset, distance).pressure.Dot(offset) > 0.0
    ensures near == Corrected ==>
              NeighbourForces(fp, near, props, neighbourProps, velocity, neighbourVelocity, offset, distance).pressure.Dot(offset) < 0.0
  {
    var r := fp.smoothingRadius;
    var direction := Direction(offset, distance).Scaled(fp.mass);
    var sharedNear := SharedPressure(props.nearPressure, neighbourProps.nearPressure);
    var slopeNear := NearSlopeAt(near, r, distance);
    var nearTerm := PressureContribution(direction, sharedNear, slopeNear, neighbourProps.nearDensity);
    ZeroSharedContributesNothing(direction, SmoothingKernelDerivative(r, distance), neighbourProps.density);
    assert NeighbourForces(fp, near, props, neighbourProps, velocity, neighbourVelocity, offset, distance).pressure
        == ZERO2.Plus(nearTerm);
    ContributionSign(offset, distance, fp.mass, sharedNear, slopeNear, neighbourProps.nearDensity);
  }

  /** A term with zero shared pressure contributes nothing. */
  lemma ZeroSharedContributesNothing(direction: Vec2, slope: real, density: real)
    requires density != 0.0
    ensures PressureContribution(direction, 0.0, slope, density) == ZERO2
  {
  }

  /**
   * Viscosity is a pairwise exchange: what particle j adds to particle i's
   * viscosity force is the negation of what i adds to j's.
   */
  lemma ViscosityPairAntisymmetric(fp: FluidProps, near: NearSlope, pi: ParticleProps, pj: ParticleProps,
                                   vi: Vec2, vj: Vec2, offset: Vec2, distance: real)
    requires fp.smoothingRadius > 0.0
    requires pi.density != 0.0 && pi.nearDensity != 0.0 && pj.density != 0.0 && pj.nearDensity != 0.0
    ensures NeighbourForces(fp, near, pi, pj, vi, vj, offset, distance).viscosity
         == NeighbourForces(fp, near, pj, pi, vj, vi, offset.Negated(), distance).viscosity.Negated()
  {
    var w := SmoothingKernelViscosity(fp.smoothingRadius, distance);
    assert NeighbourForces(fp, near, pi, pj, vi, vj, offset, distance).viscosity == vj.Minus(vi).Scaled(w);
    assert NeighbourForces(fp, near, pj, pi, vj, vi, offset.Negated(), distance).viscosity == vi.Minus(vj).Scaled(w);
    ScaledDifferenceAntisymmetric(vi, vj, w);
  }

  lemma ScaledDifferenceAntisymmetric(a: Vec2, b: Vec2, w: real)
    ensures b.Minus(a).Scaled(w) == a.Minus(b).Scaled(w).Negated()
  {
    assert (b.x - a.x) * w == -((a.x - b.x) * w);
    assert (b.y - a.y) * w == -((a.y - b.y) * w);
  }

  /**
   * What the density pass leaves behind (mass >= 0): every density and near
   * density is at least the padding, so the force pass may divide by them,
   * and every particle's density counts the particle itself.
   */
  lemma DensityPassEnablesForcePass(fp: FluidProps, predicted: seq<Vec2>, dist: seq<seq<real>>,
                                    props: seq<ParticleProps>)
    requires fp.smoothingRadius > 0.0 && fp.mass >= 0.0
    requires IsDistanceTable(predicted, dist) && |props| == |predicted|
    requires forall i :: 0 <= i < |props| ==> props[i] == DensityAndPressure(fp, dist[i])
    ensures NonZeroDensities(props)
    ensures forall i :: 0 <= i < |props| ==>
              props[i].density >= PaddedDensity(fp.mass, SmoothingKernel(fp.smoothingRadius, 0.0))
  {
    forall i | 0 <= i < |props|
      ensures props[i].density >= DENSITY_PADDING && props[i].nearDensity >= DENSITY_PADDING
      ensures props[i].density >= PaddedDensity(fp.mass, SmoothingKernel(fp.smoothingRadius, 0.0))
    {
      DensityAtLeastPadding(fp, dist[i]);
      SelfDistanceZero(predicted, dist, i);
      DensityIncludesSelf(fp, dist[i], i);
    }
  }

  // ---------------------------------------------------------------------
  // The particles and the three passes
  // ---------------------------------------------------------------------

  /**
   * All fluid particles: particle i has translation (xy) `translation[i]`,
   * velocity `velocity[i]`, acceleration `acceleration[i]`, predicted
   * position `predicted[i]` and density-pass results `props[i]`.
   */
  class FluidWorld {
    var translation: seq<Vec2>
    var velocity: seq<Vec2>
    var acceleration: seq<Vec2>
    var predicted: seq<Vec2>
    var props: seq<ParticleProps>

    /** Every particle has every component. */
    predicate Valid()
      reads this
    {
      |velocity| == |translation| && |acceleration| == |translation| &&
      |predicted| == |translation| && |props| == |translation|
    }

    /** Spawns one particle at rest at each point, every other component zero. */
    constructor Spawn(points: seq<Vec2>)
      ensures Valid()
      ensures translation == points
      ensures forall i :: 0 <= i < |points| ==>
                velocity[i] == ZERO2 && acceleration[i] == ZERO2 && predicted[i] == ZERO2 && props[i] == ZERO_PROPS
    {
      translation := points;
      velocity := seq(|points|, _ => ZERO2);
      acceleration := seq(|points|, _ => ZERO2);
      predicted := seq(|points|, _ => ZERO2);
      props := seq(|points|, _ => ZERO_PROPS);
    }

    /**
     * `integrate_positions`: every particle is moved as IntegrateParticle
     * says, against the container's extents shrunk by the particle radius.
     */
    method IntegratePositions(fp: FluidProps, container: FluidContainer, gravity: Vec2, dt: real)
      requires Valid() && fp.mass != 0.0
      modifies this
      ensures Valid() && |translation| == old(|translation|)
      ensures forall i :: 0 <= i < |translation| ==>
                var m := IntegrateParticle(fp, CollisionBounds(container, fp.radius), gravity, dt,
                                           old(translation[i]), old(velocity[i]), acceleration[i]);
                translation[i] == m.position && velocity[i] == m.velocity && predicted[i] == m.predicted
      ensures acceleration == old(acceleration) && props == old(props)
    {
      var extents := GetExtents(container);
      var extMin, extMax := extents.0, extents.1;
      var radVec := Vec2(1.0, 1.0).Scaled(fp.radius);
      extMin := extMin.Plus(radVec);
      extMax := extMax.Minus(radVec);
      var n := |translation|;
      for i := 0 to n
        invariant Valid() && |translation| == n
        invariant acceleration == old(acceleration) && props == old(props)
        invariant forall k :: 0 <= k < i ==>
                    var m := IntegrateParticle(fp, (extMin, extMax), gravity, dt,
                                               old(translation[k]), old(velocity[k]), acceleration[k]);
                    translation[k] == m.position && velocity[k] == m.velocity && predicted[k] == m.predicted
        invariant forall k :: i <= k < n ==> translation[k] == old(translation[k]) && velocity[k] == old(velocity[k])
      {
        var m := IntegrateOne(fp, extMin, extMax, gravity, dt, translation[i], velocity[i], acceleration[i]);
        predicted := predicted[i := m.predicted];
        velocity := velocity[i := m.velocity];
        translation := translation[i := m.position];
      }
    }

    /**
     * `update_density_and_pressure`: every particle's properties become
     * DensityAndPressure of its row of distances to all particles.
     */
    method UpdateDensityAndPressure(fp: FluidProps, dist: seq<seq<real>>)
      requires Valid() && fp.smoothingRadius > 0.0 && IsDistanceTable(predicted, dist)
      modifies this
      ensures Valid() && |props| == old(|props|)
      ensures forall i :: 0 <= i < |props| ==> props[i] == DensityAndPressure(fp, dist[i])
      ensures translation == old(translation) && velocity == old(velocity)
      ensures acceleration == old(acceleration) && predicted == old(predicted)
    {
      var n := |props|;
      for i := 0 to n
        invariant Valid() && |props| == n
        invariant translation == old(translation) && velocity == old(velocity)
        invariant acceleration == old(acceleration) && predicted == old(predicted)
        invariant forall k :: 0 <= k < i ==> props[k] == DensityAndPressure(fp, dist[k])
      {
        var pp := ParticleDensityAndPressure(fp, dist[i]);
        props := props[i := pp];
      }
    }

    /**
     * `update_pressure_force`: every particle's acceleration becomes the
     * Acceleration computed, with the near slope as written, from the
     * velocities, properties and predicted positions, none of which the pass
     * changes.
     */
    method UpdatePressureForce(fp: FluidProps, dist: seq<seq<real>>)
      requires Valid() && ForceInputs(fp, velocity, props, predicted, dist)
      modifies this
      ensures Valid() && |acceleration| == old(|acceleration|)
      ensures forall i :: 0 <= i < |acceleration| ==>
                acceleration[i] == Acceleration(fp, AsWritten, old(velocity), old(props), old(predicted), dist, i)
      ensures translation == old(translation) && velocity == old(velocity)
      ensures props == old(props) && predicted == old(predicted)
    {
      var n := |props|;
      var vel, pp, pred := velocity, props, predicted;
      for i := 0 to n
        invariant Valid() && |acceleration| == n
        invariant translation == old(translation) && velocity == vel && props == pp && predicted == pred
        invariant forall k :: 0 <= k < i ==> acceleration[k] == Acceleration(fp, AsWritten, vel, pp, pred, dist, k)
      {
        var a := ParticleAcceleration(fp, vel, pp, pred, dist, i);
        acceleration := acceleration[i := a];
      }
    }
  }

  /**
   * The body of `integrate_positions` for one particle, step by step: the
   * velocity and position updates, the two axis collisions and the
   * prediction; it computes IntegrateParticle.
   */
  method IntegrateOne(fp: FluidProps, extMin: Vec2, extMax: Vec2, gravity: Vec2, dt: real,
                      position: Vec2, velocity: Vec2, acceleration: Vec2) returns (m: Motion)
    requires fp.mass != 0.0
    ensures m == IntegrateParticle(fp, (extMin, extMax), gravity, dt, position, velocity, acceleration)
  {
    var vel := velocity.Plus(gravity.Plus(acceleration).DividedBy(fp.mass).Scaled(dt));
    var pos := position.Plus(vel.Scaled(dt));
    var px, vx := CollideOnAxis(pos.x, vel.x, extMin.x, extMax.x, fp.collisionDamping);
    var py, vy := CollideOnAxis(pos.y, vel.y, extMin.y, extMax.y, fp.collisionDamping);
    pos, vel := Vec2(px, py), Vec2(vx, vy);
    m := Motion(pos, vel, pos.Plus(vel.Scaled(PARTICLE_LOOKAHEAD_SCALAR)));
  }

  /**
   * The collision handling of `integrate_positions` along one axis: a
   * coordinate below the lower or above the upper bound is put on that bound
   * and its velocity is reflected and damped.
   */
  method CollideOnAxis(p: real, v: real, lo: real, hi: real, damping: real) returns (p': real, v': real)
    ensures (p', v') == CollideAxis(p, v, lo, hi, damping)
  {
    p', v' := p, v;
    if p' < lo {
      v' := v' * (-1.0 * damping);
      p' := lo;
    } else if p' > hi {
      v' := v' * (-1.0 * damping);
      p' := hi;
    }
  }

  /**
   * The body of `update_density_and_pressure` for one particle: the loop
   * over its distances, skipping those beyond the smoothing radius.
   */
  method ParticleDensityAndPressure(fp: FluidProps, row: seq<real>) returns (pp: ParticleProps)
    requires fp.smoothingRadius > 0.0
    ensures pp == DensityAndPressure(fp, row)
  {
    var newDensity := 0.0;
    var newNearDensity := 0.0;
    for j := 0 to |row|
      invariant newDensity == KernelSum(Density, fp.smoothingRadius, row[..j])
      invariant newNearDensity == KernelSum(NearDensity, fp.smoothingRadius, row[..j])
    {
      assert row[..j + 1][..j] == row[..j];
      var distance := row[j];
      if distance > fp.smoothingRadius {
        continue;
      }
      newDensity := newDensity + SmoothingKernel(fp.smoothingRadius, distance);
      newNearDensity := newNearDensity + SmoothingKernelNear(fp.smoothingRadius, distance);
    }
    assert row[..|row|] == row;
    var density := PaddedDensity(fp.mass, newDensity);
    var nearDensity := PaddedDensity(fp.mass, newNearDensity);
    pp := ParticleProps(density, nearDensity,
                        fp.pressureScalar * (density - fp.targetDensity),
                        fp.nearPressureScalar * nearDensity);
    assert pp == EquationOfState(fp, density, nearDensity);
  }

  /**
   * The body of `update_pressure_force` for particle i: the loop over all
   * particles, skipping itself and those beyond the smoothing radius.
   */
  method ParticleAcceleration(fp: FluidProps, velocity: seq<Vec2>, props: seq<ParticleProps>,
                              predicted: seq<Vec2>, dist: seq<seq<real>>, i: nat) returns (acc: Vec2)
    requires ForceInputs(fp, velocity, props, predicted, dist) && i < |props|
    ensures acc == Acceleration(fp, AsWritten, velocity, props, predicted, dist, i)
  {
    var pressureForce := ZERO2;
    var viscosityForce := ZERO2;
    for j := 0 to |props|
      invariant Forces(pressureForce, viscosityForce) == ForceSum(fp, AsWritten, velocity, props, predicted, dist, i, j)
    {
      if i == j {
        continue;
      }
      var offset := predicted[j].Minus(predicted[i]);
      var distance := dist[i][j];
      if distance > fp.smoothingRadius {
        continue;
      }
      var pressure, viscosity := NeighbourTerms(fp, props[i], props[j], velocity[i], velocity[j], offset, distance);
      pressureForce := pressureForce.Plus(pressure);
      viscosityForce := viscosityForce.Plus(viscosity);
    }
    acc := pressureForce.DividedBy(props[i].density).Plus(viscosityForce.Scaled(fp.viscosityStrength));
  }

  /**
   * What one neighbour within the smoothing radius adds to the pressure and
   * viscosity forces, step by step as the loop body of `update_pressure_force`
   * computes it, with the near slope as written.
   */
  method NeighbourTerms(fp: FluidProps, props: ParticleProps, neighbourProps: ParticleProps,
                        velocity: Vec2, neighbourVelocity: Vec2, offset: Vec2, distance: real)
    returns (pressure: Vec2, viscosity: Vec2)
    requires fp.smoothingRadius > 0.0
    requires neighbourProps.density != 0.0 && neighbourProps.nearDensity != 0.0
    ensures Forces(pressure, viscosity)
         == NeighbourForces(fp, AsWritten, props, neighbourProps, velocity, neighbourVelocity, offset, distance)
  {
    var direction := offset;
    if distance > 0.0 {
      direction := direction.DividedBy(distance);
    } else {
      direction := UNIT_Y;
    }
    direction := direction.Scaled(fp.mass);

    var slope := SmoothingKernelDerivative(fp.smoothingRadius, distance);
    var sharedPressure := (props.pressure + neighbourProps.pressure) / 2.0;
    var slopeNear := SmoothingKernelDerivativeNearAsWritten(fp.smoothingRadius, distance);
    var sharedPressureNear := (props.nearPressure + neighbourProps.nearPressure) / 2.0;

    pressure := direction.Scaled(sharedPressure).Scaled(slope).DividedBy(neighbourProps.density);
    pressure := pressure.Plus(direction.Scaled(sharedPressureNear).Scaled(slopeNear).DividedBy(neighbourProps.nearDensity));

    viscosity := neighbourVelocity.Minus(velocity).Scaled(SmoothingKernelViscosity(fp.smoothingRadius, distance));
  }
}
