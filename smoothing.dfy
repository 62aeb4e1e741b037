/**
 * The SPH smoothing kernels: weights of a neighbour at `distance` for an
 * interaction `radius`, each zero beyond the radius.  Each kernel is a guard
 * followed by a closed-form polynomial; `powi` is repeated multiplication.
 */
module Smoothing {

  /** Stand-in for `std::f32::consts::PI`; every proof below uses only PI > 0. */
  const PI: real := 3.14159265358979323846

  /** Added to every density so that dividing by a density is always defined. */
  const DENSITY_PADDING: real := 0.00001

  /** `x.powi(k)`: x multiplied by itself k times. */
  function Powi(x: real, k: nat): (p: real)
    ensures x > 0.0 ==> p > 0.0
  {
    if k == 0 then 1.0 else x * Powi(x, k - 1)
  }

  /** The normalisation `numerator / (PI * radius.powi(k))` of a kernel. */
  function Volume(numerator: real, radius: real, k: nat): (c: real)
    requires numerator > 0.0 && radius > 0.0
    ensures c > 0.0
  {
    assert PI * Powi(radius, k) > 0.0;
    numerator / (PI * Powi(radius, k))
  }

  /** The density kernel (r - d)^2 * 6 / (PI r^4), zero beyond the radius. */
  function SmoothingKernel(radius: real, distance: real): (w: real)
    requires radius > 0.0
    ensures w >= 0.0
    ensures w > 0.0 <==> distance < radius
  {
    if distance > radius then 0.0
    else
      var volume := Volume(6.0, radius, 4);
      var v := radius - distance;
      if v > 0.0 then
        MulPos(v, volume); MulPos(v, v * volume);
        assert v * v * volume == v * (v * volume);
        v * v * volume
      else
        v * v * volume
  }

  /** The slope (d - r) * 12 / (PI r^4) of the density kernel, zero beyond the radius. */
  function SmoothingKernelDerivative(radius: real, distance: real): (w: real)
    requires radius > 0.0
    ensures w <= 0.0
    ensures w < 0.0 <==> distance < radius
  {
    if distance > radius then 0.0
    else
      var scale := Volume(12.0, radius, 4);
      if distance < radius then
        MulNegPos(distance - radius, scale);
        (distance - radius) * scale
      else
        (distance - radius) * scale
  }

  /** The near-density kernel (r - d)^3 * 10 / (PI r^5), zero beyond the radius. */
  function SmoothingKernelNear(radius: real, distance: real): (w: real)
    requires radius > 0.0
    ensures w >= 0.0
    ensures w > 0.0 <==> distance < radius
  {
    if distance > radius then 0.0
    else
      var volume := Volume(10.0, radius, 5);
      var v := radius - distance;
      if v > 0.0 then
        MulPos(v, volume); MulPos(v, v * volume); MulPos(v, v * (v * volume));
        assert v * v * v * volume == v * (v * (v * volume));
        v * v * v * volume
      else
        v * v * v * volume
  }

  /**
   * The near-density slope exactly as the source computes it:
   * (d - r)^2 * 30 / (PI r^5).  Squaring (d - r) drops its sign, so this is
   * the NEGATION of the slope of SmoothingKernelNear (see
   * DerivativeNearAsWrittenIsNegatedSlope).
   */
  function SmoothingKernelDerivativeNearAsWritten(radius: real, distance: real): (w: real)
    requires radius > 0.0
    ensures w >= 0.0
    ensures w > 0.0 <==> distance < radius
  {
    if distance > radius then 0.0
    else
      var scale := Volume(30.0, radius, 5);
      var v := distance - radius;
      if v < 0.0 then
        MulPos(-v, scale); MulPos(-v, -v * scale);
        assert v * v * scale == (-v) * (-v * scale);
        v * v * scale
      else
        v * v * scale
  }

  /**
   * The near-density slope with the sign of the derivative of
   * SmoothingKernelNear: -(r - d)^2 * 30 / (PI r^5).  The force pass uses this one.
   */
  function SmoothingKernelDerivativeNear(radius: real, distance: real): (w: real)
    requires radius > 0.0
    ensures w == -SmoothingKernelDerivativeNearAsWritten(radius, distance)
    ensures w <= 0.0
    ensures w < 0.0 <==> distance < radius
  {
    if distance > radius then 0.0
    else
      var scale := Volume(30.0, radius, 5);
      var v := radius - distance;
      assert v * v * scale == (distance - radius) * (distance - radius) * scale;
      -(v * v * scale)
  }

  /** The viscosity kernel (r^2 - d^2)^3 * 4 / (PI r^8), zero beyond the radius. */
  function SmoothingKernelViscosity(radius: real, distance: real): (w: real)
    requires radius > 0.0
    ensures distance >= radius ==> w == 0.0
    ensures w > 0.0 <==> -radius < distance < radius
    ensures w >= 0.0 <==> -radius <= distance
  {
    if distance > radius then 0.0
    else
      var volume := Volume(4.0, radius, 8);
      var v := radius * radius - distance * distance;
      SquaresOrdered(distance, radius);
      if v > 0.0 then
        MulPos(v, volume); MulPos(v, v * volume); MulPos(v, v * (v * volume));
        assert v * v * v * volume == v * (v * (v * volume));
        v * v * v * volume
      else if v < 0.0 then
        MulPos(-v, volume); MulPos(-v, -v * volume); MulNegPos(v, -v * (-v * volume));
        assert v * v * v * volume == v * (-v * (-v * volume));
        v * v * v * volume
      else
        v * v * v * volume
  }

  /** The product of two positive numbers is positive. */
  lemma MulPos(a: real, b: real)
    requires a > 0.0 && b > 0.0
    ensures a * b > 0.0
  {
  }

  /**
   * MulPos for a product given by name: p == a * b is positive.  Passing the
   * product in keeps the solver from reasoning about a square such as d * d.
   */
  lemma ProductPositive(a: real, b: real, p: real)
    requires a > 0.0 && b > 0.0 && p == a * b
    ensures p > 0.0
  {
    MulPos(a, b);
  }

  /** The product of a negative and a positive number is negative. */
  lemma MulNegPos(a: real, b: real)
    requires a < 0.0 && b > 0.0
    ensures a * b < 0.0
  {
  }

  /** The product of two non-negative numbers is non-negative. */
  lemma MulNonneg(a: real, b: real)
    requires a >= 0.0 && b >= 0.0
    ensures a * b >= 0.0
  {
    if a > 0.0 && b > 0.0 {
      MulPos(a, b);
    }
  }

  /** Multiplying by a non-negative number keeps a weak order. */
  lemma ScaleOrdered(a: real, b: real, r: real)
    requires a <= b && r >= 0.0
    ensures a * r <= b * r
  {
    assert b * r - a * r == (b - a) * r;
    MulNonneg(b - a, r);
  }

  /** Multiplying by a positive number keeps a strict order. */
  lemma MulMonotone(a1: real, a2: real, b: real)
    requires a1 > a2 && b > 0.0
    ensures a1 * b > a2 * b
  {
    MulPos(a1 - a2, b);
  }

  /** Products of non-negative factors grow strictly with strictly larger factors. */
  lemma MulStrictlyMonotone(a1: real, a2: real, b1: real, b2: real)
    requires a1 > a2 >= 0.0 && b1 > b2 >= 0.0
    ensures a1 * b1 > a2 * b2
  {
    MulPos(a1, b1 - b2);
    assert a1 * b1 - a2 * b2 == a1 * (b1 - b2) + (a1 - a2) * b2;
    if b2 > 0.0 {
      MulPos(a1 - a2, b2);
    }
  }

  /** r^2 - d^2 is positive exactly when |d| < r, and zero exactly when |d| = r (for r > 0). */
  lemma SquaresOrdered(d: real, r: real)
    requires r > 0.0
    ensures r * r - d * d > 0.0 <==> -r < d < r
    ensures r * r - d * d == 0.0 <==> d == r || d == -r
  {
    assert r * r - d * d == (r - d) * (r + d);
    if -r < d < r {
      MulPos(r - d, r + d);
    } else if d > r {
      MulNegPos(r - d, r + d);
    } else if d < -r {
      MulNegPos(r + d, r - d);
    }
  }

  /** All five kernels vanish at and beyond the cutoff, so each is continuous there. */
  lemma KernelsVanishFromCutoff(radius: real, distance: real)
    requires radius > 0.0 && distance >= radius
    ensures SmoothingKernel(radius, distance) == 0.0
    ensures SmoothingKernelDerivative(radius, distance) == 0.0
    ensures SmoothingKernelNear(radius, distance) == 0.0
    ensures SmoothingKernelDerivativeNearAsWritten(radius, distance) == 0.0
    ensures SmoothingKernelDerivativeNear(radius, distance) == 0.0
    ensures SmoothingKernelViscosity(radius, distance) == 0.0
  {
  }

  /** The density kernel strictly decreases in the distance up to the radius. */
  lemma SmoothingKernelDecreasing(radius: real, d1: real, d2: real)
    requires radius > 0.0 && d1 < d2 <= radius
    ensures SmoothingKernel(radius, d1) > SmoothingKernel(radius, d2)
  {
    var c := Volume(6.0, radius, 4);
    var v1, v2 := radius - d1, radius - d2;
    MulMonotone(v1, v2, c);
    MulNonneg(v2, c);
    MulStrictlyMonotone(v1, v2, v1 * c, v2 * c);
    assert v1 * v1 * c == v1 * (v1 * c) && v2 * v2 * c == v2 * (v2 * c);
  }

  /** The near-density kernel strictly decreases in the distance up to the radius. */
  lemma SmoothingKernelNearDecreasing(radius: real, d1: real, d2: real)
    requires radius > 0.0 && d1 < d2 <= radius
    ensures SmoothingKernelNear(radius, d1) > SmoothingKernelNear(radius, d2)
  {
    var c := Volume(10.0, radius, 5);
    var v1, v2 := radius - d1, radius - d2;
    MulMonotone(v1, v2, c);
    MulNonneg(v2, c);
    MulStrictlyMonotone(v1, v2, v1 * c, v2 * c);
    MulNonneg(v2, v2 * c);
    MulStrictlyMonotone(v1, v2, v1 * (v1 * c), v2 * (v2 * c));
    assert v1 * v1 * v1 * c == v1 * (v1 * (v1 * c)) && v2 * v2 * v2 * c == v2 * (v2 * (v2 * c));
  }

  /**
   * SmoothingKernelDerivative is the exact derivative of SmoothingKernel
   * inside the radius: the change of the kernel over a step h is h times the
   * slope plus a term of order h^2.
   */
  lemma SmoothingKernelDerivativeIsSlope(radius: real, distance: real, h: real)
    requires radius > 0.0 && distance <= radius && distance + h <= radius
    ensures SmoothingKernel(radius, distance + h) - SmoothingKernel(radius, distance)
         == h * SmoothingKernelDerivative(radius, distance) + h * h * Volume(6.0, radius, 4)
  {
    var c := Volume(6.0, radius, 4);
    assert Volume(12.0, radius, 4) == 2.0 * c;
    var v := radius - distance;
    assert (v - h) * (v - h) * c - v * v * c == h * ((distance - radius) * (2.0 * c)) + h * h * c;
  }

  /**
   * The corrected near slope is the exact derivative of SmoothingKernelNear
   * inside the radius, with a remainder of order h^2.
   */
  lemma SmoothingKernelDerivativeNearIsSlope(radius: real, distance: real, h: real)
    requires radius > 0.0 && distance <= radius && distance + h <= radius
    ensures SmoothingKernelNear(radius, distance + h) - SmoothingKernelNear(radius, distance)
         == h * SmoothingKernelDerivativeNear(radius, distance)
            + h * h * Volume(10.0, radius, 5) * (3.0 * (radius - distance) - h)
  {
    var c := Volume(10.0, radius, 5);
    assert Volume(30.0, radius, 5) == 3.0 * c;
    var v := radius - distance;
    assert (v - h) * (v - h) * (v - h) * c - v * v * v * c
        == h * -(v * v * (3.0 * c)) + h * h * c * (3.0 * v - h);
  }

  /**
   * The near slope as written is the derivative of SmoothingKernelNear with
   * its sign flipped: where the kernel falls, the value returned is positive.
   */
  lemma DerivativeNearAsWrittenIsNegatedSlope(radius: real, distance: real, h: real)
    requires radius > 0.0 && distance <= radius && distance + h <= radius
    ensures SmoothingKernelNear(radius, distance + h) - SmoothingKernelNear(radius, distance)
         == -h * SmoothingKernelDerivativeNearAsWritten(radius, distance)
            + h * h * Volume(10.0, radius, 5) * (3.0 * (radius - distance) - h)
  {
    SmoothingKernelDerivativeNearIsSlope(radius, distance, h);
  }

  /**
   * A concrete witness of the sign error: at radius 1 and distance 0 the near
   * kernel is falling, yet the slope as written is positive.
   */
  lemma DerivativeNearAsWrittenWrongSignAtOrigin()
    ensures SmoothingKernelNear(1.0, 0.5) < SmoothingKernelNear(1.0, 0.0)
    ensures SmoothingKernelDerivativeNearAsWritten(1.0, 0.0) > 0.0
    ensures SmoothingKernelDerivativeNear(1.0, 0.0) < 0.0
  {
    SmoothingKernelNearDecreasing(1.0, 0.0, 0.5);
  }

  /** The slope as written has the opposite sign to the density kernel's slope. */
  lemma NearSlopeAsWrittenOppositeToDensitySlope(radius: real, distance: real)
    requires radius > 0.0 && distance < radius
    ensures SmoothingKernelDerivative(radius, distance) < 0.0
    ensures SmoothingKernelDerivativeNearAsWritten(radius, distance) > 0.0
  {
  }
}
