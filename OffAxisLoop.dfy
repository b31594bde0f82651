/*
 * Field of one circular current loop (src/coilcalc/_off_axis_loop.py):
 * the geometric ratios, the prefactor B0 and the handling of the sign of r
 * and of points on the axis. The elliptic integrals and the square root are
 * the opaque routines of Numerics.Kernels, so the lemmas here are about the
 * wrapper: symmetry in r, the on-axis zero and linearity in the current.
 */
module OffAxisLoop {
  import opened Common
  import opened Numerics

  /** numpy's pi as a double. */
  const Pi: real := 3.141592653589793

  /** Vacuum permeability u0 = 4e-7 * pi. */
  const Mu0: real := 0.0000004 * Pi

  /** B0(i, a) = i * u0 / 2 / a: the field at the centre of the loop. */
  function B0(num: Kernels, i: real, a: real): real
  {
    Div(num, i * Mu0 / 2.0, a)
  }

  function Alpha(num: Kernels, r: real, a: real): real { Div(num, r, a) }

  function Beta(num: Kernels, x: real, a: real): real { Div(num, x, a) }

  function Gamma(num: Kernels, x: real, r: real): real { Div(num, x, r) }

  function Q(num: Kernels, r: real, x: real, a: real): real
  {
    (1.0 + Alpha(num, r, a)) * (1.0 + Alpha(num, r, a)) + Beta(num, x, a) * Beta(num, x, a)
  }

  /** The elliptic modulus k = sqrt(4 alpha / Q). */
  function Modulus(num: Kernels, r: real, x: real, a: real): real
  {
    num.sqrt(Div(num, 4.0 * Alpha(num, r, a), Q(num, r, x, a)))
  }

  /** K(k) = ellipk(k**2). */
  function EllK(num: Kernels, k: real): real { num.ellipK(k * k) }

  /** E(k) = ellipe(k**2). */
  function EllE(num: Kernels, k: real): real { num.ellipE(k * k) }

  /** The current-independent factor of the axial field, for r already made non-negative. */
  function AxialShape(num: Kernels, a: real, x: real, r: real): real
  {
    var al, be, q := Alpha(num, r, a), Beta(num, x, a), Q(num, r, x, a);
    var k := Modulus(num, r, x, a);
    EllE(num, k) * Div(num, 1.0 - al * al - be * be, q - 4.0 * al) + EllK(num, k)
  }

  /** The current-independent factor of the radial field, for r already made non-negative. */
  function RadialShape(num: Kernels, a: real, x: real, r: real): real
  {
    var al, be, q := Alpha(num, r, a), Beta(num, x, a), Q(num, r, x, a);
    var k := Modulus(num, r, x, a);
    Gamma(num, x, r) * (EllE(num, k) * Div(num, 1.0 + al * al + be * be, q - 4.0 * al) - EllK(num, k))
  }

  /**
   * field_axial(i, a, x, r): axial field of a loop of radius a carrying i,
   * at axial distance x and radial distance r (metres). Only |r| is used.
   */
  function FieldAxial(num: Kernels, i: real, a: real, x: real, r: real): real
  {
    AxialMagnitude(num, i, a, x, Abs(r))
  }

  /** The axial field computed with a non-negative radial distance rr. */
  function AxialMagnitude(num: Kernels, i: real, a: real, x: real, rr: real): real
  {
    Div(num, B0(num, i, a) * AxialShape(num, a, x, rr) / Pi, num.sqrt(Q(num, rr, x, a)))
  }

  /** The radial field computed with |r|, before the sign of r is put back. */
  function RadialMagnitude(num: Kernels, i: real, a: real, x: real, rr: real): real
  {
    Div(num, B0(num, i, a) * RadialShape(num, a, x, rr) / Pi, num.sqrt(Q(num, rr, x, a)))
  }

  /**
   * field_radial(i, a, x, r) for a scalar r: zero on the axis, otherwise the
   * value computed with |r| times sign(r).
   */
  function FieldRadial(num: Kernels, i: real, a: real, x: real, r: real): real
  {
    var rr := Abs(r);
    if rr == 0.0 then 0.0 else RadialMagnitude(num, i, a, x, rr) * Sign(r)
  }

  /**
   * field_radial on equal-length arrays: the value is computed elementwise
   * with |r|, entries with r == 0 are overwritten with 0, and the result is
   * multiplied by sign(r).
   */
  function FieldRadialArray(num: Kernels, i: seq<real>, a: seq<real>, x: seq<real>, r: seq<real>): (res: seq<real>)
    requires |i| == |a| == |x| == |r|
    ensures |res| == |r|
    ensures forall k :: 0 <= k < |r| && r[k] == 0.0 ==> res[k] == 0.0
  {
    seq(|r|, k requires 0 <= k < |r| =>
      (if Abs(r[k]) == 0.0 then 0.0 else RadialMagnitude(num, i[k], a[k], x[k], Abs(r[k]))) * Sign(r[k]))
  }

  /** field_axial on equal-length arrays, elementwise. */
  function FieldAxialArray(num: Kernels, i: seq<real>, a: seq<real>, x: seq<real>, r: seq<real>): (res: seq<real>)
    requires |i| == |a| == |x| == |r|
    ensures |res| == |r|
  {
    seq(|r|, k requires 0 <= k < |r| => FieldAxial(num, i[k], a[k], x[k], r[k]))
  }

  /** The prefactor is the centre field u0 i / (2 a) of a loop of non-zero radius. */
  lemma B0Value(num: Kernels, i: real, a: real)
    requires a != 0.0
    ensures B0(num, i, a) * (2.0 * a) == i * Mu0
  {
  }

  /** The axial field depends on r only through |r|: it is even in r. */
  lemma AxialEvenInR(num: Kernels, i: real, a: real, x: real, r: real)
    ensures FieldAxial(num, i, a, x, -r) == FieldAxial(num, i, a, x, r)
  {
    assert Abs(-r) == Abs(r);
  }

  /** The radial field is odd in r: the sign of r is re-applied to the |r| result. */
  lemma RadialOddInR(num: Kernels, i: real, a: real, x: real, r: real)
    ensures FieldRadial(num, i, a, x, -r) == -FieldRadial(num, i, a, x, r)
  {
  }

  /** On the axis the radial field is exactly zero, whatever the kernels give. */
  lemma RadialZeroOnAxis(num: Kernels, i: real, a: real, x: real)
    ensures FieldRadial(num, i, a, x, 0.0) == 0.0
  {
  }

  /** The array form agrees with the scalar form element by element. */
  lemma RadialArrayMatchesScalar(num: Kernels, i: seq<real>, a: seq<real>, x: seq<real>, r: seq<real>, k: nat)
    requires |i| == |a| == |x| == |r| && k < |r|
    ensures FieldRadialArray(num, i, a, x, r)[k] == FieldRadial(num, i[k], a[k], x[k], r[k])
  {
  }

  /** Scaling the current scales B0 (for a loop of non-zero radius). */
  lemma B0Linear(num: Kernels, i: real, a: real)
    requires a != 0.0
    ensures B0(num, i, a) == i * B0(num, 1.0, a)
  {
    var h := Mu0 / 2.0;
    assert i * Mu0 / 2.0 == i * h;
    assert (i * h) / a == i * (h / a);
  }

  /** A common shape: (B0(i) * s / pi) / d is i times the unit-current value. */
  lemma ScaledQuotient(num: Kernels, i: real, a: real, s: real, d: real)
    requires a != 0.0 && d != 0.0
    ensures Div(num, B0(num, i, a) * s / Pi, d) == i * Div(num, B0(num, 1.0, a) * s / Pi, d)
  {
    B0Linear(num, i, a);
    var u := B0(num, 1.0, a);
    assert B0(num, i, a) * s / Pi == i * (u * s / Pi);
    assert (i * (u * s / Pi)) / d == i * ((u * s / Pi) / d);
  }

  /**
   * The axial field is linear in the current: i amperes give i times the
   * field of one ampere, wherever the loop radius and sqrt(Q) are non-zero.
   */
  lemma AxialProportionalToCurrent(num: Kernels, i: real, a: real, x: real, r: real)
    requires a != 0.0 && num.sqrt(Q(num, Abs(r), x, a)) != 0.0
    ensures FieldAxial(num, i, a, x, r) == i * FieldAxial(num, 1.0, a, x, r)
  {
    ScaledQuotient(num, i, a, AxialShape(num, a, x, Abs(r)), num.sqrt(Q(num, Abs(r), x, a)));
  }

  /** The radial field is linear in the current under the same conditions. */
  lemma RadialProportionalToCurrent(num: Kernels, i: real, a: real, x: real, r: real)
    requires a != 0.0 && num.sqrt(Q(num, Abs(r), x, a)) != 0.0
    ensures FieldRadial(num, i, a, x, r) == i * FieldRadial(num, 1.0, a, x, r)
  {
    var rr := Abs(r);
    if rr != 0.0 {
      RadialMagnitudeLinear(num, i, a, x, rr);
      var m := RadialMagnitude(num, 1.0, a, x, rr);
      assert (i * m) * Sign(r) == i * (m * Sign(r));
    }
  }

  lemma RadialMagnitudeLinear(num: Kernels, i: real, a: real, x: real, rr: real)
    requires a != 0.0 && num.sqrt(Q(num, rr, x, a)) != 0.0
    ensures RadialMagnitude(num, i, a, x, rr) == i * RadialMagnitude(num, 1.0, a, x, rr)
  {
    ScaledQuotient(num, i, a, RadialShape(num, a, x, rr), num.sqrt(Q(num, rr, x, a)));
  }
}
