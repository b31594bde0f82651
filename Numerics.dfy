/*
 * The floating-point routines the solver calls but this model does not look
 * inside: scipy's complete elliptic integrals, the square root, the
 * quadrature-based current-sheet kernel and scipy's RegularGridInterpolator
 * (its values and whether it raises).
 * They are carried as values of a record, so every statement about the
 * bookkeeping around them holds for whatever they compute.
 */
module Numerics {

  datatype Kernels = Kernels(
    /** scipy.special.ellipk(m), the complete elliptic integral of the first kind. */
    ellipK: real -> real,
    /** scipy.special.ellipe(m), the complete elliptic integral of the second kind. */
    ellipE: real -> real,
    /** numpy.sqrt on a non-negative argument. */
    sqrt: real -> real,
    /** _current_sheet.field_axial(total current, radius, length, x, rho), lengths in mm. */
    sheetAxial: (real, real, real, real, real) -> real,
    /** _current_sheet.field_radial(total current, radius, length, x, rho), lengths in mm. */
    sheetRadial: (real, real, real, real, real) -> real,
    /**
     * RegularGridInterpolator((xs, ys), grid transposed) evaluated at (px, py),
     * for a grid indexed [row = y index][column = x index].
     */
    interpolate: (seq<seq<real>>, seq<real>, seq<real>, real, real) -> real,
    /**
     * Whether building RegularGridInterpolator((xs, ys), ...) with its default
     * bounds_error=True, or evaluating it at (px, py), raises ValueError.
     */
    interpolationFails: (seq<real>, seq<real>, real, real) -> bool,
    /** What a floating-point division by zero produces (an infinity or a NaN). */
    singular: real
  )

  /** The square root routine returns the non-negative root of a non-negative argument. */
  ghost predicate SqrtIsRoot(num: Kernels)
  {
    forall v: real {:trigger num.sqrt(v)} :: v >= 0.0 ==> num.sqrt(v) >= 0.0 && num.sqrt(v) * num.sqrt(v) == v
  }

  /** Strictly increasing samples, as a grid axis of the interpolator. */
  predicate Increasing(s: seq<real>)
  {
    forall i, j :: 0 <= i < j < |s| ==> s[i] < s[j]
  }

  /**
   * The interpolator's bounds check: over strictly increasing axes of at
   * least two samples each, it raises exactly for a point outside the box
   * spanned by the first and last samples.
   */
  ghost predicate BoundsChecked(num: Kernels)
  {
    forall xs: seq<real>, ys: seq<real>, px: real, py: real {:trigger num.interpolationFails(xs, ys, px, py)} ::
      Increasing(xs) && Increasing(ys) && |xs| >= 2 && |ys| >= 2 ==>
        (num.interpolationFails(xs, ys, px, py) <==>
           !(xs[0] <= px <= xs[|xs| - 1] && ys[0] <= py <= ys[|ys| - 1]))
  }

  /** Floating-point division: the exact quotient, or the singular value for a zero divisor. */
  function Div(num: Kernels, n: real, d: real): (q: real)
    ensures d != 0.0 ==> q * d == n
    ensures d == 0.0 ==> q == num.singular
  {
    if d == 0.0 then num.singular else n / d
  }
}
