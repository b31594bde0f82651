/*
 * The rectangular (x, r) calculation mesh, identical in src/magcoilcalc/core.py
 * and src/coilcalc/core.py: x_range validation, step sizes, the per-axis
 * linspaces, the node grids of np.meshgrid and the pixel-boundary grids used
 * for plotting.
 */
module MeshGeometry {
  import opened Common

  /**
   * A Mesh as stored: x_range is validated to have two entries, y_range and
   * the step counts are stored as given.
   */
  datatype Mesh = Mesh(xRange: seq<real>, yRange: seq<real>, xSteps: nat, ySteps: nat)
  {
    predicate Valid() { |xRange| == 2 }
  }

  /**
   * Mesh(x_range, y_range, x_steps, y_steps): an x_range without a length
   * (None, the default) or of a length other than 2 raises ValueError.
   */
  function MakeMesh(xRange: Option<seq<real>>, yRange: seq<real>, xSteps: nat, ySteps: nat): (res: Result<Mesh>)
    ensures res.Success? <==> xRange.Some? && |xRange.value| == 2
    ensures res.Failure? ==> res.error == ValueError
    ensures res.Success? ==> res.value.Valid() && res.value == Mesh(xRange.value, yRange, xSteps, ySteps)
  {
    if xRange.None? || |xRange.value| != 2 then Failure(ValueError)
    else Success(Mesh(xRange.value, yRange, xSteps, ySteps))
  }

  /**
   * x_step = (x1 - x0) / (x_steps - 1); one step divides by zero
   * (ZeroDivisionError on Python numbers).
   */
  function XStep(m: Mesh): (res: Result<real>)
    requires m.Valid()
    ensures res.Failure? <==> m.xSteps == 1
    ensures res.Failure? ==> res.error == ZeroDivisionError
    ensures res.Success? ==> res.value * ((m.xSteps - 1) as real) == m.xRange[1] - m.xRange[0]
  {
    if m.xSteps == 1 then Failure(ZeroDivisionError)
    else Success((m.xRange[1] - m.xRange[0]) / ((m.xSteps - 1) as real))
  }

  /**
   * y_step = (y1 - y0) / (y_steps - 1); a y_range with fewer than two entries
   * raises IndexError first.
   */
  function YStep(m: Mesh): (res: Result<real>)
    ensures |m.yRange| < 2 ==> res == Failure(IndexError)
    ensures |m.yRange| >= 2 && m.ySteps == 1 ==> res == Failure(ZeroDivisionError)
    ensures res.Success? <==> |m.yRange| >= 2 && m.ySteps != 1
    ensures res.Success? ==> res.value * ((m.ySteps - 1) as real) == m.yRange[1] - m.yRange[0]
  {
    if |m.yRange| < 2 then Failure(IndexError)
    else if m.ySteps == 1 then Failure(ZeroDivisionError)
    else Success((m.yRange[1] - m.yRange[0]) / ((m.ySteps - 1) as real))
  }

  /** x_linspace: the x coordinates of the node columns. */
  function XLinspace(m: Mesh): (xs: seq<real>)
    requires m.Valid()
    ensures |xs| == m.xSteps
  {
    Linspace(m.xRange[0], m.xRange[1], m.xSteps)
  }

  /** y_linspace: the r coordinates of the node rows. */
  function YLinspace(m: Mesh): (res: Result<seq<real>>)
    ensures res.Success? <==> |m.yRange| >= 2
    ensures res.Failure? ==> res.error == IndexError
    ensures res.Success? ==> |res.value| == m.ySteps
  {
    if |m.yRange| < 2 then Failure(IndexError) else Success(Linspace(m.yRange[0], m.yRange[1], m.ySteps))
  }

  /** The node grids of get_matrix: (x_mesh, y_mesh), each y_steps rows by x_steps columns. */
  datatype Matrix = Matrix(xMesh: Grid, yMesh: Grid)

  function GetMatrix(m: Mesh): (res: Result<Matrix>)
    requires m.Valid()
    ensures res.Success? <==> |m.yRange| >= 2
    ensures res.Success? ==>
      HasShape(res.value.xMesh, m.ySteps, m.xSteps) && HasShape(res.value.yMesh, m.ySteps, m.xSteps)
      && (forall i, j :: 0 <= i < m.ySteps && 0 <= j < m.xSteps ==>
            res.value.xMesh[i][j] == XLinspace(m)[j] && res.value.yMesh[i][j] == YLinspace(m).value[i])
  {
    match YLinspace(m)
    case Failure(e) => Failure(e)
    case Success(ys) => Success(Matrix(MeshX(XLinspace(m), ys), MeshY(XLinspace(m), ys)))
  }

  /**
   * pixel_bounds: the meshgrid of x_steps + 1 boundaries from x0 - x_step/2 to
   * x1 + x_step/2 and y_steps + 1 boundaries from y0 - y_step/2 to y1 + y_step/2.
   */
  function PixelBounds(m: Mesh): (res: Result<Matrix>)
    requires m.Valid()
    ensures res.Success? <==> m.xSteps != 1 && |m.yRange| >= 2 && m.ySteps != 1
    ensures res.Success? ==>
      HasShape(res.value.xMesh, m.ySteps + 1, m.xSteps + 1) && HasShape(res.value.yMesh, m.ySteps + 1, m.xSteps + 1)
  {
    match XStep(m)
    case Failure(e) => Failure(e)
    case Success(sx) =>
      match YStep(m)
      case Failure(e) => Failure(e)
      case Success(sy) =>
        var xb := Linspace(m.xRange[0] - sx / 2.0, m.xRange[1] + sx / 2.0, m.xSteps + 1);
        var yb := Linspace(m.yRange[0] - sy / 2.0, m.yRange[1] + sy / 2.0, m.ySteps + 1);
        Success(Matrix(MeshX(xb, yb), MeshY(xb, yb)))
  }

  /** The x boundaries along one row of the pixel-bound grid. */
  function XBounds(m: Mesh, sx: real): seq<real>
    requires m.Valid()
  {
    Linspace(m.xRange[0] - sx / 2.0, m.xRange[1] + sx / 2.0, m.xSteps + 1)
  }

  /** The y boundaries along one column of the pixel-bound grid. */
  function YBounds(m: Mesh, sy: real): seq<real>
    requires |m.yRange| >= 2
  {
    Linspace(m.yRange[0] - sy / 2.0, m.yRange[1] + sy / 2.0, m.ySteps + 1)
  }

  /** x_step is the spacing of the x nodes. */
  lemma XStepIsSpacing(m: Mesh, k: nat)
    requires m.Valid() && k + 1 < m.xSteps
    ensures XStep(m).Success? && XLinspace(m)[k + 1] - XLinspace(m)[k] == XStep(m).value
  {
    LinspaceUniform(m.xRange[0], m.xRange[1], m.xSteps, k);
  }

  /**
   * n nodes from a to b with spacing s, and n + 1 bounds from a - s/2 to
   * b + s/2: the bounds keep the spacing s, so each node is the midpoint of
   * its two bounds.
   */
  lemma BoundsCentred(a: real, b: real, n: nat, s: real, k: nat)
    requires n >= 2 && k < n && s * ((n - 1) as real) == b - a
    ensures var bs := Linspace(a - s / 2.0, b + s / 2.0, n + 1);
      bs[0] == a - s / 2.0 && bs[n] == b + s / 2.0 && bs[k] + bs[k + 1] == 2.0 * Linspace(a, b, n)[k]
  {
    var lo, hi := a - s / 2.0, b + s / 2.0;
    var bs := Linspace(lo, hi, n + 1);
    BoundsStep(a, b, n, s);
    assert bs[n] == hi by { LinspaceLast(lo, hi, n + 1); }
    assert bs[k] + bs[k + 1] == 2.0 * Linspace(a, b, n)[k] by {
      LinspaceAt(lo, hi, n + 1, k);
      LinspaceAt(lo, hi, n + 1, k + 1);
      LinspaceAt(a, b, n, k);
      NextMultiple(k, s);
    }
  }

  /** Both the nodes and the bounds are spaced by s. */
  lemma BoundsStep(a: real, b: real, n: nat, s: real)
    requires n >= 2 && s * ((n - 1) as real) == b - a
    ensures LinspaceStep(a - s / 2.0, b + s / 2.0, n + 1) == s && LinspaceStep(a, b, n) == s
  {
    var nr := n as real;
    assert (b + s / 2.0) - (a - s / 2.0) == s * nr by {
      assert s * nr == s * (nr - 1.0) + s;
    }
    DivideBack((b + s / 2.0) - (a - s / 2.0), nr, s);
    DivideBack(b - a, nr - 1.0, s);
  }

  lemma NextMultiple(k: nat, s: real)
    ensures ((k + 1) as real) * s == (k as real) * s + s
  {
  }

  /** A quotient by a non-zero divisor is the factor that multiplies back. */
  lemma DivideBack(p: real, d: real, q: real)
    requires d != 0.0 && q * d == p
    ensures p / d == q
  {
  }

  /**
   * The pixel boundaries run from x0 - x_step/2 to x1 + x_step/2, and every
   * node lies exactly halfway between the two boundaries of its pixel.
   */
  lemma PixelBoundsCentred(m: Mesh, k: nat)
    requires m.Valid() && m.xSteps >= 2 && k < m.xSteps
    ensures var sx := XStep(m).value; var xb := XBounds(m, sx);
      xb[0] == m.xRange[0] - sx / 2.0 && xb[m.xSteps] == m.xRange[1] + sx / 2.0
      && xb[k] + xb[k + 1] == 2.0 * XLinspace(m)[k]
  {
    BoundsCentred(m.xRange[0], m.xRange[1], m.xSteps, XStep(m).value, k);
  }

  /** The pixel-bound grid of a mesh carries the x bounds along every row. */
  lemma PixelBoundsRows(m: Mesh)
    requires m.Valid() && m.xSteps != 1 && |m.yRange| >= 2 && m.ySteps != 1
    ensures forall i, j :: 0 <= i < m.ySteps + 1 && 0 <= j < m.xSteps + 1 ==>
      PixelBounds(m).value.xMesh[i][j] == XBounds(m, XStep(m).value)[j]
  {
  }

  /** y_step is the spacing of the r nodes. */
  lemma YStepIsSpacing(m: Mesh, k: nat)
    requires |m.yRange| >= 2 && k + 1 < m.ySteps
    ensures YStep(m).Success? && YLinspace(m).value[k + 1] - YLinspace(m).value[k] == YStep(m).value
  {
    LinspaceUniform(m.yRange[0], m.yRange[1], m.ySteps, k);
  }

  /**
   * The radial pixel boundaries run from y0 - y_step/2 to y1 + y_step/2, and
   * every node row lies exactly halfway between the two boundaries of its pixel.
   */
  lemma PixelBoundsCentredY(m: Mesh, k: nat)
    requires |m.yRange| >= 2 && m.ySteps >= 2 && k < m.ySteps
    ensures var sy := YStep(m).value; var yb := YBounds(m, sy);
      yb[0] == m.yRange[0] - sy / 2.0 && yb[m.ySteps] == m.yRange[1] + sy / 2.0
      && yb[k] + yb[k + 1] == 2.0 * YLinspace(m).value[k]
  {
    BoundsCentred(m.yRange[0], m.yRange[1], m.ySteps, YStep(m).value, k);
  }

  /** The pixel-bound grid of a mesh carries the y bounds down every column. */
  lemma PixelBoundsColumns(m: Mesh)
    requires m.Valid() && m.xSteps != 1 && |m.yRange| >= 2 && m.ySteps != 1
    ensures forall i, j :: 0 <= i < m.ySteps + 1 && 0 <= j < m.xSteps + 1 ==>
      PixelBounds(m).value.yMesh[i][j] == YBounds(m, YStep(m).value)[i]
  {
  }

  /**
   * The worked example of the mesh tests: [-50, 50] x [-20, 20] with 51 x 21
   * nodes has steps 2 and 2, pixel-bound grids of 22 x 52, x bounds -51 .. 51
   * and y bounds -21 .. 21.
   */
  lemma ExampleMesh()
    ensures var m := Mesh([-50.0, 50.0], [-20.0, 20.0], 51, 21);
      XStep(m) == Success(2.0) && YStep(m) == Success(2.0)
      && PixelBounds(m).Success?
      && HasShape(PixelBounds(m).value.xMesh, 22, 52) && HasShape(PixelBounds(m).value.yMesh, 22, 52)
      && PixelBounds(m).value.xMesh[0][0] == -51.0 && PixelBounds(m).value.xMesh[0][51] == 51.0
      && PixelBounds(m).value.yMesh[0][0] == -21.0 && PixelBounds(m).value.yMesh[21][51] == 21.0
  {
    var m := Mesh([-50.0, 50.0], [-20.0, 20.0], 51, 21);
    LinspaceLast(-51.0, 51.0, 52);
    LinspaceLast(-21.0, 21.0, 22);
  }
}
