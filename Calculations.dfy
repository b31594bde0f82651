/*
 * The derived quantities of src/coilcalc/calculations.py and of the older
 * copy coilcalc/calculations.py: the lateral field gradient (np.gradient
 * with steps of a tenth of the mesh step), the figure of merit of a
 * cylindrical cell, and the parameter scan. Both copies share
 * fom_cylindrical_cell and parameter_scan line for line; find_gradient of
 * the older copy lacks the 'xyt' mode and defaults to 'xy'.
 *
 * A solved task is read through a TaskView: the values its properties
 * return (done, the field grids, the mesh, the centre field).
 */
module Calculations {
  import opened Common
  import opened Numerics
  import opened MeshGeometry
  import CoilTask

  /** What calculations.py reads from a task. */
  datatype TaskView = TaskView(done: bool, xField: Grid, yField: Grid, mesh: Option<Mesh>, centerField: Option<Field>)
  {
    /**
     * What a solved task guarantees: a mesh with a two-ended y_range and
     * grids of its shape. The centre field may be missing, or left from an
     * earlier solve, when the interpolator raised at (0, 0).
     */
    predicate Consistent()
    {
      done ==>
        mesh.Some? && mesh.value.Valid() && |mesh.value.yRange| >= 2
        && HasShape(xField, mesh.value.ySteps, mesh.value.xSteps)
        && HasShape(yField, mesh.value.ySteps, mesh.value.xSteps)
    }
  }

  /** The view of a coilcalc Task. */
  function ViewOf(t: CoilTask.Task): TaskView
    reads t
  {
    TaskView(t.done, t.xField, t.yField, t.mesh, t.centerField)
  }

  /** A task left done by a solver is consistent, and has its centre field. */
  lemma SolvedViewConsistent(num: Kernels, t: CoilTask.Task)
    requires t.Valid() && t.Solvable() && t.done && t.HoldsSolution(num)
    ensures ViewOf(t).Consistent() && ViewOf(t).centerField.Some?
  {
    var m := t.mesh.value;
    assert HasShape(t.xField, m.ySteps, m.xSteps);
    assert HasShape(t.yField, m.ySteps, m.xSteps);
  }

  /**
   * np.gradient of a 1-D sequence with uniform spacing h, at index k:
   * one-sided differences at the two ends, central differences inside.
   */
  function Stencil(num: Kernels, s: seq<real>, h: real, k: nat): real
    requires |s| >= 2 && k < |s|
  {
    if k == 0 then Div(num, s[1] - s[0], h)
    else if k == |s| - 1 then Div(num, s[k] - s[k - 1], h)
    else Div(num, s[k + 1] - s[k - 1], 2.0 * h)
  }

  /** On samples that rise by c per index, the stencil gives c / h everywhere. */
  lemma StencilLinear(num: Kernels, s: seq<real>, h: real, c: real, k: nat)
    requires |s| >= 2 && k < |s| && h != 0.0
    requires forall n :: 0 <= n < |s| - 1 ==> s[n + 1] - s[n] == c
    ensures Stencil(num, s, h, k) == c / h
  {
    if 0 < k < |s| - 1 {
      assert s[k + 1] - s[k] == c;
      assert s[k - 1 + 1] - s[k - 1] == c;
      assert s[k + 1] - s[k - 1] == 2.0 * c;
      assert (2.0 * c) / (2.0 * h) == c / h;
    } else if k == 0 {
      assert s[1] - s[0] == c;
    } else {
      assert s[k] - s[k - 1] == c;
    }
  }

  /** Column j of a grid. */
  function Column(g: Grid, rows: nat, cols: nat, j: nat): (col: seq<real>)
    requires HasShape(g, rows, cols) && j < cols
    ensures |col| == rows
    ensures forall i :: 0 <= i < rows ==> col[i] == g[i][j]
  {
    seq(rows, i requires 0 <= i < rows => g[i][j])
  }

  /** np.gradient(g, h, axis=0): along each column. */
  function GradientAxis0(num: Kernels, g: Grid, h: real, rows: nat, cols: nat): (d: Grid)
    requires HasShape(g, rows, cols) && rows >= 2
    ensures HasShape(d, rows, cols)
    ensures forall i, j :: 0 <= i < rows && 0 <= j < cols ==> d[i][j] == Stencil(num, Column(g, rows, cols, j), h, i)
  {
    seq(rows, i requires 0 <= i < rows => seq(cols, j requires 0 <= j < cols => Stencil(num, Column(g, rows, cols, j), h, i)))
  }

  /** np.gradient(g, h, axis=1): along each row. */
  function GradientAxis1(num: Kernels, g: Grid, h: real, rows: nat, cols: nat): (d: Grid)
    requires HasShape(g, rows, cols) && cols >= 2
    ensures HasShape(d, rows, cols)
    ensures forall i, j :: 0 <= i < rows && 0 <= j < cols ==> d[i][j] == Stencil(num, g[i], h, j)
  {
    seq(rows, i requires 0 <= i < rows => seq(cols, j requires 0 <= j < cols => Stencil(num, g[i], h, j)))
  }

  /** The lateral field chosen by lat_field_axis ('y': y_field, otherwise x_field). */
  function LatField(t: TaskView, latFieldAxis: string): Grid
  {
    if latFieldAxis == "y" then t.yField else t.xField
  }

  /** y_mesh with its zero entries replaced by 1. */
  function NonZero(v: real): (w: real)
    ensures w != 0.0
    ensures v == 0.0 ==> w == 1.0
    ensures v != 0.0 ==> w == v
  {
    if v == 0.0 then 1.0 else v
  }

  /** The tangential term of 'xyt' at a node: y_field / y (zero y read as 1) * 10. */
  function Tangential(yField: real, y: real): real
  {
    yField / NonZero(y) * 10.0
  }

  /** The gradient modes a version of find_gradient accepts. */
  predicate KnownMode(gradientAxes: string, withTangential: bool)
  {
    (withTangential && gradientAxes == "xyt") || gradientAxes == "xy" || gradientAxes == "y" || gradientAxes == "x"
  }

  /**
   * The value of find_gradient at one node, from the two differences dy, dx,
   * the y_field entry and the node's y coordinate.
   */
  function GradientEntry(num: Kernels, gradientAxes: string, dy: real, dx: real, yField: real, y: real): real
  {
    if gradientAxes == "xyt" then
      var plane := num.sqrt(dy * dy + dx * dx);
      var tangent := Tangential(yField, y);
      num.sqrt(plane * plane + tangent * tangent)
    else if gradientAxes == "xy" then num.sqrt(dy * dy + dx * dx)
    else if gradientAxes == "y" then Abs(dy)
    else Abs(dx)
  }

  /**
   * find_gradient, both versions (withTangential: the 'xyt' mode of
   * src/coilcalc/calculations.py). The lateral field is read first
   * (ValueError for an unknown axis or an unsolved task), then
   * np.gradient along axis 0 with y_step / 10 and along axis 1 with
   * x_step / 10 (ZeroDivisionError for a one-step axis, ValueError for an
   * axis of fewer than two nodes), then the mode is dispatched (ValueError
   * for an unknown mode).
   */
  function GradientWith(num: Kernels, t: TaskView, latFieldAxis: string, gradientAxes: string, withTangential: bool)
    : (r: Result<Grid>)
    requires t.Consistent()
    ensures latFieldAxis != "y" && latFieldAxis != "x" ==> r == Failure(ValueError)
    ensures (latFieldAxis == "y" || latFieldAxis == "x") && !t.done ==> r == Failure(ValueError)
    ensures r.Success? <==>
      (latFieldAxis == "y" || latFieldAxis == "x") && t.done
      && t.mesh.value.ySteps >= 2 && t.mesh.value.xSteps >= 2 && KnownMode(gradientAxes, withTangential)
    ensures (latFieldAxis == "y" || latFieldAxis == "x") && t.done && t.mesh.value.ySteps == 1 ==> r == Failure(ZeroDivisionError)
    ensures (latFieldAxis == "y" || latFieldAxis == "x") && t.done && t.mesh.value.ySteps >= 2 && t.mesh.value.xSteps == 1 ==>
      r == Failure(ZeroDivisionError)
    ensures r.Success? ==> HasShape(r.value, t.mesh.value.ySteps, t.mesh.value.xSteps)
  {
    if latFieldAxis != "y" && latFieldAxis != "x" then Failure(ValueError)
    else if !t.done then Failure(ValueError)
    else
      var m := t.mesh.value;
      var rows, cols := m.ySteps, m.xSteps;
      var lat := LatField(t, latFieldAxis);
      match YStep(m)
      case Failure(e) => Failure(e)
      case Success(sy) =>
        if rows < 2 then Failure(ValueError)
        else
          var dy := GradientAxis0(num, lat, sy / 10.0, rows, cols);
          match XStep(m)
          case Failure(e) => Failure(e)
          case Success(sx) =>
            if cols < 2 then Failure(ValueError)
            else
              var dx := GradientAxis1(num, lat, sx / 10.0, rows, cols);
              if !KnownMode(gradientAxes, withTangential) then Failure(ValueError)
              else
                var ym := GetMatrix(m).value.yMesh;
                Success(seq(rows, i requires 0 <= i < rows =>
                  seq(cols, j requires 0 <= j < cols => GradientEntry(num, gradientAxes, dy[i][j], dx[i][j], t.yField[i][j], ym[i][j]))))
  }

  /** find_gradient of src/coilcalc/calculations.py: modes 'xyt', 'xy', 'y', 'x'. */
  function FindGradient(num: Kernels, t: TaskView, latFieldAxis: string, gradientAxes: string): (r: Result<Grid>)
    requires t.Consistent()
    ensures gradientAxes == "xyt" ==>
      (r.Success? <==> (latFieldAxis == "y" || latFieldAxis == "x") && t.done
                       && t.mesh.value.ySteps >= 2 && t.mesh.value.xSteps >= 2)
  {
    GradientWith(num, t, latFieldAxis, gradientAxes, true)
  }

  /** find_gradient of coilcalc/calculations.py: modes 'xy', 'y', 'x' only. */
  function FindGradientLegacy(num: Kernels, t: TaskView, latFieldAxis: string, gradientAxes: string): (r: Result<Grid>)
    requires t.Consistent()
    ensures gradientAxes == "xyt" ==> r.Failure? && (r.error == ValueError || r.error == ZeroDivisionError)
    ensures gradientAxes != "xyt" ==> r == FindGradient(num, t, latFieldAxis, gradientAxes)
  {
    GradientWith(num, t, latFieldAxis, gradientAxes, false)
  }

  /** The difference along axis 0 (step y_step / 10) at node (i, j) of a solved view. */
  function DY(num: Kernels, t: TaskView, latFieldAxis: string, i: nat, j: nat): real
    requires t.Consistent() && t.done && t.mesh.value.ySteps >= 2 && t.mesh.value.xSteps >= 2
    requires i < t.mesh.value.ySteps && j < t.mesh.value.xSteps
  {
    var m := t.mesh.value;
    Stencil(num, Column(LatField(t, latFieldAxis), m.ySteps, m.xSteps, j), YStep(m).value / 10.0, i)
  }

  /** The difference along axis 1 (step x_step / 10) at node (i, j) of a solved view. */
  function DX(num: Kernels, t: TaskView, latFieldAxis: string, i: nat, j: nat): real
    requires t.Consistent() && t.done && t.mesh.value.ySteps >= 2 && t.mesh.value.xSteps >= 2
    requires i < t.mesh.value.ySteps && j < t.mesh.value.xSteps
  {
    Stencil(num, LatField(t, latFieldAxis)[i], XStep(t.mesh.value).value / 10.0, j)
  }

  /** A successful gradient holds, at every node, the entry for that node's differences. */
  lemma GradientEntries(num: Kernels, t: TaskView, latFieldAxis: string, gradientAxes: string, withTangential: bool, i: nat, j: nat)
    requires t.Consistent() && GradientWith(num, t, latFieldAxis, gradientAxes, withTangential).Success?
    requires i < t.mesh.value.ySteps && j < t.mesh.value.xSteps
    ensures GradientWith(num, t, latFieldAxis, gradientAxes, withTangential).value[i][j]
      == GradientEntry(num, gradientAxes, DY(num, t, latFieldAxis, i, j), DX(num, t, latFieldAxis, i, j),
                       t.yField[i][j], GetMatrix(t.mesh.value).value.yMesh[i][j])
  {
  }

  /** Modes 'y' and 'x' give the absolute difference along that axis, never negative. */
  lemma SingleAxisModes(num: Kernels, t: TaskView, latFieldAxis: string, withTangential: bool, i: nat, j: nat)
    requires t.Consistent()
    requires GradientWith(num, t, latFieldAxis, "y", withTangential).Success?
    requires i < t.mesh.value.ySteps && j < t.mesh.value.xSteps
    ensures GradientWith(num, t, latFieldAxis, "y", withTangential).value[i][j] == Abs(DY(num, t, latFieldAxis, i, j)) >= 0.0
    ensures GradientWith(num, t, latFieldAxis, "x", withTangential).Success?
    ensures GradientWith(num, t, latFieldAxis, "x", withTangential).value[i][j] == Abs(DX(num, t, latFieldAxis, i, j)) >= 0.0
  {
    GradientEntries(num, t, latFieldAxis, "y", withTangential, i, j);
    GradientEntries(num, t, latFieldAxis, "x", withTangential, i, j);
  }

  /** g is the non-negative square root of a. */
  predicate RootOf(g: real, a: real)
  {
    g >= 0.0 && g * g == a
  }

  /** The 'xy' entry is the non-negative root of the sum of the squared differences. */
  lemma PlaneEntry(num: Kernels, dy: real, dx: real, yField: real, y: real)
    requires SqrtIsRoot(num)
    ensures RootOf(GradientEntry(num, "xy", dy, dx, yField, y), dy * dy + dx * dx)
  {
    assert dy * dy + dx * dx >= 0.0;
    var g := num.sqrt(dy * dy + dx * dx);
    assert g >= 0.0 && g * g == dy * dy + dx * dx;
  }

  /** The 'xyt' entry adds the squared tangential term under the root. */
  lemma TangentialEntry(num: Kernels, dy: real, dx: real, yField: real, y: real)
    requires SqrtIsRoot(num)
    ensures var tg := Tangential(yField, y);
      RootOf(GradientEntry(num, "xyt", dy, dx, yField, y), dy * dy + dx * dx + tg * tg)
  {
    PlaneEntry(num, dy, dx, yField, y);
    var plane := num.sqrt(dy * dy + dx * dx);
    var tg := Tangential(yField, y);
    assert plane * plane + tg * tg >= 0.0;
    var g := num.sqrt(plane * plane + tg * tg);
    assert g >= 0.0 && g * g == plane * plane + tg * tg;
  }

  /**
   * The differences use a tenth of the mesh step: a lateral field rising by
   * c from each node row to the next gives dy = 10 c / y_step everywhere.
   */
  lemma TenthStep(num: Kernels, t: TaskView, latFieldAxis: string, c: real, i: nat, j: nat)
    requires t.Consistent() && t.done && t.mesh.value.ySteps >= 2 && t.mesh.value.xSteps >= 2
    requires i < t.mesh.value.ySteps && j < t.mesh.value.xSteps
    requires t.mesh.value.yRange[1] != t.mesh.value.yRange[0]
    requires forall n :: 0 <= n < t.mesh.value.ySteps - 1 ==> LatField(t, latFieldAxis)[n + 1][j] - LatField(t, latFieldAxis)[n][j] == c
    ensures DY(num, t, latFieldAxis, i, j) == 10.0 * c / YStep(t.mesh.value).value
  {
    var m := t.mesh.value;
    var lat := LatField(t, latFieldAxis);
    var col := Column(lat, m.ySteps, m.xSteps, j);
    var sy := YStep(m).value;
    forall n | 0 <= n < |col| - 1
      ensures col[n + 1] - col[n] == c
    {
      assert col[n + 1] == lat[n + 1][j] && col[n] == lat[n][j];
    }
    YStepNonZero(m);
    StencilLinear(num, col, sy / 10.0, c, i);
    var d := DY(num, t, latFieldAxis, i, j);
    assert d == Stencil(num, col, sy / 10.0, i);
    TenthQuotient(d, c, sy);
  }

  lemma TenthQuotient(d: real, c: real, sy: real)
    requires sy != 0.0 && d == c / (sy / 10.0)
    ensures d == 10.0 * c / sy
  {
  }

  lemma YStepNonZero(m: Mesh)
    requires YStep(m).Success? && m.yRange[1] != m.yRange[0]
    ensures YStep(m).value != 0.0
  {
    assert YStep(m).value * ((m.ySteps - 1) as real) == m.yRange[1] - m.yRange[0];
  }

  /** The points of the cell: np.meshgrid of the two linspaces, flattened row by row. */
  function CellPoints(length: real, diameter: real, xsteps: nat, ysteps: nat): (p: (seq<real>, seq<real>))
    ensures |p.0| == |p.1| == xsteps * ysteps
  {
    var lsx := Linspace(-length / 2.0, length / 2.0, xsteps);
    var lsy := Linspace(-diameter / 2.0, diameter / 2.0, ysteps);
    FlattenShape(MeshX(lsx, lsy), ysteps, xsteps);
    FlattenShape(MeshY(lsx, lsy), ysteps, xsteps);
    (Flatten(MeshX(lsx, lsy)), Flatten(MeshY(lsx, lsy)))
  }

  lemma {:induction false} FlattenShape(g: Grid, rows: nat, cols: nat)
    requires HasShape(g, rows, cols)
    ensures |Flatten(g)| == rows * cols
  {
    if rows > 0 {
      FlattenShape(g[..rows - 1], rows - 1, cols);
      assert (rows - 1) * cols + cols == rows * cols;
    }
  }

  /** The absolute values of a sequence. */
  function AbsAll(s: seq<real>): (a: seq<real>)
    ensures |a| == |s|
    ensures forall k :: 0 <= k < |s| ==> a[k] == Abs(s[k]) && a[k] >= 0.0
  {
    seq(|s|, k requires 0 <= k < |s| => Abs(s[k]))
  }

  /** weights = abs(y) / sum(abs(y)). */
  function Weights(num: Kernels, ys: seq<real>): (w: seq<real>)
    ensures |w| == |ys|
  {
    var total := Sum(AbsAll(ys));
    seq(|ys|, k requires 0 <= k < |ys| => Div(num, Abs(ys[k]), total))
  }

  /** Dividing every entry by d divides the sum by d. */
  lemma {:induction false} SumScaled(s: seq<real>, q: seq<real>, d: real)
    requires d != 0.0 && |q| == |s|
    requires forall k :: 0 <= k < |s| ==> q[k] == s[k] / d
    ensures Sum(q) == Sum(s) / d
  {
    if s != [] {
      var n := |s| - 1;
      SumScaled(s[..n], q[..n], d);
      assert q[n] == s[n] / d;
      assert Sum(s[..n]) / d + s[n] / d == (Sum(s[..n]) + s[n]) / d;
    }
  }

  /** The weights sum to one whenever some point lies off the axis. */
  lemma WeightsSumToOne(num: Kernels, ys: seq<real>)
    requires Sum(AbsAll(ys)) != 0.0
    ensures Sum(Weights(num, ys)) == 1.0
  {
    var a, total := AbsAll(ys), Sum(AbsAll(ys));
    SumScaled(a, Weights(num, ys), total);
    assert total / total == 1.0;
  }

  /** Elementwise product. */
  function Times2(g: seq<real>, w: seq<real>): (p: seq<real>)
    requires |g| == |w|
    ensures |p| == |g|
    ensures forall k :: 0 <= k < |g| ==> p[k] == g[k] * w[k]
  {
    seq(|g|, k requires 0 <= k < |g| => g[k] * w[k])
  }

  /** 1 / (5e-4 / s): the score for the weighted gradient sum s. */
  function Score(num: Kernels, s: real): (score: real)
    ensures s != 0.0 ==> score == s / 0.0005
  {
    Div(num, 1.0, Div(num, 0.0005, s))
  }

  /**
   * fom_cylindrical_cell, given the gradient the task's interpolator is
   * built on: ValueError for an unsolved task or a mesh that does not cover
   * [-length/2, length/2] x [-diameter/2, diameter/2]; the gradient's own
   * errors; TypeError from indexing a missing centre field; otherwise every
   * gradient at the cell points (interpolated, divided by the axial centre
   * field) is weighted by |y| / sum |y|, and the weighted sum over 5e-4 is
   * the score.
   */
  function FomWith(num: Kernels, t: TaskView, gradient: TaskView -> Result<Grid>, length: real, diameter: real, xsteps: nat, ysteps: nat)
    : (r: Result<real>)
    requires t.Consistent()
    ensures !t.done ==> r == Failure(ValueError)
    ensures t.done && !Covers(t.mesh.value, length, diameter) ==> r == Failure(ValueError)
    ensures t.done && Covers(t.mesh.value, length, diameter) && gradient(t).Failure? ==> r == Failure(gradient(t).error)
    ensures t.done && Covers(t.mesh.value, length, diameter) && gradient(t).Success? && t.centerField.None? ==> r == Failure(TypeError)
    ensures r.Success? <==> t.done && Covers(t.mesh.value, length, diameter) && gradient(t).Success? && t.centerField.Some?
    ensures r.Success? ==>
      var m := t.mesh.value;
      var p := CellPoints(length, diameter, xsteps, ysteps);
      var gs := CellGradients(num, m, gradient(t).value, t.centerField.value.axial, p.0, p.1);
      r.value == Score(num, Sum(Times2(gs, Weights(num, p.1))))
  {
    if !t.done then Failure(ValueError)
    else
      var m := t.mesh.value;
      if !Covers(m, length, diameter) then Failure(ValueError)
      else
        var p := CellPoints(length, diameter, xsteps, ysteps);
        var w := Weights(num, p.1);
        match gradient(t)
        case Failure(e) => Failure(e)
        case Success(g) =>
          if t.centerField.None? then Failure(TypeError)
          else
            var gs := CellGradients(num, m, g, t.centerField.value.axial, p.0, p.1);
            Success(Score(num, Sum(Times2(gs, w))))
  }

  /** The mesh covers the cell: x_range[0] <= -length/2, x_range[1] >= length/2, likewise y_range with the diameter. */
  predicate Covers(m: Mesh, length: real, diameter: real)
    requires m.Valid() && |m.yRange| >= 2
  {
    !(m.xRange[0] > -length / 2.0 || m.xRange[1] < length / 2.0 || m.yRange[0] > -diameter / 2.0 || m.yRange[1] < diameter / 2.0)
  }

  /** The gradient interpolated at every cell point, divided by the axial centre field. */
  function CellGradients(num: Kernels, m: Mesh, g: Grid, center: real, xs: seq<real>, ys: seq<real>): (gs: seq<real>)
    requires m.Valid() && |m.yRange| >= 2 && |xs| == |ys|
    ensures |gs| == |xs|
  {
    var lx, ly := XLinspace(m), YLinspace(m).value;
    seq(|xs|, k requires 0 <= k < |xs| => Div(num, num.interpolate(g, lx, ly, xs[k], ys[k]), center))
  }

  /** fom_cylindrical_cell of src/coilcalc/calculations.py, over the 'xyt' gradient of the lateral y field. */
  function Fom(num: Kernels, t: TaskView, length: real, diameter: real, xsteps: nat, ysteps: nat): (r: Result<real>)
    requires t.Consistent()
    ensures !t.done ==> r == Failure(ValueError)
  {
    FomWith(num, t, (v: TaskView) => if v.Consistent() then FindGradient(num, v, "y", "xyt") else Failure(ValueError),
            length, diameter, xsteps, ysteps)
  }

  /**
   * The score is the weighted sum of the normalised gradients over 5e-4,
   * with weights that sum to one, whenever the weighted sum is not zero
   * and the cell has points off the axis.
   */
  lemma FomScore(num: Kernels, t: TaskView, gradient: TaskView -> Result<Grid>, length: real, diameter: real, xsteps: nat, ysteps: nat)
    requires t.Consistent() && FomWith(num, t, gradient, length, diameter, xsteps, ysteps).Success?
    ensures var p := CellPoints(length, diameter, xsteps, ysteps);
      var gs := CellGradients(num, t.mesh.value, gradient(t).value, t.centerField.value.axial, p.0, p.1);
      var s := Sum(Times2(gs, Weights(num, p.1)));
      (s != 0.0 ==> FomWith(num, t, gradient, length, diameter, xsteps, ysteps).value * 0.0005 == s)
      && (Sum(AbsAll(p.1)) != 0.0 ==> Sum(Weights(num, p.1)) == 1.0)
  {
    var p := CellPoints(length, diameter, xsteps, ysteps);
    if Sum(AbsAll(p.1)) != 0.0 {
      WeightsSumToOne(num, p.1);
    }
  }

  /** The worked case of the Task tests: a [-20, 20] x [-10, 10] mesh covers a 30 x 15 cell but not a 30 x 25 one. */
  lemma CoverageExample()
    ensures var m := Mesh([-20.0, 20.0], [-10.0, 10.0], 21, 21);
      Covers(m, 30.0, 15.0) && !Covers(m, 30.0, 25.0)
  {
  }

  /** np.linspace(*par): a (start, stop, num) triple. */
  datatype ScanSpec = ScanSpec(start: real, stop: real, count: nat)

  function SpecSamples(p: ScanSpec): (s: seq<real>)
    ensures |s| == p.count
  {
    Linspace(p.start, p.stop, p.count)
  }

  /** The results of parameter_scan for one, two and three parameters. */
  datatype ScanResult =
    | Scan1(values: seq<real>, xg: seq<real>)
    | Scan2(grid: Grid, xg2: Grid, yg2: Grid)
    | Scan3(cube: seq<Grid>, xg3: seq<Grid>, yg3: seq<Grid>)

  /** The objective passed to parameter_scan, for one, two or three parameters. */
  datatype Objective = Objective(f1: real -> real, f2: (real, real) -> real, f3: (real, real, real) -> real)

  /**
   * The two-parameter scan: func over the zipped, flattened meshgrid(x, y)
   * (row k / |x|, column k % |x|), reshaped to the (|y|, |x|) grid shape.
   */
  function Scan2D(func: (real, real) -> real, xs: seq<real>, ys: seq<real>): (g: Grid)
    ensures HasShape(g, |ys|, |xs|)
  {
    var nx := |xs|;
    var flat := seq(|ys| * nx, k requires 0 <= k < |ys| * nx => func(xs[k % nx], ys[k / nx]));
    seq(|ys|, i requires 0 <= i < |ys| => seq(nx, j requires 0 <= j < nx => flat[Index2(i, j, |ys|, nx)]))
  }

  /** The flat position of (i, j) in a rows x cols array. */
  function Index2(i: nat, j: nat, rows: nat, cols: nat): (k: nat)
    requires i < rows && j < cols
    ensures k < rows * cols && k / cols == i && k % cols == j
  {
    RowMajor(i, j, rows, cols);
    i * cols + j
  }

  lemma RowMajor(i: nat, j: nat, rows: nat, cols: nat)
    requires i < rows && j < cols
    ensures i * cols + j < rows * cols
    ensures (i * cols + j) / cols == i && (i * cols + j) % cols == j
  {
    MulMonotone(i + 1, rows, cols);
    DivModUnique(i * cols + j, i, j, cols);
  }

  lemma MulMonotone(a: nat, b: nat, n: nat)
    requires a <= b
    ensures a * n <= b * n
  {
    assert b * n == a * n + (b - a) * n;
  }

  /** Euclidean division is unique: q, r with k = q n + r and 0 <= r < n are k / n and k % n. */
  lemma DivModUnique(k: int, q: int, r: int, n: int)
    requires n > 0 && 0 <= r < n && k == q * n + r
    ensures k / n == q && k % n == r
  {
    var q', r' := k / n, k % n;
    assert k == q' * n + r' && 0 <= r' < n;
    if q' > q {
      assert (q' - q) * n == r - r';
      assert (q' - q) * n >= n by { MulMonotone(1, q' - q, n); }
    } else if q' < q {
      assert (q - q') * n == r' - r;
      assert (q - q') * n >= n by { MulMonotone(1, q - q', n); }
    }
  }

  /** Reshaped, the scan holds func(x[j], y[i]) at row i, column j. */
  lemma Scan2DAt(func: (real, real) -> real, xs: seq<real>, ys: seq<real>, i: nat, j: nat)
    requires i < |ys| && j < |xs|
    ensures Scan2D(func, xs, ys)[i][j] == func(xs[j], ys[i])
  {
    var k := Index2(i, j, |ys|, |xs|);
  }

  /**
   * The three-parameter scan: yg, zg, xg = meshgrid(y, z, x) have shape
   * (|z|, |y|, |x|); func(x, y, z) over the flattened grids, reshaped to
   * that shape.
   */
  function Scan3D(func: (real, real, real) -> real, xs: seq<real>, ys: seq<real>, zs: seq<real>): (c: seq<Grid>)
    ensures |c| == |zs| && forall a :: 0 <= a < |zs| ==> HasShape(c[a], |ys|, |xs|)
  {
    var nx, ny := |xs|, |ys|;
    var flat := seq(|zs| * (ny * nx), k requires 0 <= k < |zs| * (ny * nx) =>
      func(xs[k % (ny * nx) % nx], ys[k % (ny * nx) / nx], zs[k / (ny * nx)]));
    seq(|zs|, a requires 0 <= a < |zs| =>
      seq(ny, b requires 0 <= b < ny =>
        seq(nx, c requires 0 <= c < nx => flat[Index2(a, Index2(b, c, ny, nx), |zs|, ny * nx)])))
  }

  /** Reshaped, the scan holds func(x[c], y[b], z[a]) at position (a, b, c). */
  lemma Scan3DAt(func: (real, real, real) -> real, xs: seq<real>, ys: seq<real>, zs: seq<real>, a: nat, b: nat, c: nat)
    requires a < |zs| && b < |ys| && c < |xs|
    ensures Scan3D(func, xs, ys, zs)[a][b][c] == func(xs[c], ys[b], zs[a])
  {
    var inner := Index2(b, c, |ys|, |xs|);
    var k := Index2(a, inner, |zs|, |ys| * |xs|);
  }

  /**
   * The outputs of meshgrid(y, z, x) that parameter_scan returns: x along
   * the last axis (pick 0, xg) or y along the middle axis (pick 1, yg).
   */
  function Cube(xs: seq<real>, ys: seq<real>, zs: seq<real>, pick: nat): (c: seq<Grid>)
    requires pick < 2
    ensures |c| == |zs| && forall a :: 0 <= a < |zs| ==> HasShape(c[a], |ys|, |xs|)
    ensures forall a, b, k :: 0 <= a < |zs| && 0 <= b < |ys| && 0 <= k < |xs| ==>
      |c[a]| == |ys| && |c[a][b]| == |xs| && c[a][b][k] == (if pick == 0 then xs[k] else ys[b])
  {
    seq(|zs|, a requires 0 <= a < |zs| =>
      seq(|ys|, b requires 0 <= b < |ys| =>
        seq(|xs|, c requires 0 <= c < |xs| => if pick == 0 then xs[c] else ys[b])))
  }

  /**
   * parameter_scan (both copies): no parameter raises ValueError; x alone
   * scans the x samples; x and y scan the 2-D grid, x, y and z the 3-D grid,
   * each only with one process (NotImplementedError otherwise); any other
   * combination raises ValueError.
   */
  function ParameterScan(func: Objective, parx: Option<ScanSpec>, pary: Option<ScanSpec>, parz: Option<ScanSpec>, processes: int)
    : (r: Result<ScanResult>)
    ensures parx.None? && pary.None? && parz.None? ==> r == Failure(ValueError)
    ensures parx.Some? && pary.None? && parz.None? ==>
      r.Success? && r.value.Scan1? && |r.value.values| == parx.value.count && r.value.xg == SpecSamples(parx.value)
      && forall k :: 0 <= k < parx.value.count ==> r.value.values[k] == func.f1(r.value.xg[k])
    ensures parx.Some? && pary.Some? && parz.None? ==>
      (processes == 1 <==> r.Success?) && (processes != 1 ==> r == Failure(NotImplementedError))
    ensures parx.Some? && pary.Some? && parz.None? && r.Success? ==>
      r.value.Scan2? && HasShape(r.value.grid, pary.value.count, parx.value.count)
      && r.value.xg2 == MeshX(SpecSamples(parx.value), SpecSamples(pary.value))
      && r.value.yg2 == MeshY(SpecSamples(parx.value), SpecSamples(pary.value))
    ensures parx.Some? && pary.Some? && parz.Some? ==>
      (processes == 1 <==> r.Success?) && (processes != 1 ==> r == Failure(NotImplementedError))
    ensures parx.Some? && pary.Some? && parz.Some? && r.Success? ==>
      r.value.Scan3? && |r.value.cube| == parz.value.count
      && (forall a :: 0 <= a < parz.value.count ==> HasShape(r.value.cube[a], pary.value.count, parx.value.count))
      && r.value.xg3 == Cube(SpecSamples(parx.value), SpecSamples(pary.value), SpecSamples(parz.value), 0)
      && r.value.yg3 == Cube(SpecSamples(parx.value), SpecSamples(pary.value), SpecSamples(parz.value), 1)
    ensures (parx.None? && (pary.Some? || parz.Some?)) || (parx.Some? && pary.None? && parz.Some?) ==> r == Failure(ValueError)
  {
    if parx.None? && pary.None? && parz.None? then Failure(ValueError)
    else if parx.Some? && pary.None? && parz.None? then
      var xg := SpecSamples(parx.value);
      Success(Scan1(seq(|xg|, k requires 0 <= k < |xg| => func.f1(xg[k])), xg))
    else if parx.Some? && pary.Some? && parz.None? then
      var xs, ys := SpecSamples(parx.value), SpecSamples(pary.value);
      if processes == 1 then Success(Scan2(Scan2D(func.f2, xs, ys), MeshX(xs, ys), MeshY(xs, ys)))
      else Failure(NotImplementedError)
    else if parx.Some? && pary.Some? && parz.Some? then
      var xs, ys, zs := SpecSamples(parx.value), SpecSamples(pary.value), SpecSamples(parz.value);
      if processes == 1 then Success(Scan3(Scan3D(func.f3, xs, ys, zs), Cube(xs, ys, zs, 0), Cube(xs, ys, zs, 1)))
      else Failure(NotImplementedError)
    else Failure(ValueError)
  }

  /** The 2-D scan holds func(x, y) of the matching samples, in the meshgrid layout. */
  lemma ParameterScan2D(func: Objective, px: ScanSpec, py: ScanSpec, i: nat, j: nat)
    requires i < py.count && j < px.count
    ensures var r := ParameterScan(func, Some(px), Some(py), None, 1);
      r.Success? && r.value.grid[i][j] == func.f2(r.value.xg2[i][j], r.value.yg2[i][j])
  {
    Scan2DAt(func.f2, SpecSamples(px), SpecSamples(py), i, j);
  }

  /** The 3-D scan holds func(x, y, z) of the matching samples, in the meshgrid(y, z, x) layout. */
  lemma ParameterScan3D(func: Objective, px: ScanSpec, py: ScanSpec, pz: ScanSpec, a: nat, b: nat, c: nat)
    requires a < pz.count && b < py.count && c < px.count
    ensures var r := ParameterScan(func, Some(px), Some(py), Some(pz), 1);
      r.Success? && r.value.cube[a][b][c] == func.f3(r.value.xg3[a][b][c], r.value.yg3[a][b][c], SpecSamples(pz)[a])
  {
    Scan3DAt(func.f3, SpecSamples(px), SpecSamples(py), SpecSamples(pz), a, b, c);
  }
}
