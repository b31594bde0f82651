/*
 * Task of src/coilcalc/core.py: the older engine, which accepts only
 * CurrentLoop sources. Its three solvers (_run_sp_legacy, _run_sp and the
 * per-chunk _mp_process_run of _run_mp) all sum the loop kernels over every
 * elementary loop of every source at each node, add the axial sum into
 * x_field, and add the radial sum into y_field when r >= 0 but subtract it
 * when r < 0. That subtraction comes on top of the sign field_radial already
 * gives its result, so the radial grid is even in r (see CoilTask's
 * LegacyRadialEvenInR and the corrected CorrectedRadialOddInR).
 *
 * A coilcalc CurrentLoop has the same setters as the magcoilcalc one, without
 * the cache: its parameters are a CoilLoops.Coil, and __copy__ rebuilds an
 * equal coil, so the task stores Coil values.
 */
module CoilTask {
  import opened Common
  import opened Numerics
  import opened OffAxisLoop
  import opened CoilLoops
  import opened MeshGeometry
  import opened Slicing
  import opened Solver

  /** Every coil satisfies what its setters guarantee. */
  predicate AllValid(coils: seq<Coil>)
  {
    forall k :: 0 <= k < |coils| ==> coils[k].Valid()
  }

  lemma AllValidPrefix(coils: seq<Coil>, k: nat)
    requires AllValid(coils) && k <= |coils|
    ensures AllValid(coils[..k])
  {
  }

  /** np.vstack of the coils' loop tables, in source order. */
  function LoopStack(coils: seq<Coil>): seq<Row>
    requires AllValid(coils)
  {
    if coils == [] then [] else LoopStack(coils[..|coils| - 1]) + LoopTable(coils[|coils| - 1])
  }

  /** The stacked table has one row per turn of every coil. */
  lemma {:induction false} LoopStackLength(coils: seq<Coil>)
    requires AllValid(coils)
    ensures |LoopStack(coils)| == SumTurns(coils)
  {
    if coils != [] {
      LoopStackLength(coils[..|coils| - 1]);
      LoopTableLength(coils[|coils| - 1]);
    }
  }

  /** Turns of all the coils together. */
  function SumTurns(coils: seq<Coil>): int
  {
    if coils == [] then 0 else SumTurns(coils[..|coils| - 1]) + coils[|coils| - 1].nturns
  }

  /** One more row of a table adds that loop's field. */
  lemma LoopsFieldStep(num: Kernels, loops: seq<Row>, k: nat, xp: real, yp: real)
    requires k < |loops|
    ensures LoopsField(num, loops[..k + 1], xp, yp) == LoopsField(num, loops[..k], xp, yp).Plus(LoopField(num, loops[k], xp, yp))
  {
    assert loops[..k + 1][..k] == loops[..k];
  }

  /**
   * The body of the loop in b_field and _run_sp_legacy: a = r / 1000,
   * x = (xp - x_loop) / 1000, r = yp / 1000 (mm to m), then field_axial
   * and field_radial with the loop's current.
   */
  method LoopKernels(num: Kernels, loop: Row, xp: real, yp: real) returns (bx: real, br: real)
    ensures Field(bx, br) == LoopField(num, loop, xp, yp)
  {
    var a, x, r := loop.r / 1000.0, (xp - loop.x) / 1000.0, yp / 1000.0;
    bx := FieldAxial(num, loop.current, a, x, r);
    br := FieldRadial(num, loop.current, a, x, r);
  }

  /**
   * CurrentLoop.b_field(xp, yp): the loop table is recomputed (no cache) and
   * the per-loop axial and radial kernel values are accumulated in turn.
   */
  method CoilBField(num: Kernels, c: Coil, xp: real, yp: real) returns (bx: real, br: real)
    requires c.Valid()
    ensures Field(bx, br) == CoilField(num, c, xp, yp)
  {
    bx, br := 0.0, 0.0;
    var loops := BuildLoopTable(c);
    for k := 0 to |loops|
      invariant Field(bx, br) == LoopsField(num, loops[..k], xp, yp)
    {
      LoopsFieldStep(num, loops, k, xp, yp);
      var fx, fr := LoopKernels(num, loops[k], xp, yp);
      bx := bx + fx;
      br := br + fr;
    }
    assert loops[..|loops|] == loops;
  }

  /**
   * What every coilcalc solver stores for a field f at a node of radial
   * coordinate yp: the axial part as is, the radial part negated when
   * r = yp / 1000 is negative.
   */
  function FlipRadial(f: Field, yp: real): (g: Field)
    ensures g.axial == f.axial
    ensures yp >= 0.0 ==> g.radial == f.radial
    ensures yp < 0.0 ==> g.radial == -f.radial
  {
    if yp / 1000.0 >= 0.0 then f else Field(f.axial, -f.radial)
  }

  /** The stored field at a point, summed loop by loop over all the coils (_run_sp_legacy). */
  function LegacyPoint(num: Kernels, coils: seq<Coil>): (real, real) -> Field
    requires AllValid(coils)
  {
    (xp: real, yp: real) => FlipRadial(LoopsField(num, LoopStack(coils), xp, yp), yp)
  }

  /** The per-loop axial kernel values at a point, as one vectorised field_axial call yields them. */
  function AxialTerms(num: Kernels, loops: seq<Row>, xp: real, yp: real): (t: seq<real>)
    ensures |t| == |loops|
  {
    var n := |loops|;
    FieldAxialArray(num,
      seq(n, k requires 0 <= k < n => loops[k].current),
      seq(n, k requires 0 <= k < n => loops[k].r / 1000.0),
      seq(n, k requires 0 <= k < n => (xp - loops[k].x) / 1000.0),
      seq(n, k requires 0 <= k < n => yp / 1000.0))
  }

  /**
   * The per-loop radial kernel values at a point. r = yp / 1000 is a scalar
   * here: field_radial returns 0 for r == 0 and otherwise the elementwise
   * value times sign(r), which is what the elementwise form gives for r
   * repeated along the table.
   */
  function RadialTerms(num: Kernels, loops: seq<Row>, xp: real, yp: real): (t: seq<real>)
    ensures |t| == |loops|
  {
    var n := |loops|;
    FieldRadialArray(num,
      seq(n, k requires 0 <= k < n => loops[k].current),
      seq(n, k requires 0 <= k < n => loops[k].r / 1000.0),
      seq(n, k requires 0 <= k < n => (xp - loops[k].x) / 1000.0),
      seq(n, k requires 0 <= k < n => yp / 1000.0))
  }

  /**
   * The stored field at a point in _run_sp and _mp_process_run: np.sum of the
   * vectorised kernel values over the stacked table, the radial sum negated
   * for r < 0.
   */
  function VectorField(num: Kernels, loops: seq<Row>, xp: real, yp: real): Field
  {
    var bx, br := Sum(AxialTerms(num, loops, xp, yp)), Sum(RadialTerms(num, loops, xp, yp));
    if yp / 1000.0 >= 0.0 then Field(bx, br) else Field(bx, -br)
  }

  function VectorPoint(num: Kernels, loops: seq<Row>): (real, real) -> Field
  {
    (xp: real, yp: real) => VectorField(num, loops, xp, yp)
  }

  /** The k-th vectorised terms are the k-th loop's field. */
  lemma TermsAt(num: Kernels, loops: seq<Row>, xp: real, yp: real, k: nat)
    requires k < |loops|
    ensures AxialTerms(num, loops, xp, yp)[k] == LoopField(num, loops[k], xp, yp).axial
    ensures RadialTerms(num, loops, xp, yp)[k] == LoopField(num, loops[k], xp, yp).radial
  {
  }

  /** The vectorised terms of a prefix of the table are the prefix of the terms. */
  lemma TermsPrefix(num: Kernels, loops: seq<Row>, xp: real, yp: real, n: nat)
    requires n <= |loops|
    ensures AxialTerms(num, loops, xp, yp)[..n] == AxialTerms(num, loops[..n], xp, yp)
    ensures RadialTerms(num, loops, xp, yp)[..n] == RadialTerms(num, loops[..n], xp, yp)
  {
    forall k | 0 <= k < n
      ensures AxialTerms(num, loops, xp, yp)[k] == AxialTerms(num, loops[..n], xp, yp)[k]
      ensures RadialTerms(num, loops, xp, yp)[k] == RadialTerms(num, loops[..n], xp, yp)[k]
    {
      TermsAt(num, loops, xp, yp, k);
      TermsAt(num, loops[..n], xp, yp, k);
    }
  }

  /** np.sum of the vectorised kernel values is the loop-by-loop sum. */
  lemma {:induction false} VectorSums(num: Kernels, loops: seq<Row>, xp: real, yp: real)
    ensures Sum(AxialTerms(num, loops, xp, yp)) == LoopsField(num, loops, xp, yp).axial
    ensures Sum(RadialTerms(num, loops, xp, yp)) == LoopsField(num, loops, xp, yp).radial
  {
    if loops != [] {
      var n := |loops| - 1;
      TermsPrefix(num, loops, xp, yp, n);
      TermsAt(num, loops, xp, yp, n);
      VectorSums(num, loops[..n], xp, yp);
    }
  }

  /** The vectorised solvers store, at every point, what the legacy solver stores. */
  lemma VectorFieldIsLegacy(num: Kernels, coils: seq<Coil>, xp: real, yp: real)
    requires AllValid(coils)
    ensures VectorPoint(num, LoopStack(coils))(xp, yp) == LegacyPoint(num, coils)(xp, yp)
  {
    VectorSums(num, LoopStack(coils), xp, yp);
  }

  /** Negating the radial part below the axis commutes with adding fields. */
  lemma FlipPlus(f: Field, g: Field, yp: real)
    ensures FlipRadial(f.Plus(g), yp) == FlipRadial(f, yp).Plus(FlipRadial(g, yp))
  {
  }

  /**
   * The innermost loop of _run_sp_legacy for one source at node (i, j): each
   * loop's kernel values are added into x_field[i][j], and added into
   * y_field[i][j] when r >= 0, subtracted from it otherwise.
   */
  method AddLoopsLegacy(num: Kernels, loops: seq<Row>, xp: real, yp: real, gx: array2<real>, gy: array2<real>, i: nat, j: nat)
    requires i < gx.Length0 && j < gx.Length1 && i < gy.Length0 && j < gy.Length1 && gx != gy
    modifies gx, gy
    ensures gx[i, j] == old(gx[i, j]) + FlipRadial(LoopsField(num, loops, xp, yp), yp).axial
    ensures gy[i, j] == old(gy[i, j]) + FlipRadial(LoopsField(num, loops, xp, yp), yp).radial
    ensures forall a, b :: 0 <= a < gx.Length0 && 0 <= b < gx.Length1 && (a, b) != (i, j) ==> gx[a, b] == old(gx[a, b])
    ensures forall a, b :: 0 <= a < gy.Length0 && 0 <= b < gy.Length1 && (a, b) != (i, j) ==> gy[a, b] == old(gy[a, b])
  {
    for l := 0 to |loops|
      invariant gx[i, j] == old(gx[i, j]) + FlipRadial(LoopsField(num, loops[..l], xp, yp), yp).axial
      invariant gy[i, j] == old(gy[i, j]) + FlipRadial(LoopsField(num, loops[..l], xp, yp), yp).radial
      invariant forall a, b :: 0 <= a < gx.Length0 && 0 <= b < gx.Length1 && (a, b) != (i, j) ==> gx[a, b] == old(gx[a, b])
      invariant forall a, b :: 0 <= a < gy.Length0 && 0 <= b < gy.Length1 && (a, b) != (i, j) ==> gy[a, b] == old(gy[a, b])
    {
      LoopsFieldStep(num, loops, l, xp, yp);
      FlipPlus(LoopsField(num, loops[..l], xp, yp), LoopField(num, loops[l], xp, yp), yp);
      var bx, br := LoopKernels(num, loops[l], xp, yp);
      var r := yp / 1000.0;
      gx[i, j] := gx[i, j] + bx;
      if r >= 0.0 {
        gy[i, j] := gy[i, j] + br;
      } else {
        gy[i, j] := gy[i, j] - br;
      }
    }
    assert loops[..|loops|] == loops;
  }

  /** One source of _run_sp_legacy at node (i, j): its loop table is rebuilt and added in. */
  method AddCoilLegacy(num: Kernels, coils: seq<Coil>, s: nat, xp: real, yp: real,
                       gx: array2<real>, gy: array2<real>, i: nat, j: nat)
    requires AllValid(coils) && s < |coils|
    requires i < gx.Length0 && j < gx.Length1 && i < gy.Length0 && j < gy.Length1 && gx != gy
    modifies gx, gy
    ensures gx[i, j] == old(gx[i, j]) + FlipRadial(LoopsField(num, LoopTable(coils[s]), xp, yp), yp).axial
    ensures gy[i, j] == old(gy[i, j]) + FlipRadial(LoopsField(num, LoopTable(coils[s]), xp, yp), yp).radial
    ensures forall a, b :: 0 <= a < gx.Length0 && 0 <= b < gx.Length1 && (a, b) != (i, j) ==> gx[a, b] == old(gx[a, b])
    ensures forall a, b :: 0 <= a < gy.Length0 && 0 <= b < gy.Length1 && (a, b) != (i, j) ==> gy[a, b] == old(gy[a, b])
  {
    var loops := BuildLoopTable(coils[s]);
    AddLoopsLegacy(num, loops, xp, yp, gx, gy, i, j);
  }

  /**
   * The loops of _run_sp_legacy at node (i, j): for every source its loop
   * table is recomputed and its loops are added into the node.
   */
  method AddNodeLegacy(num: Kernels, coils: seq<Coil>, mat: Matrix, rows: nat, cols: nat,
                       gx: array2<real>, gy: array2<real>, i: nat, j: nat)
    requires AllValid(coils) && Shaped(mat, rows, cols) && i < rows && j < cols && gx != gy
    requires gx.Length0 == rows && gx.Length1 == cols && gy.Length0 == rows && gy.Length1 == cols
    modifies gx, gy
    ensures gx[i, j] == old(gx[i, j]) + PointAt(LegacyPoint(num, coils), mat, rows, cols, i, j).axial
    ensures gy[i, j] == old(gy[i, j]) + PointAt(LegacyPoint(num, coils), mat, rows, cols, i, j).radial
    ensures forall a, b :: 0 <= a < rows && 0 <= b < cols && (a, b) != (i, j) ==>
      gx[a, b] == old(gx[a, b]) && gy[a, b] == old(gy[a, b])
  {
    var xp, yp := mat.xMesh[i][j], mat.yMesh[i][j];
    for s := 0 to |coils|
      invariant AllValid(coils[..s])
      invariant gx[i, j] == old(gx[i, j]) + FlipRadial(LoopsField(num, LoopStack(coils[..s]), xp, yp), yp).axial
      invariant gy[i, j] == old(gy[i, j]) + FlipRadial(LoopsField(num, LoopStack(coils[..s]), xp, yp), yp).radial
      invariant forall a, b :: 0 <= a < rows && 0 <= b < cols && (a, b) != (i, j) ==> gx[a, b] == old(gx[a, b])
      invariant forall a, b :: 0 <= a < rows && 0 <= b < cols && (a, b) != (i, j) ==> gy[a, b] == old(gy[a, b])
    {
      AddCoilLegacy(num, coils, s, xp, yp, gx, gy, i, j);
      LegacyStackStep(num, coils, s, xp, yp);
    }
    assert coils[..|coils|] == coils;
    LegacyPointAt(num, coils, mat, rows, cols, i, j);
  }

  lemma LegacyPointAt(num: Kernels, coils: seq<Coil>, mat: Matrix, rows: nat, cols: nat, i: nat, j: nat)
    requires AllValid(coils) && Shaped(mat, rows, cols) && i < rows && j < cols
    ensures PointAt(LegacyPoint(num, coils), mat, rows, cols, i, j) ==
      FlipRadial(LoopsField(num, LoopStack(coils), mat.xMesh[i][j], mat.yMesh[i][j]), mat.yMesh[i][j])
  {
  }

  /** Adding one more coil to the stack adds its loops' (flipped) field to the stack's. */
  lemma LegacyStackStep(num: Kernels, coils: seq<Coil>, s: nat, xp: real, yp: real)
    requires AllValid(coils) && s < |coils|
    ensures AllValid(coils[..s]) && AllValid(coils[..s + 1])
    ensures FlipRadial(LoopsField(num, LoopStack(coils[..s + 1]), xp, yp), yp) ==
      FlipRadial(LoopsField(num, LoopStack(coils[..s]), xp, yp), yp).Plus(
        FlipRadial(LoopsField(num, LoopTable(coils[s]), xp, yp), yp))
  {
    var pre, c := coils[..s + 1], coils[s];
    assert pre[..s] == coils[..s] && pre[s] == c;
    assert LoopStack(pre) == LoopStack(coils[..s]) + LoopTable(c);
    var f, g := LoopsField(num, LoopStack(coils[..s]), xp, yp), LoopsField(num, LoopTable(c), xp, yp);
    assert LoopsField(num, LoopStack(pre), xp, yp) == f.Plus(g) by {
      LoopsFieldAppend(num, LoopStack(coils[..s]), LoopTable(c), xp, yp);
    }
    FlipPlus(f, g, yp);
  }

  /** _run_sp_legacy's grids: zeros, then the loop-by-loop sums node by node. */
  method SolveLegacy(num: Kernels, coils: seq<Coil>, mat: Matrix, rows: nat, cols: nat)
    returns (gx: array2<real>, gy: array2<real>)
    requires AllValid(coils) && Shaped(mat, rows, cols)
    ensures fresh(gx) && fresh(gy)
    ensures ToGrid(gx) == AxialGrid(LegacyPoint(num, coils), mat, rows, cols)
    ensures ToGrid(gy) == RadialGrid(LegacyPoint(num, coils), mat, rows, cols)
  {
    ghost var p := LegacyPoint(num, coils);
    gx := Zeros(rows, cols);
    gy := Zeros(rows, cols);
    for i := 0 to rows
      invariant forall a, b :: 0 <= a < i && 0 <= b < cols ==>
        gx[a, b] == PointAt(p, mat, rows, cols, a, b).axial
        && gy[a, b] == PointAt(p, mat, rows, cols, a, b).radial
      invariant forall a, b :: i <= a < rows && 0 <= b < cols ==> gx[a, b] == 0.0 && gy[a, b] == 0.0
    {
      SolveLegacyRow(num, coils, mat, rows, cols, gx, gy, i);
    }
    GridExt(ToGrid(gx), AxialGrid(p, mat, rows, cols), rows, cols);
    GridExt(ToGrid(gy), RadialGrid(p, mat, rows, cols), rows, cols);
  }

  /** Row i of _run_sp_legacy: every node of the row, still zero, receives its loop-by-loop sum. */
  method SolveLegacyRow(num: Kernels, coils: seq<Coil>, mat: Matrix, rows: nat, cols: nat,
                        gx: array2<real>, gy: array2<real>, i: nat)
    requires AllValid(coils) && Shaped(mat, rows, cols) && i < rows && gx != gy
    requires gx.Length0 == rows && gx.Length1 == cols && gy.Length0 == rows && gy.Length1 == cols
    requires forall b :: 0 <= b < cols ==> gx[i, b] == 0.0 && gy[i, b] == 0.0
    modifies gx, gy
    ensures forall b :: 0 <= b < cols ==>
      gx[i, b] == PointAt(LegacyPoint(num, coils), mat, rows, cols, i, b).axial
      && gy[i, b] == PointAt(LegacyPoint(num, coils), mat, rows, cols, i, b).radial
    ensures forall a, b :: 0 <= a < rows && 0 <= b < cols && a != i ==> gx[a, b] == old(gx[a, b]) && gy[a, b] == old(gy[a, b])
  {
    ghost var p := LegacyPoint(num, coils);
    for j := 0 to cols
      invariant forall b :: 0 <= b < j ==>
        gx[i, b] == PointAt(p, mat, rows, cols, i, b).axial
        && gy[i, b] == PointAt(p, mat, rows, cols, i, b).radial
      invariant forall b :: j <= b < cols ==> gx[i, b] == 0.0 && gy[i, b] == 0.0
      invariant forall a, b :: 0 <= a < rows && 0 <= b < cols && a != i ==> gx[a, b] == old(gx[a, b]) && gy[a, b] == old(gy[a, b])
    {
      AddNodeLegacy(num, coils, mat, rows, cols, gx, gy, i, j);
    }
  }

  /**
   * np.vstack([magnet.get_loop_list() for magnet in sources]): ValueError
   * when there are no sources.
   */
  method StackLoopTables(coils: seq<Coil>) returns (res: Result<seq<Row>>)
    requires AllValid(coils)
    ensures coils == [] ==> res == Failure(ValueError)
    ensures coils != [] ==> res == Success(LoopStack(coils))
  {
    var loops: seq<Row> := [];
    for k := 0 to |coils|
      invariant loops == LoopStack(coils[..k])
    {
      assert coils[..k + 1][..k] == coils[..k];
      var table := BuildLoopTable(coils[k]);
      loops := loops + table;
    }
    assert coils[..|coils|] == coils;
    if coils == [] {
      return Failure(ValueError);
    }
    return Success(loops);
  }

  /** Two grids of one point field agree with the grids of another that agrees with it at every node. */
  lemma SameGrids(p: (real, real) -> Field, q: (real, real) -> Field, mat: Matrix, rows: nat, cols: nat)
    requires Shaped(mat, rows, cols)
    requires forall a, b :: 0 <= a < rows && 0 <= b < cols ==> PointAt(p, mat, rows, cols, a, b) == PointAt(q, mat, rows, cols, a, b)
    ensures AxialGrid(p, mat, rows, cols) == AxialGrid(q, mat, rows, cols)
    ensures RadialGrid(p, mat, rows, cols) == RadialGrid(q, mat, rows, cols)
  {
    GridExt(AxialGrid(p, mat, rows, cols), AxialGrid(q, mat, rows, cols), rows, cols);
    GridExt(RadialGrid(p, mat, rows, cols), RadialGrid(q, mat, rows, cols), rows, cols);
  }

  /** The vectorised grids over the stacked table are the legacy grids. */
  lemma VectorGridsAreLegacy(num: Kernels, coils: seq<Coil>, mat: Matrix, rows: nat, cols: nat)
    requires AllValid(coils) && Shaped(mat, rows, cols)
    ensures AxialGrid(VectorPoint(num, LoopStack(coils)), mat, rows, cols) == AxialGrid(LegacyPoint(num, coils), mat, rows, cols)
    ensures RadialGrid(VectorPoint(num, LoopStack(coils)), mat, rows, cols) == RadialGrid(LegacyPoint(num, coils), mat, rows, cols)
  {
    forall a, b | 0 <= a < rows && 0 <= b < cols
      ensures PointAt(VectorPoint(num, LoopStack(coils)), mat, rows, cols, a, b) == PointAt(LegacyPoint(num, coils), mat, rows, cols, a, b)
    {
      VectorFieldIsLegacy(num, coils, mat.xMesh[a][b], mat.yMesh[a][b]);
    }
    SameGrids(VectorPoint(num, LoopStack(coils)), LegacyPoint(num, coils), mat, rows, cols);
  }

  /**
   * _run_sp's grids, once the table is stacked: every node gets the
   * vectorised sum over the table. They equal the legacy grids.
   */
  method SolveSequential(num: Kernels, coils: seq<Coil>, loops: seq<Row>, mat: Matrix, rows: nat, cols: nat)
    returns (gx: array2<real>, gy: array2<real>)
    requires AllValid(coils) && loops == LoopStack(coils) && Shaped(mat, rows, cols)
    ensures fresh(gx) && fresh(gy)
    ensures ToGrid(gx) == AxialGrid(LegacyPoint(num, coils), mat, rows, cols)
    ensures ToGrid(gy) == RadialGrid(LegacyPoint(num, coils), mat, rows, cols)
  {
    gx := Zeros(rows, cols);
    gy := Zeros(rows, cols);
    AddPointField(VectorPoint(num, loops), mat, rows, cols, gx, gy);
    GridExt(ToGrid(gx), AxialGrid(VectorPoint(num, loops), mat, rows, cols), rows, cols);
    GridExt(ToGrid(gy), RadialGrid(VectorPoint(num, loops), mat, rows, cols), rows, cols);
    VectorGridsAreLegacy(num, coils, mat, rows, cols);
  }

  /** A node covered once by the chunks receives the vectorised field once. */
  lemma ChunkedNode(num: Kernels, loops: seq<Row>, mat: Matrix, rows: nat, cols: nat, processes: nat, a: nat, b: nat)
    requires Shaped(mat, rows, cols) && processes >= 1 && a < rows && b < cols
    ensures var n := Occurrences(Flatten(Chunks(NodeList(rows, cols), processes)), (a, b));
      var f := PointAt(VectorPoint(num, loops), mat, rows, cols, a, b);
      Times(n, f.axial) == f.axial && Times(n, f.radial) == f.radial
  {
    ChunkCoverage(rows, cols, processes, (a, b));
  }

  /**
   * _run_mp's grids, once the table is stacked: the node list is sliced into
   * `processes` chunks, each worker (_mp_process_run) adds the vectorised sum
   * into the nodes of its chunk, and the workers' grids are summed. They
   * equal the legacy grids.
   */
  method SolveChunked(num: Kernels, coils: seq<Coil>, loops: seq<Row>, mat: Matrix, rows: nat, cols: nat, processes: nat)
    returns (gx: array2<real>, gy: array2<real>)
    requires AllValid(coils) && loops == LoopStack(coils)
    requires Shaped(mat, rows, cols) && processes >= 1
    ensures fresh(gx) && fresh(gy)
    ensures ToGrid(gx) == AxialGrid(LegacyPoint(num, coils), mat, rows, cols)
    ensures ToGrid(gy) == RadialGrid(LegacyPoint(num, coils), mat, rows, cols)
  {
    var nodes := NodeList(rows, cols);
    var sliced := SliceList(nodes, processes);
    var chunks := sliced.value;
    NodeListInRange(rows, cols, rows);
    ChunksInRange(nodes, processes, rows, cols);
    gx, gy := FoldChunks(chunks, mat, rows, cols, VectorPoint(num, loops));
    forall a, b | 0 <= a < rows && 0 <= b < cols
      ensures gx[a, b] == PointAt(VectorPoint(num, loops), mat, rows, cols, a, b).axial
      ensures gy[a, b] == PointAt(VectorPoint(num, loops), mat, rows, cols, a, b).radial
    {
      ChunkedNode(num, loops, mat, rows, cols, processes, a, b);
    }
    GridExt(ToGrid(gx), AxialGrid(VectorPoint(num, loops), mat, rows, cols), rows, cols);
    GridExt(ToGrid(gy), RadialGrid(VectorPoint(num, loops), mat, rows, cols), rows, cols);
    VectorGridsAreLegacy(num, coils, mat, rows, cols);
  }

  /** The summed radial kernel values of a loop table are odd in r. */
  lemma {:induction false} LoopsRadialOdd(num: Kernels, loops: seq<Row>, xp: real, yp: real)
    ensures LoopsField(num, loops, xp, -yp).radial == -LoopsField(num, loops, xp, yp).radial
    ensures LoopsField(num, loops, xp, -yp).axial == LoopsField(num, loops, xp, yp).axial
  {
    if loops != [] {
      var n := |loops| - 1;
      LoopsRadialOdd(num, loops[..n], xp, yp);
      var row := loops[n];
      var a, x, r := row.r / 1000.0, (xp - row.x) / 1000.0, yp / 1000.0;
      assert -yp / 1000.0 == -r;
      RadialOddInR(num, row.current, a, x, r);
      AxialEvenInR(num, row.current, a, x, r);
    }
  }

  /**
   * As written, the stored radial field is even in r: at (x, -y) the grid
   * holds what it holds at (x, y), because the radial sum, already odd in r,
   * is negated once more below the axis.
   */
  lemma LegacyRadialEvenInR(num: Kernels, coils: seq<Coil>, xp: real, yp: real)
    requires AllValid(coils)
    ensures LegacyPoint(num, coils)(xp, -yp) == LegacyPoint(num, coils)(xp, yp)
  {
    var stack := LoopStack(coils);
    var f, g := LoopsField(num, stack, xp, yp), LoopsField(num, stack, xp, -yp);
    assert LegacyPoint(num, coils)(xp, yp) == FlipRadial(f, yp);
    assert LegacyPoint(num, coils)(xp, -yp) == FlipRadial(g, -yp);
    LoopsRadialOdd(num, stack, xp, yp);
    if yp == 0.0 {
      assert -yp == yp;
    }
  }

  /**
   * As written, below the axis the stored radial field is the negation of
   * the summed field_radial values, so it differs from them wherever that
   * sum is not zero.
   */
  lemma LegacyBelowAxis(num: Kernels, coils: seq<Coil>, xp: real, yp: real)
    requires AllValid(coils) && yp < 0.0
    ensures LegacyPoint(num, coils)(xp, yp).radial == -LoopsField(num, LoopStack(coils), xp, yp).radial
    ensures LegacyPoint(num, coils)(xp, yp).radial != LoopsField(num, LoopStack(coils), xp, yp).radial
      <==> LoopsField(num, LoopStack(coils), xp, yp).radial != 0.0
  {
  }

  /**
   * The corrected point field: the summed kernel values stored as they are,
   * as the src/magcoilcalc/core.py solvers store them.
   */
  function CorrectedPoint(num: Kernels, coils: seq<Coil>): (real, real) -> Field
    requires AllValid(coils)
  {
    (xp: real, yp: real) => LoopsField(num, LoopStack(coils), xp, yp)
  }

  /**
   * The corrected grid is odd in r in its radial part and even in its axial
   * part, as the field of coaxial loops is; above the axis it agrees with
   * the as-written grid.
   */
  lemma CorrectedRadialOddInR(num: Kernels, coils: seq<Coil>, xp: real, yp: real)
    requires AllValid(coils)
    ensures CorrectedPoint(num, coils)(xp, -yp).radial == -CorrectedPoint(num, coils)(xp, yp).radial
    ensures CorrectedPoint(num, coils)(xp, -yp).axial == CorrectedPoint(num, coils)(xp, yp).axial
    ensures yp >= 0.0 ==> CorrectedPoint(num, coils)(xp, yp) == LegacyPoint(num, coils)(xp, yp)
  {
    LoopsRadialOdd(num, LoopStack(coils), xp, yp);
  }

  /**
   * Task.__init__'s `sources` argument: an iterable of objects, or a single
   * object (iterating over which raises TypeError).
   */
  datatype CoilsArg = One(item: Obj<Coil>) | Several(items: seq<Obj<Coil>>)

  class Task {
    var done: bool
    var sources: seq<Coil>
    var mesh: Option<Mesh>
    var xField: Grid
    var yField: Grid
    var centerField: Option<Field>

    ghost predicate Valid()
      reads this
    {
      AllValid(sources) && (mesh.Some? ==> mesh.value.Valid())
    }

    /** The mesh is set and its y_range has two ends, so get_matrix succeeds. */
    predicate Solvable()
      reads this
    {
      mesh.Some? && mesh.value.Valid() && |mesh.value.yRange| >= 2
    }

    function TheMatrix(): (mat: Matrix)
      reads this
      requires Solvable()
      ensures Shaped(mat, mesh.value.ySteps, mesh.value.xSteps)
    {
      GetMatrix(mesh.value).value
    }

    /** The grids a solve of the present sources over the present mesh must leave. */
    ghost predicate HoldsGrids(num: Kernels)
      reads this
      requires Valid() && Solvable()
    {
      var m := mesh.value;
      xField == AxialGrid(LegacyPoint(num, sources), TheMatrix(), m.ySteps, m.xSteps)
      && yField == RadialGrid(LegacyPoint(num, sources), TheMatrix(), m.ySteps, m.xSteps)
    }

    /** The grids of a solve, and the centre field interpolated from them. */
    ghost predicate HoldsSolution(num: Kernels)
      reads this
      requires Valid() && Solvable()
    {
      var m := mesh.value;
      HoldsGrids(num) && CenterOf(num, m, xField, yField).Success?
      && centerField == Some(CenterOf(num, m, xField, yField).value)
    }

    /** Task(): no sources, no mesh, not done. */
    constructor ()
      ensures Valid() && !done && sources == [] && mesh.None? && centerField.None?
    {
      done := false;
      sources := [];
      mesh := None;
      xField, yField := [], [];
      centerField := None;
    }

    /**
     * add_source: a CurrentLoop's copy (an equal coil) is appended and
     * `done` cleared; anything else, a CurrentSheet included, raises TypeError.
     */
    method AddSource(src: Obj<Coil>) returns (out: Outcome)
      requires Valid() && (src.Instance? ==> src.value.Valid())
      modifies this
      ensures Valid()
      ensures src.Other? ==> out == Fail(TypeError) && unchanged(this)
      ensures src.Instance? ==> out == Pass && sources == old(sources) + [src.value] && !done
      ensures mesh == old(mesh) && xField == old(xField) && yField == old(yField) && centerField == old(centerField)
    {
      if src.Other? {
        return Fail(TypeError);
      }
      sources := sources + [src.value];
      done := false;
      return Pass;
    }

    /**
     * remove_source: no index empties the list; an index pops that entry
     * (IndexError when out of range). `done` is left as it was.
     */
    method RemoveSource(index: Option<int>) returns (out: Outcome)
      requires Valid()
      modifies this
      ensures Valid()
      ensures done == old(done) && mesh == old(mesh) && xField == old(xField) && yField == old(yField)
      ensures centerField == old(centerField)
      ensures index.None? ==> out == Pass && sources == []
      ensures index.Some? && PopPosition(|old(sources)|, index.value).None? ==> out == Fail(IndexError) && sources == old(sources)
      ensures index.Some? && PopPosition(|old(sources)|, index.value).Some? ==>
        (var p := PopPosition(|old(sources)|, index.value).value;
         out == Pass && sources == old(sources)[..p] + old(sources)[p + 1..])
    {
      if index.None? {
        sources := [];
        return Pass;
      }
      var pos := PopPosition(|sources|, index.value);
      if pos.None? {
        return Fail(IndexError);
      }
      var p := pos.value;
      sources := sources[..p] + sources[p + 1..];
      return Pass;
    }

    /** set_mesh: a Mesh is stored and `done` cleared; anything else raises TypeError. */
    method SetMesh(m: Obj<Mesh>) returns (out: Outcome)
      requires Valid() && (m.Instance? ==> m.value.Valid())
      modifies this
      ensures Valid()
      ensures m.Other? ==> out == Fail(TypeError) && unchanged(this)
      ensures m.Instance? ==> out == Pass && mesh == Some(m.value) && !done
      ensures sources == old(sources) && xField == old(xField) && yField == old(yField) && centerField == old(centerField)
    {
      if m.Other? {
        return Fail(TypeError);
      }
      mesh := Some(m.value);
      done := false;
      return Pass;
    }

    /**
     * The end of every solver: set `done`, store the grids, compute the centre
     * field; the interpolator's ValueError leaves the previous centre field.
     */
    method Finish(num: Kernels, gx: array2<real>, gy: array2<real>) returns (out: Outcome)
      requires Valid() && Solvable()
      requires ToGrid(gx) == AxialGrid(LegacyPoint(num, sources), TheMatrix(), mesh.value.ySteps, mesh.value.xSteps)
      requires ToGrid(gy) == RadialGrid(LegacyPoint(num, sources), TheMatrix(), mesh.value.ySteps, mesh.value.xSteps)
      modifies this
      ensures Valid() && Solvable() && done && HoldsGrids(num)
      ensures CentreOnMesh(num, mesh.value) ==> out == Pass && HoldsSolution(num)
      ensures !CentreOnMesh(num, mesh.value) ==> out == Fail(ValueError) && centerField == old(centerField)
      ensures sources == old(sources) && mesh == old(mesh)
    {
      done := true;
      xField := ToGrid(gx);
      yField := ToGrid(gy);
      var c := CenterOf(num, mesh.value, xField, yField);
      if c.Failure? {
        return Fail(c.error);
      }
      centerField := Some(c.value);
      return Pass;
    }

    /**
     * _run_sp_legacy: nothing to do once `done`; without a mesh get_matrix
     * fails (AttributeError), with a one-ended y_range it raises IndexError;
     * otherwise the grids are solved, an empty source list giving zero grids.
     */
    method RunSpLegacy(num: Kernels) returns (out: Outcome)
      requires Valid()
      modifies this
      ensures Valid() && sources == old(sources) && mesh == old(mesh)
      ensures old(done) ==> out == Pass && unchanged(this)
      ensures !old(done) && mesh.None? ==> out == Fail(AttributeError) && unchanged(this)
      ensures !old(done) && mesh.Some? && !Solvable() ==> out == Fail(IndexError) && unchanged(this)
      ensures !old(done) && Solvable() ==> done && HoldsGrids(num)
      ensures !old(done) && Solvable() && CentreOnMesh(num, mesh.value) ==> out == Pass && HoldsSolution(num)
      ensures !old(done) && Solvable() && !CentreOnMesh(num, mesh.value) ==> out == Fail(ValueError) && centerField == old(centerField)
    {
      if done {
        return Pass;
      }
      if mesh.None? {
        return Fail(AttributeError);
      }
      var matrix := GetMatrix(mesh.value);
      if matrix.Failure? {
        return Fail(matrix.error);
      }
      var gx, gy := SolveLegacy(num, sources, matrix.value, mesh.value.ySteps, mesh.value.xSteps);
      out := Finish(num, gx, gy);
    }

    /**
     * _run_sp: as _run_sp_legacy up to get_matrix; then the loop tables are
     * stacked (ValueError for no sources) and every node gets the vectorised
     * sum.
     */
    method RunSp(num: Kernels) returns (out: Outcome)
      requires Valid()
      modifies this
      ensures Valid() && sources == old(sources) && mesh == old(mesh)
      ensures old(done) ==> out == Pass && unchanged(this)
      ensures !old(done) && mesh.None? ==> out == Fail(AttributeError) && unchanged(this)
      ensures !old(done) && mesh.Some? && !Solvable() ==> out == Fail(IndexError) && unchanged(this)
      ensures !old(done) && Solvable() && sources == [] ==> out == Fail(ValueError) && unchanged(this)
      ensures !old(done) && Solvable() && sources != [] ==> done && HoldsGrids(num)
      ensures !old(done) && Solvable() && sources != [] && CentreOnMesh(num, mesh.value) ==> out == Pass && HoldsSolution(num)
      ensures !old(done) && Solvable() && sources != [] && !CentreOnMesh(num, mesh.value) ==> out == Fail(ValueError) && centerField == old(centerField)
    {
      if done {
        return Pass;
      }
      if mesh.None? {
        return Fail(AttributeError);
      }
      var matrix := GetMatrix(mesh.value);
      if matrix.Failure? {
        return Fail(matrix.error);
      }
      var stacked := StackLoopTables(sources);
      if stacked.Failure? {
        return Fail(stacked.error);
      }
      var gx, gy := SolveSequential(num, sources, stacked.value, matrix.value, mesh.value.ySteps, mesh.value.xSteps);
      out := Finish(num, gx, gy);
    }

    /**
     * _run_mp: as _run_sp, with the node list sliced into `processes` chunks
     * and the workers' grids summed.
     */
    method RunMp(num: Kernels, processes: nat) returns (out: Outcome)
      requires Valid() && processes >= 1
      modifies this
      ensures Valid() && sources == old(sources) && mesh == old(mesh)
      ensures old(done) ==> out == Pass && unchanged(this)
      ensures !old(done) && mesh.None? ==> out == Fail(AttributeError) && unchanged(this)
      ensures !old(done) && mesh.Some? && !Solvable() ==> out == Fail(IndexError) && unchanged(this)
      ensures !old(done) && Solvable() && sources == [] ==> out == Fail(ValueError) && unchanged(this)
      ensures !old(done) && Solvable() && sources != [] ==> done && HoldsGrids(num)
      ensures !old(done) && Solvable() && sources != [] && CentreOnMesh(num, mesh.value) ==> out == Pass && HoldsSolution(num)
      ensures !old(done) && Solvable() && sources != [] && !CentreOnMesh(num, mesh.value) ==> out == Fail(ValueError) && centerField == old(centerField)
    {
      if done {
        return Pass;
      }
      if mesh.None? {
        return Fail(AttributeError);
      }
      var matrix := GetMatrix(mesh.value);
      if matrix.Failure? {
        return Fail(matrix.error);
      }
      var stacked := StackLoopTables(sources);
      if stacked.Failure? {
        return Fail(stacked.error);
      }
      var gx, gy := SolveChunked(num, sources, stacked.value, matrix.value, mesh.value.ySteps, mesh.value.xSteps, processes);
      out := Finish(num, gx, gy);
    }

    /**
     * run(processes): fewer than 1 process raises ValueError; 1 runs _run_sp;
     * more run _run_mp when multiprocessing is available, else _run_sp.
     */
    method Run(num: Kernels, processes: int, multiprocessingAvailable: bool) returns (out: Outcome)
      requires Valid()
      modifies this
      ensures Valid() && sources == old(sources) && mesh == old(mesh)
      ensures processes < 1 ==> out == Fail(ValueError) && unchanged(this)
      ensures processes >= 1 && old(done) ==> out == Pass && unchanged(this)
      ensures processes >= 1 && !old(done) && mesh.None? ==> out == Fail(AttributeError)
      ensures processes >= 1 && !old(done) && Solvable() && sources == [] ==> out == Fail(ValueError)
      ensures processes >= 1 && out == Pass ==> done
      ensures processes >= 1 && !old(done) && out == Pass ==> Solvable() && HoldsSolution(num)
      ensures processes >= 1 && !old(done) && Solvable() && sources != [] ==> done && HoldsGrids(num)
      ensures processes >= 1 && !old(done) && Solvable() && sources != [] && CentreOnMesh(num, mesh.value) ==> out == Pass && HoldsSolution(num)
      ensures processes >= 1 && !old(done) && Solvable() && sources != [] && !CentreOnMesh(num, mesh.value) ==> out == Fail(ValueError) && centerField == old(centerField)
    {
      if processes < 1 {
        return Fail(ValueError);
      }
      if processes == 1 || !multiprocessingAvailable {
        out := RunSp(num);
      } else {
        out := RunMp(num, processes);
      }
    }

    /** x_field: ValueError until solved. */
    function XField(): (r: Result<Grid>)
      reads this
      ensures r.Success? <==> done
      ensures r.Failure? ==> r.error == ValueError
      ensures r.Success? ==> r.value == xField
    {
      if !done then Failure(ValueError) else Success(xField)
    }

    /** y_field: ValueError until solved. */
    function YField(): (r: Result<Grid>)
      reads this
      ensures r.Success? <==> done
      ensures r.Failure? ==> r.error == ValueError
      ensures r.Success? ==> r.value == yField
    {
      if !done then Failure(ValueError) else Success(yField)
    }

    /** center_field: ValueError until solved. */
    function CenterField(): (r: Result<Option<Field>>)
      reads this
      ensures r.Success? <==> done
      ensures r.Failure? ==> r.error == ValueError
      ensures r.Success? ==> r.value == centerField
    {
      if !done then Failure(ValueError) else Success(centerField)
    }

    /** mesh: ValueError while no mesh is set. */
    function MeshOf(): (r: Result<Mesh>)
      reads this
      ensures r.Success? <==> mesh.Some?
      ensures r.Failure? ==> r.error == ValueError
      ensures r.Success? ==> r.value == mesh.value
    {
      if mesh.None? then Failure(ValueError) else Success(mesh.value)
    }

    /** x_mesh: ValueError without a mesh, otherwise the mesh's node x grid (IndexError for a one-ended y_range). */
    function XMesh(): (r: Result<Grid>)
      reads this
      requires Valid()
      ensures mesh.None? ==> r == Failure(ValueError)
      ensures mesh.Some? && !Solvable() ==> r == Failure(IndexError)
      ensures Solvable() ==> r == Success(TheMatrix().xMesh)
    {
      if mesh.None? then Failure(ValueError)
      else match GetMatrix(mesh.value)
        case Failure(e) => Failure(e)
        case Success(mat) => Success(mat.xMesh)
    }

    /** y_mesh: as x_mesh, the node y grid. */
    function YMesh(): (r: Result<Grid>)
      reads this
      requires Valid()
      ensures mesh.None? ==> r == Failure(ValueError)
      ensures mesh.Some? && !Solvable() ==> r == Failure(IndexError)
      ensures Solvable() ==> r == Success(TheMatrix().yMesh)
    {
      if mesh.None? then Failure(ValueError)
      else match GetMatrix(mesh.value)
        case Failure(e) => Failure(e)
        case Success(mat) => Success(mat.yMesh)
    }

    /** x_pixel_bounds: ValueError without a mesh, otherwise the mesh's boundary x grid. */
    function XPixelBounds(): (r: Result<Grid>)
      reads this
      requires Valid()
      ensures mesh.None? ==> r == Failure(ValueError)
      ensures mesh.Some? ==> r.Success? == PixelBounds(mesh.value).Success?
      ensures mesh.Some? && r.Success? ==> r.value == PixelBounds(mesh.value).value.xMesh
    {
      if mesh.None? then Failure(ValueError)
      else match PixelBounds(mesh.value)
        case Failure(e) => Failure(e)
        case Success(b) => Success(b.xMesh)
    }

    /** y_pixel_bounds: ValueError without a mesh, otherwise the mesh's boundary y grid. */
    function YPixelBounds(): (r: Result<Grid>)
      reads this
      requires Valid()
      ensures mesh.None? ==> r == Failure(ValueError)
      ensures mesh.Some? ==> r.Success? == PixelBounds(mesh.value).Success?
      ensures mesh.Some? && r.Success? ==> r.value == PixelBounds(mesh.value).value.yMesh
    {
      if mesh.None? then Failure(ValueError)
      else match PixelBounds(mesh.value)
        case Failure(e) => Failure(e)
        case Success(b) => Success(b.yMesh)
    }
  }

  /**
   * Task(sources, mesh): an iterable is added item by item; a non-CurrentLoop
   * item raises TypeError, which is caught and add_source(sources) raises
   * TypeError again, so the construction fails. A single CurrentLoop is not
   * iterable and is added alone. Then the mesh is set.
   */
  method NewTask(sources: Option<CoilsArg>, mesh: Option<Obj<Mesh>>) returns (t: Task, out: Outcome)
    requires sources.Some? && sources.value.One? && sources.value.item.Instance? ==> sources.value.item.value.Valid()
    requires sources.Some? && sources.value.Several? ==>
      forall k :: 0 <= k < |sources.value.items| && sources.value.items[k].Instance? ==> sources.value.items[k].value.Valid()
    requires mesh.Some? && mesh.value.Instance? ==> mesh.value.value.Valid()
    ensures fresh(t) && t.Valid() && !t.done
    ensures sources.None? && mesh.None? ==> out == Pass && t.sources == [] && t.mesh.None?
    ensures sources.Some? && sources.value.One? && sources.value.item.Instance? ==> t.sources == [sources.value.item.value]
    ensures sources.Some? && sources.value.One? && sources.value.item.Other? ==> out == Fail(TypeError)
    ensures sources.Some? && sources.value.Several? ==>
      (var items := sources.value.items;
       |t.sources| <= |items|
       && (forall k :: 0 <= k < |t.sources| ==> items[k] == Instance(t.sources[k]))
       && (|t.sources| < |items| ==> items[|t.sources|].Other?)
       && ((forall k :: 0 <= k < |items| ==> items[k].Instance?) ==> |t.sources| == |items|)
       && ((exists k :: 0 <= k < |items| && items[k].Other?) ==> out == Fail(TypeError)))
    ensures out == Pass && mesh.Some? ==> mesh.value.Instance? && t.mesh == Some(mesh.value.value)
    ensures (sources.None? || (sources.value.One? && sources.value.item.Instance?)
             || (sources.value.Several? && forall k :: 0 <= k < |sources.value.items| ==> sources.value.items[k].Instance?)) ==>
      (mesh.None? || mesh.value.Instance? ==> out == Pass)
      && (mesh.Some? && mesh.value.Other? ==> out == Fail(TypeError))
    ensures mesh.Some? && mesh.value.Other? ==> out != Pass
  {
    t := new Task();
    out := Pass;
    if sources.Some? {
      match sources.value
      case One(item) =>
        out := t.AddSource(item);
      case Several(items) =>
        for k := 0 to |items|
          invariant t.Valid() && !t.done && t.mesh.None?
          invariant |t.sources| == k <= |items|
          invariant forall n :: 0 <= n < k ==> items[n] == Instance(t.sources[n])
          invariant out == Pass
        {
          if items[k].Other? {
            out := Fail(TypeError);
            return;
          }
          out := t.AddSource(items[k]);
        }
    }
    if out == Pass && mesh.Some? {
      out := t.SetMesh(mesh.value);
    }
  }
}
