/*
 * The grid arithmetic shared by the Task solvers of src/magcoilcalc/core.py
 * and src/coilcalc/core.py: the field grids start as np.zeros(shape), the
 * sequential solvers add a point field into every node, and the
 * multi-process solver lets each worker add the field into the nodes of its
 * chunk of the node list, then sums the workers' grids.
 *
 * The field at a point is a parameter `point`: each solver supplies the sum
 * it evaluates (over sources, or over a stacked loop table).
 */
module Solver {
  import opened Common
  import opened Numerics
  import opened MeshGeometry
  import opened Slicing

  /** Both node grids of a matrix have rows x cols entries. */
  predicate Shaped(mat: Matrix, rows: nat, cols: nat)
  {
    HasShape(mat.xMesh, rows, cols) && HasShape(mat.yMesh, rows, cols)
  }

  /** The point field at node (i, j): evaluated at (x_mesh[i][j], y_mesh[i][j]). */
  function PointAt(point: (real, real) -> Field, mat: Matrix, rows: nat, cols: nat, i: nat, j: nat): Field
    requires Shaped(mat, rows, cols) && i < rows && j < cols
  {
    point(mat.xMesh[i][j], mat.yMesh[i][j])
  }

  /** The axial field grid a solver must produce for a point field. */
  function AxialGrid(point: (real, real) -> Field, mat: Matrix, rows: nat, cols: nat): (g: Grid)
    requires Shaped(mat, rows, cols)
    ensures HasShape(g, rows, cols)
    ensures forall i, j :: 0 <= i < rows && 0 <= j < cols ==> g[i][j] == PointAt(point, mat, rows, cols, i, j).axial
  {
    seq(rows, i requires 0 <= i < rows => seq(cols, j requires 0 <= j < cols => PointAt(point, mat, rows, cols, i, j).axial))
  }

  /** The radial field grid a solver must produce for a point field. */
  function RadialGrid(point: (real, real) -> Field, mat: Matrix, rows: nat, cols: nat): (g: Grid)
    requires Shaped(mat, rows, cols)
    ensures HasShape(g, rows, cols)
    ensures forall i, j :: 0 <= i < rows && 0 <= j < cols ==> g[i][j] == PointAt(point, mat, rows, cols, i, j).radial
  {
    seq(rows, i requires 0 <= i < rows => seq(cols, j requires 0 <= j < cols => PointAt(point, mat, rows, cols, i, j).radial))
  }

  /** The contents of a 2-D array as a grid value. */
  function ToGrid(g: array2<real>): (r: Grid)
    reads g
    ensures HasShape(r, g.Length0, g.Length1)
    ensures forall i, j :: 0 <= i < g.Length0 && 0 <= j < g.Length1 ==> r[i][j] == g[i, j]
  {
    seq(g.Length0, i requires 0 <= i < g.Length0 reads g => seq(g.Length1, j requires 0 <= j < g.Length1 reads g => g[i, j]))
  }

  /** Two grids of the same shape with the same entries are equal. */
  lemma GridExt(g: Grid, h: Grid, rows: nat, cols: nat)
    requires HasShape(g, rows, cols) && HasShape(h, rows, cols)
    requires forall i, j :: 0 <= i < rows && 0 <= j < cols ==> g[i][j] == h[i][j]
    ensures g == h
  {
    forall i | 0 <= i < rows
      ensures g[i] == h[i]
    {
    }
  }

  /** The value v added n times to 0.0, as repeated `+=` does. */
  function Times(n: nat, v: real): real
  {
    if n == 0 then 0.0 else Times(n - 1, v) + v
  }

  /** Adding v n times gives n * v. */
  lemma {:induction false} TimesIsProduct(n: nat, v: real)
    ensures Times(n, v) == (n as real) * v
  {
    if n > 0 {
      TimesIsProduct(n - 1, v);
      assert (n as real) * v == ((n - 1) as real) * v + v;
    }
  }

  lemma {:induction false} TimesAdd(n: nat, m: nat, v: real)
    ensures Times(n + m, v) == Times(n, v) + Times(m, v)
  {
    if m > 0 {
      TimesAdd(n, m - 1, v);
    }
  }

  /** Every node of the list lies inside the rows x cols grid. */
  predicate InRange(s: seq<Node>, rows: nat, cols: nat)
  {
    forall k :: 0 <= k < |s| ==> s[k].0 < rows && s[k].1 < cols
  }

  lemma {:induction false} RowNodesInRange(i: nat, cols: nat, rows: nat)
    requires i < rows
    ensures InRange(RowNodes(i, cols), rows, cols)
  {
    if cols > 0 {
      RowNodesInRange(i, cols - 1, rows);
    }
  }

  lemma {:induction false} NodeListInRange(rows: nat, cols: nat, bound: nat)
    requires rows <= bound
    ensures InRange(NodeList(rows, cols), bound, cols)
  {
    if rows > 0 {
      NodeListInRange(rows - 1, cols, bound);
      RowNodesInRange(rows - 1, cols, bound);
    }
  }

  /** Each chunk of an in-range node list is in range. */
  lemma ChunksInRange(entries: seq<Node>, processes: nat, rows: nat, cols: nat)
    requires processes >= 1 && InRange(entries, rows, cols)
    ensures forall c :: 0 <= c < processes ==> InRange(Chunks(entries, processes)[c], rows, cols)
  {
    forall c | 0 <= c < processes
      ensures InRange(Chunks(entries, processes)[c], rows, cols)
    {
      var w := |entries| / processes + 1;
      var lo, hi := Min(c * w, |entries|), Min(c * w + w, |entries|);
      assert Chunks(entries, processes)[c] == entries[lo..hi];
      SliceInRange(entries, lo, hi, rows, cols);
    }
  }

  lemma SliceInRange(entries: seq<Node>, lo: nat, hi: nat, rows: nat, cols: nat)
    requires lo <= hi <= |entries| && InRange(entries, rows, cols)
    ensures InRange(entries[lo..hi], rows, cols)
  {
    var chunk := entries[lo..hi];
    forall k | 0 <= k < |chunk|
      ensures chunk[k].0 < rows && chunk[k].1 < cols
    {
      assert chunk[k] == entries[lo + k];
    }
  }

  /**
   * The chunks of the node list cover every node of the grid exactly once
   * and nothing else: the worker grids together add each node's field once.
   */
  lemma ChunkCoverage(rows: nat, cols: nat, processes: nat, p: Node)
    requires processes >= 1
    ensures Occurrences(Flatten(Chunks(NodeList(rows, cols), processes)), p) == if p.0 < rows && p.1 < cols then 1 else 0
  {
    ChunksCover(NodeList(rows, cols), processes);
    NodeListOccurrences(rows, cols, p);
  }

  /** Add the point field into every node of the two grids (x_field[i][j] += bx, y_field[i][j] += by). */
  method AddPointField(point: (real, real) -> Field, mat: Matrix, rows: nat, cols: nat, gx: array2<real>, gy: array2<real>)
    requires Shaped(mat, rows, cols) && gx != gy
    requires gx.Length0 == rows && gx.Length1 == cols && gy.Length0 == rows && gy.Length1 == cols
    modifies gx, gy
    ensures forall a, b :: 0 <= a < rows && 0 <= b < cols ==>
      gx[a, b] == old(gx[a, b]) + PointAt(point, mat, rows, cols, a, b).axial
      && gy[a, b] == old(gy[a, b]) + PointAt(point, mat, rows, cols, a, b).radial
  {
    for i := 0 to rows
      invariant forall a, b :: 0 <= a < i && 0 <= b < cols ==>
        gx[a, b] == old(gx[a, b]) + PointAt(point, mat, rows, cols, a, b).axial
        && gy[a, b] == old(gy[a, b]) + PointAt(point, mat, rows, cols, a, b).radial
      invariant forall a, b :: i <= a < rows && 0 <= b < cols ==> gx[a, b] == old(gx[a, b]) && gy[a, b] == old(gy[a, b])
    {
      for j := 0 to cols
        invariant forall a, b :: 0 <= a < i && 0 <= b < cols ==>
          gx[a, b] == old(gx[a, b]) + PointAt(point, mat, rows, cols, a, b).axial
          && gy[a, b] == old(gy[a, b]) + PointAt(point, mat, rows, cols, a, b).radial
        invariant forall b :: 0 <= b < j ==>
          gx[i, b] == old(gx[i, b]) + PointAt(point, mat, rows, cols, i, b).axial
          && gy[i, b] == old(gy[i, b]) + PointAt(point, mat, rows, cols, i, b).radial
        invariant forall a, b :: i <= a < rows && 0 <= b < cols && (a > i || b >= j) ==>
          gx[a, b] == old(gx[a, b]) && gy[a, b] == old(gy[a, b])
      {
        var f := point(mat.xMesh[i][j], mat.yMesh[i][j]);
        gx[i, j] := gx[i, j] + f.axial;
        gy[i, j] := gy[i, j] + f.radial;
      }
    }
  }

  /**
   * One worker (_mp_process_run): fresh zero grids, and for every (i, j) of
   * the chunk the point field is added into node (i, j); a node listed n
   * times receives it n times.
   */
  method ProcessChunk(chunk: seq<Node>, mat: Matrix, rows: nat, cols: nat, point: (real, real) -> Field)
    returns (gx: array2<real>, gy: array2<real>)
    requires Shaped(mat, rows, cols) && InRange(chunk, rows, cols)
    ensures fresh(gx) && fresh(gy) && gx != gy
    ensures gx.Length0 == rows && gx.Length1 == cols && gy.Length0 == rows && gy.Length1 == cols
    ensures forall a, b :: 0 <= a < rows && 0 <= b < cols ==>
      gx[a, b] == Times(Occurrences(chunk, (a, b)), PointAt(point, mat, rows, cols, a, b).axial)
      && gy[a, b] == Times(Occurrences(chunk, (a, b)), PointAt(point, mat, rows, cols, a, b).radial)
  {
    gx := Zeros(rows, cols);
    gy := Zeros(rows, cols);
    for k := 0 to |chunk|
      invariant forall a, b :: 0 <= a < rows && 0 <= b < cols ==>
        gx[a, b] == Times(Occurrences(chunk[..k], (a, b)), PointAt(point, mat, rows, cols, a, b).axial)
        && gy[a, b] == Times(Occurrences(chunk[..k], (a, b)), PointAt(point, mat, rows, cols, a, b).radial)
    {
      var (i, j) := chunk[k];
      assert chunk[..k + 1][..k] == chunk[..k];
      var f := point(mat.xMesh[i][j], mat.yMesh[i][j]);
      gx[i, j] := gx[i, j] + f.axial;
      gy[i, j] := gy[i, j] + f.radial;
    }
    assert chunk[..|chunk|] == chunk;
  }

  /** Adding chunk c's grid adds its occurrences of p to those of the chunks before it. */
  lemma FoldStep(chunks: seq<seq<Node>>, c: nat, p: Node, v: real)
    requires c < |chunks|
    ensures Times(Occurrences(Flatten(chunks[..c + 1]), p), v)
            == Times(Occurrences(Flatten(chunks[..c]), p), v) + Times(Occurrences(chunks[c], p), v)
  {
    assert chunks[..c + 1][..c] == chunks[..c];
    assert Flatten(chunks[..c + 1]) == Flatten(chunks[..c]) + chunks[c];
    OccurrencesAppend(Flatten(chunks[..c]), chunks[c], p);
    TimesAdd(Occurrences(Flatten(chunks[..c]), p), Occurrences(chunks[c], p), v);
  }

  /**
   * The reduction of _run_mp: start from zero grids and add the grid of
   * every chunk's worker, in order.
   */
  method FoldChunks(chunks: seq<seq<Node>>, mat: Matrix, rows: nat, cols: nat, point: (real, real) -> Field)
    returns (gx: array2<real>, gy: array2<real>)
    requires Shaped(mat, rows, cols)
    requires forall c :: 0 <= c < |chunks| ==> InRange(chunks[c], rows, cols)
    ensures fresh(gx) && fresh(gy) && gx != gy
    ensures gx.Length0 == rows && gx.Length1 == cols && gy.Length0 == rows && gy.Length1 == cols
    ensures forall a, b :: 0 <= a < rows && 0 <= b < cols ==>
      gx[a, b] == Times(Occurrences(Flatten(chunks), (a, b)), PointAt(point, mat, rows, cols, a, b).axial)
      && gy[a, b] == Times(Occurrences(Flatten(chunks), (a, b)), PointAt(point, mat, rows, cols, a, b).radial)
  {
    gx := Zeros(rows, cols);
    gy := Zeros(rows, cols);
    for c := 0 to |chunks|
      invariant fresh(gx) && fresh(gy) && gx != gy
      invariant gx.Length0 == rows && gx.Length1 == cols && gy.Length0 == rows && gy.Length1 == cols
      invariant forall a, b :: 0 <= a < rows && 0 <= b < cols ==>
        gx[a, b] == Times(Occurrences(Flatten(chunks[..c]), (a, b)), PointAt(point, mat, rows, cols, a, b).axial)
        && gy[a, b] == Times(Occurrences(Flatten(chunks[..c]), (a, b)), PointAt(point, mat, rows, cols, a, b).radial)
    {
      var px, py := ProcessChunk(chunks[c], mat, rows, cols, point);
      AddInto(gx, px);
      AddInto(gy, py);
      forall a, b | 0 <= a < rows && 0 <= b < cols
        ensures gx[a, b] == Times(Occurrences(Flatten(chunks[..c + 1]), (a, b)), PointAt(point, mat, rows, cols, a, b).axial)
        ensures gy[a, b] == Times(Occurrences(Flatten(chunks[..c + 1]), (a, b)), PointAt(point, mat, rows, cols, a, b).radial)
      {
        FoldStep(chunks, c, (a, b), PointAt(point, mat, rows, cols, a, b).axial);
        FoldStep(chunks, c, (a, b), PointAt(point, mat, rows, cols, a, b).radial);
      }
    }
    assert chunks[..|chunks|] == chunks;
  }

  /**
   * Whether calculate_center_field can evaluate the interpolators at (0, 0):
   * they are built over the mesh's x and y linspaces.
   */
  predicate CentreOnMesh(num: Kernels, m: Mesh)
    requires m.Valid() && |m.yRange| >= 2
  {
    !num.interpolationFails(XLinspace(m), YLinspace(m).value, 0.0, 0.0)
  }

  /**
   * calculate_center_field: both grids interpolated at (0, 0) over the
   * mesh's x and y linspaces; the interpolator's ValueError when it cannot
   * be built or (0, 0) lies off the mesh.
   */
  function CenterOf(num: Kernels, m: Mesh, gx: Grid, gy: Grid): (f: Result<Field>)
    requires m.Valid() && |m.yRange| >= 2
    ensures f.Success? <==> CentreOnMesh(num, m)
    ensures f.Failure? ==> f.error == ValueError
    ensures f.Success? ==> f.value.axial == num.interpolate(gx, XLinspace(m), YLinspace(m).value, 0.0, 0.0)
    ensures f.Success? ==> f.value.radial == num.interpolate(gy, XLinspace(m), YLinspace(m).value, 0.0, 0.0)
  {
    var xs, ys := XLinspace(m), YLinspace(m).value;
    if num.interpolationFails(xs, ys, 0.0, 0.0) then Failure(ValueError)
    else Success(Field(num.interpolate(gx, xs, ys, 0.0, 0.0), num.interpolate(gy, xs, ys, 0.0, 0.0)))
  }

  /** The samples of an increasing linspace strictly increase. */
  lemma LinspaceIncreasing(a: real, b: real, n: nat)
    requires a < b
    ensures Increasing(Linspace(a, b, n))
  {
    forall i, j | 0 <= i < j < n
      ensures Linspace(a, b, n)[i] < Linspace(a, b, n)[j]
    {
      LinspaceLess(a, b, n, i, j);
    }
  }

  lemma LinspaceLess(a: real, b: real, n: nat, i: nat, j: nat)
    requires a < b && i < j < n
    ensures Linspace(a, b, n)[i] < Linspace(a, b, n)[j]
  {
    var h := LinspaceStep(a, b, n);
    assert h > 0.0 by {
      PositiveQuotient(b - a, (n - 1) as real);
    }
    ScaleLess(i as real, j as real, h);
    LinspaceAt(a, b, n, i);
    LinspaceAt(a, b, n, j);
  }

  lemma PositiveQuotient(p: real, d: real)
    requires p > 0.0 && d > 0.0
    ensures p / d > 0.0
  {
  }

  lemma ScaleLess(x: real, y: real, h: real)
    requires x < y && h > 0.0
    ensures x * h < y * h
  {
    assert y * h - x * h == (y - x) * h;
  }

  /**
   * Over a mesh whose axes increase and have at least two nodes each, the
   * centre field exists exactly when (0, 0) lies within x_range and y_range:
   * a mesh such as x_range [10, 50] makes run() raise ValueError after the
   * grids are stored.
   */
  lemma CentreOnMeshIff(num: Kernels, m: Mesh)
    requires BoundsChecked(num) && m.Valid() && |m.yRange| >= 2
    requires m.xSteps >= 2 && m.ySteps >= 2 && m.xRange[0] < m.xRange[1] && m.yRange[0] < m.yRange[1]
    ensures CentreOnMesh(num, m) <==>
      m.xRange[0] <= 0.0 <= m.xRange[1] && m.yRange[0] <= 0.0 <= m.yRange[1]
  {
    var xs, ys := XLinspace(m), YLinspace(m).value;
    LinspaceIncreasing(m.xRange[0], m.xRange[1], m.xSteps);
    LinspaceIncreasing(m.yRange[0], m.yRange[1], m.ySteps);
    LinspaceLast(m.xRange[0], m.xRange[1], m.xSteps);
    LinspaceLast(m.yRange[0], m.yRange[1], m.ySteps);
    assert num.interpolationFails(xs, ys, 0.0, 0.0) <==> !(xs[0] <= 0.0 <= xs[|xs| - 1] && ys[0] <= 0.0 <= ys[|ys| - 1]);
  }

  /** The mesh [10, 50] x [-20, 20] leaves the origin out, so the centre field raises ValueError. */
  lemma CentreOffMesh(num: Kernels, gx: Grid, gy: Grid)
    requires BoundsChecked(num)
    ensures CenterOf(num, Mesh([10.0, 50.0], [-20.0, 20.0], 41, 21), gx, gy) == Failure(ValueError)
  {
    CentreOnMeshIff(num, Mesh([10.0, 50.0], [-20.0, 20.0], 41, 21));
  }
}
