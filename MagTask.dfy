/*
 * Task of src/magcoilcalc/core.py: a list of source copies, a mesh, a
 * `done` flag, the solved field grids and the centre field. The solvers
 * fill the grids with the sum of the sources' fields at every node, either
 * source by source (_run_sp) or chunk by chunk over a stacked loop table
 * (_run_mp); both produce the same grids.
 */
module MagTask {
  import opened Common
  import opened Numerics
  import opened CoilLoops
  import opened MeshGeometry
  import opened Slicing
  import opened MagSources
  import opened Solver

  /** The field of all the sources at a point, as _run_sp sums it. */
  function SourcesPoint(num: Kernels, sources: seq<Source>): (real, real) -> Field
    requires ValidMembers(sources)
  {
    (xp: real, yp: real) => MembersField(num, sources, xp, yp)
  }

  /** The field of one source at a point. */
  function SourcePoint(num: Kernels, s: Source): (real, real) -> Field
    requires ValidSource(s)
  {
    (xp: real, yp: real) => SourceField(num, s, xp, yp)
  }

  /** The field of a stacked loop table at a point, as each worker sums it. */
  function LoopsPoint(num: Kernels, loops: seq<Row>): (real, real) -> Field
  {
    (xp: real, yp: real) => LoopsField(num, loops, xp, yp)
  }

  /** Every source is a loop coil (the copies of CurrentLoops and CurrentSheets). */
  predicate AllLoops(sources: seq<Source>)
  {
    forall k :: 0 <= k < |sources| ==> sources[k].Loop? && sources[k].coil.Valid()
  }

  /** np.vstack of the sources' loop tables, in source order. */
  function StackedTables(sources: seq<Source>): seq<Row>
    requires AllLoops(sources)
  {
    if sources == [] then [] else StackedTables(sources[..|sources| - 1]) + LoopTable(sources[|sources| - 1].coil)
  }

  /**
   * Summing the loops of the stacked table gives the same field as summing
   * the sources one by one.
   */
  lemma {:induction false} StackedTablesField(num: Kernels, sources: seq<Source>, xp: real, yp: real)
    requires AllLoops(sources)
    ensures ValidMembers(sources)
    ensures LoopsField(num, StackedTables(sources), xp, yp) == MembersField(num, sources, xp, yp)
  {
    if sources != [] {
      var n := |sources| - 1;
      StackedTablesField(num, sources[..n], xp, yp);
      LoopsFieldAppend(num, StackedTables(sources[..n]), LoopTable(sources[n].coil), xp, yp);
    }
  }

  /**
   * The list comprehension of _run_mp: get_loop_list of every source, then
   * np.vstack. A source without get_loop_list (a collection) raises
   * AttributeError, reported as TypeError; stacking an empty list raises
   * ValueError.
   */
  method StackLoopTables(sources: seq<Source>) returns (res: Result<seq<Row>>)
    requires ValidMembers(sources)
    ensures !AllLoops(sources) ==> res == Failure(TypeError)
    ensures AllLoops(sources) && sources == [] ==> res == Failure(ValueError)
    ensures AllLoops(sources) && sources != [] ==> res == Success(StackedTables(sources))
  {
    var loops: seq<Row> := [];
    for k := 0 to |sources|
      invariant AllLoops(sources[..k])
      invariant loops == StackedTables(sources[..k])
    {
      ValidMembersPrefix(sources, k);
      if !sources[k].Loop? {
        return Failure(TypeError);
      }
      assert sources[..k + 1][..k] == sources[..k];
      var table := BuildLoopTable(sources[k].coil);
      loops := loops + table;
    }
    assert sources[..|sources|] == sources;
    if sources == [] {
      return Failure(ValueError);
    }
    return Success(loops);
  }

  /**
   * _run_sp: fresh zero grids, then every source's field added into every
   * node, source after source.
   */
  method SolveSequential(num: Kernels, sources: seq<Source>, mat: Matrix, rows: nat, cols: nat)
    returns (gx: array2<real>, gy: array2<real>)
    requires ValidMembers(sources) && Shaped(mat, rows, cols)
    ensures fresh(gx) && fresh(gy)
    ensures ToGrid(gx) == AxialGrid(SourcesPoint(num, sources), mat, rows, cols)
    ensures ToGrid(gy) == RadialGrid(SourcesPoint(num, sources), mat, rows, cols)
  {
    gx := Zeros(rows, cols);
    gy := Zeros(rows, cols);
    assert sources[..0] == [];
    for s := 0 to |sources|
      invariant fresh(gx) && fresh(gy) && gx != gy
      invariant gx.Length0 == rows && gx.Length1 == cols && gy.Length0 == rows && gy.Length1 == cols
      invariant ValidMembers(sources[..s])
      invariant forall a, b :: 0 <= a < rows && 0 <= b < cols ==>
        gx[a, b] == PointAt(SourcesPoint(num, sources[..s]), mat, rows, cols, a, b).axial
        && gy[a, b] == PointAt(SourcesPoint(num, sources[..s]), mat, rows, cols, a, b).radial
    {
      ValidMembersPrefix(sources, s);
      ValidMembersPrefix(sources, s + 1);
      assert sources[..s + 1][..s] == sources[..s];
      AddPointField(SourcePoint(num, sources[s]), mat, rows, cols, gx, gy);
    }
    assert sources[..|sources|] == sources;
    GridExt(ToGrid(gx), AxialGrid(SourcesPoint(num, sources), mat, rows, cols), rows, cols);
    GridExt(ToGrid(gy), RadialGrid(SourcesPoint(num, sources), mat, rows, cols), rows, cols);
  }

  /**
   * The chunked solve of _run_mp, once the loop table is stacked: the node
   * list is sliced into `processes` chunks, every worker adds the stacked
   * table's field into the nodes of its chunk, and the worker grids are
   * summed. The result is the grid of the sequential solve.
   */
  method SolveChunked(num: Kernels, sources: seq<Source>, loops: seq<Row>, mat: Matrix, rows: nat, cols: nat, processes: nat)
    returns (gx: array2<real>, gy: array2<real>)
    requires AllLoops(sources) && loops == StackedTables(sources)
    requires Shaped(mat, rows, cols) && processes >= 1
    ensures fresh(gx) && fresh(gy)
    ensures ValidMembers(sources)
    ensures ToGrid(gx) == AxialGrid(SourcesPoint(num, sources), mat, rows, cols)
    ensures ToGrid(gy) == RadialGrid(SourcesPoint(num, sources), mat, rows, cols)
  {
    StackedTablesField(num, sources, 0.0, 0.0);
    var nodes := NodeList(rows, cols);
    var sliced := SliceList(nodes, processes);
    var chunks := sliced.value;
    NodeListInRange(rows, cols, rows);
    ChunksInRange(nodes, processes, rows, cols);
    gx, gy := FoldChunks(chunks, mat, rows, cols, LoopsPoint(num, loops));
    forall a, b | 0 <= a < rows && 0 <= b < cols
      ensures gx[a, b] == PointAt(SourcesPoint(num, sources), mat, rows, cols, a, b).axial
      ensures gy[a, b] == PointAt(SourcesPoint(num, sources), mat, rows, cols, a, b).radial
    {
      ChunkedNode(num, sources, mat, rows, cols, processes, a, b);
    }
    GridExt(ToGrid(gx), AxialGrid(SourcesPoint(num, sources), mat, rows, cols), rows, cols);
    GridExt(ToGrid(gy), RadialGrid(SourcesPoint(num, sources), mat, rows, cols), rows, cols);
  }

  /**
   * At every node, the chunked reduction over the stacked table adds
   * exactly the sum of the sources' fields.
   */
  lemma ChunkedNode(num: Kernels, sources: seq<Source>, mat: Matrix, rows: nat, cols: nat, processes: nat, a: nat, b: nat)
    requires AllLoops(sources) && Shaped(mat, rows, cols) && processes >= 1 && a < rows && b < cols
    ensures ValidMembers(sources)
    ensures var n := Occurrences(Flatten(Chunks(NodeList(rows, cols), processes)), (a, b));
      var f := PointAt(LoopsPoint(num, StackedTables(sources)), mat, rows, cols, a, b);
      Times(n, f.axial) == PointAt(SourcesPoint(num, sources), mat, rows, cols, a, b).axial
      && Times(n, f.radial) == PointAt(SourcesPoint(num, sources), mat, rows, cols, a, b).radial
  {
    ChunkCoverage(rows, cols, processes, (a, b));
    StackedTablesField(num, sources, mat.xMesh[a][b], mat.yMesh[a][b]);
  }

  class Task {
    var done: bool
    var sources: seq<Source>
    var mesh: Option<Mesh>
    var xField: Grid
    var yField: Grid
    var centerField: Option<Field>

    ghost predicate Valid()
      reads this
    {
      ValidMembers(sources) && (mesh.Some? ==> mesh.value.Valid())
    }

    /** The mesh is set and its y_range has two ends, so get_matrix succeeds. */
    predicate Solvable()
      reads this
    {
      mesh.Some? && mesh.value.Valid() && |mesh.value.yRange| >= 2
    }

    /** The node matrix of a solvable task. */
    function TheMatrix(): (mat: Matrix)
      reads this
      requires Solvable()
      ensures Shaped(mat, mesh.value.ySteps, mesh.value.xSteps)
    {
      GetMatrix(mesh.value).value
    }

    /** The grids a solve of the present sources over the present mesh must leave. */
    ghost predicate HoldsGrids(num: Kernels)
      reads this
      requires Valid() && Solvable()
    {
      var m := mesh.value;
      xField == AxialGrid(SourcesPoint(num, sources), TheMatrix(), m.ySteps, m.xSteps)
      && yField == RadialGrid(SourcesPoint(num, sources), TheMatrix(), m.ySteps, m.xSteps)
    }

    /** The grids of a solve, and the centre field interpolated from them. */
    ghost predicate HoldsSolution(num: Kernels)
      reads this
      requires Valid() && Solvable()
    {
      var m := mesh.value;
      HoldsGrids(num) && CenterOf(num, m, xField, yField).Success?
      && centerField == Some(CenterOf(num, m, xField, yField).value)
    }

    /** Task(): no sources, no mesh, not done. */
    constructor ()
      ensures Valid() && !done && sources == [] && mesh.None? && centerField.None?
    {
      done := false;
      sources := [];
      mesh := None;
      xField, yField := [], [];
      centerField := None;
    }

    /**
     * add_source: a source's __copy__ is appended and `done` cleared;
     * anything else raises TypeError and changes nothing.
     */
    method AddSource(src: Obj<Source>) returns (out: Outcome)
      requires Valid() && (src.Instance? ==> ValidSource(src.value))
      modifies this
      ensures Valid()
      ensures src.Other? ==> out == Fail(TypeError) && unchanged(this)
      ensures src.Instance? ==> out == Pass && sources == old(sources) + [CopyOf(src.value)] && !done
      ensures mesh == old(mesh) && xField == old(xField) && yField == old(yField) && centerField == old(centerField)
    {
      if src.Other? {
        return Fail(TypeError);
      }
      var copy := CopyOf(src.value);
      assert (sources + [copy])[..|sources|] == sources;
      sources := sources + [copy];
      done := false;
      return Pass;
    }

    /**
     * remove_source: no index empties the list; an index pops that entry
     * (IndexError when out of range). `done` is left as it was.
     */
    method RemoveSource(index: Option<int>) returns (out: Outcome)
      requires Valid()
      modifies this
      ensures Valid()
      ensures done == old(done) && mesh == old(mesh) && xField == old(xField) && yField == old(yField)
      ensures centerField == old(centerField)
      ensures index.None? ==> out == Pass && sources == []
      ensures index.Some? && PopPosition(|old(sources)|, index.value).None? ==> out == Fail(IndexError) && sources == old(sources)
      ensures index.Some? && PopPosition(|old(sources)|, index.value).Some? ==>
        (var p := PopPosition(|old(sources)|, index.value).value;
         out == Pass && sources == old(sources)[..p] + old(sources)[p + 1..])
    {
      if index.None? {
        sources := [];
        return Pass;
      }
      var pos := PopPosition(|sources|, index.value);
      if pos.None? {
        return Fail(IndexError);
      }
      var p := pos.value;
      ValidMembersPrefix(sources, p);
      ValidMembersSuffix(sources, p + 1);
      ValidMembersAppend(sources[..p], sources[p + 1..]);
      sources := sources[..p] + sources[p + 1..];
      return Pass;
    }

    /** set_mesh: a Mesh is stored and `done` cleared; anything else raises TypeError. */
    method SetMesh(m: Obj<Mesh>) returns (out: Outcome)
      requires Valid() && (m.Instance? ==> m.value.Valid())
      modifies this
      ensures Valid()
      ensures m.Other? ==> out == Fail(TypeError) && unchanged(this)
      ensures m.Instance? ==> out == Pass && mesh == Some(m.value) && !done
      ensures sources == old(sources) && xField == old(xField) && yField == old(yField) && centerField == old(centerField)
    {
      if m.Other? {
        return Fail(TypeError);
      }
      mesh := Some(m.value);
      done := false;
      return Pass;
    }

    /**
     * The end of every solver: store the grids, set `done`, compute the centre
     * field; the interpolator's ValueError leaves the previous centre field.
     */
    method Finish(num: Kernels, gx: array2<real>, gy: array2<real>) returns (out: Outcome)
      requires Valid() && Solvable()
      requires ToGrid(gx) == AxialGrid(SourcesPoint(num, sources), TheMatrix(), mesh.value.ySteps, mesh.value.xSteps)
      requires ToGrid(gy) == RadialGrid(SourcesPoint(num, sources), TheMatrix(), mesh.value.ySteps, mesh.value.xSteps)
      modifies this
      ensures Valid() && Solvable() && done && HoldsGrids(num)
      ensures CentreOnMesh(num, mesh.value) ==> out == Pass && HoldsSolution(num)
      ensures !CentreOnMesh(num, mesh.value) ==> out == Fail(ValueError) && centerField == old(centerField)
      ensures sources == old(sources) && mesh == old(mesh)
    {
      done := true;
      xField := ToGrid(gx);
      yField := ToGrid(gy);
      var c := CenterOf(num, mesh.value, xField, yField);
      if c.Failure? {
        return Fail(c.error);
      }
      centerField := Some(c.value);
      return Pass;
    }

    /**
     * _run_sp: nothing to do once `done`; without a mesh get_matrix fails
     * (AttributeError), with a one-ended y_range it raises IndexError;
     * otherwise the grids are solved and `done` set.
     */
    method RunSp(num: Kernels) returns (out: Outcome)
      requires Valid()
      modifies this
      ensures Valid() && sources == old(sources) && mesh == old(mesh)
      ensures old(done) ==> out == Pass && unchanged(this)
      ensures !old(done) && mesh.None? ==> out == Fail(AttributeError) && unchanged(this)
      ensures !old(done) && mesh.Some? && !Solvable() ==> out == Fail(IndexError) && unchanged(this)
      ensures !old(done) && Solvable() ==> done && HoldsGrids(num)
      ensures !old(done) && Solvable() && CentreOnMesh(num, mesh.value) ==> out == Pass && HoldsSolution(num)
      ensures !old(done) && Solvable() && !CentreOnMesh(num, mesh.value) ==> out == Fail(ValueError) && centerField == old(centerField)
    {
      if done {
        return Pass;
      }
      if mesh.None? {
        return Fail(AttributeError);
      }
      var matrix := GetMatrix(mesh.value);
      if matrix.Failure? {
        return Fail(matrix.error);
      }
      var gx, gy := SolveSequential(num, sources, matrix.value, mesh.value.ySteps, mesh.value.xSteps);
      out := Finish(num, gx, gy);
    }

    /**
     * _run_mp: as _run_sp up to get_matrix; then the loop tables are stacked
     * (TypeError for a source without a loop table, ValueError for no
     * sources), and the chunked solve fills the grids.
     */
    method RunMp(num: Kernels, processes: nat) returns (out: Outcome)
      requires Valid() && processes >= 1
      modifies this
      ensures Valid() && sources == old(sources) && mesh == old(mesh)
      ensures old(done) ==> out == Pass && unchanged(this)
      ensures !old(done) && mesh.None? ==> out == Fail(AttributeError) && unchanged(this)
      ensures !old(done) && mesh.Some? && !Solvable() ==> out == Fail(IndexError) && unchanged(this)
      ensures !old(done) && Solvable() && !AllLoops(sources) ==> out == Fail(TypeError) && unchanged(this)
      ensures !old(done) && Solvable() && AllLoops(sources) && sources == [] ==> out == Fail(ValueError) && unchanged(this)
      ensures !old(done) && Solvable() && AllLoops(sources) && sources != [] ==> done && HoldsGrids(num)
      ensures !old(done) && Solvable() && AllLoops(sources) && sources != [] && CentreOnMesh(num, mesh.value) ==> out == Pass && HoldsSolution(num)
      ensures !old(done) && Solvable() && AllLoops(sources) && sources != [] && !CentreOnMesh(num, mesh.value) ==> out == Fail(ValueError) && centerField == old(centerField)
    {
      if done {
        return Pass;
      }
      if mesh.None? {
        return Fail(AttributeError);
      }
      var matrix := GetMatrix(mesh.value);
      if matrix.Failure? {
        return Fail(matrix.error);
      }
      var stacked := StackLoopTables(sources);
      if stacked.Failure? {
        return Fail(stacked.error);
      }
      var gx, gy := SolveChunked(num, sources, stacked.value, matrix.value, mesh.value.ySteps, mesh.value.xSteps, processes);
      out := Finish(num, gx, gy);
    }

    /**
     * run(processes): fewer than 1 process raises ValueError; 1 runs _run_sp;
     * more run _run_mp when multiprocessing is available, else _run_sp.
     */
    method Run(num: Kernels, processes: int, multiprocessingAvailable: bool) returns (out: Outcome)
      requires Valid()
      modifies this
      ensures Valid() && sources == old(sources) && mesh == old(mesh)
      ensures processes < 1 ==> out == Fail(ValueError) && unchanged(this)
      ensures processes >= 1 && old(done) ==> out == Pass && unchanged(this)
      ensures processes >= 1 && !old(done) && mesh.None? ==> out == Fail(AttributeError)
      ensures processes >= 1 && out == Pass ==> done
      ensures processes >= 1 && !old(done) && out == Pass ==> Solvable() && HoldsSolution(num)
      ensures (processes == 1 || (processes > 1 && !multiprocessingAvailable)) && !old(done) && Solvable() ==> done && HoldsGrids(num)
      ensures (processes == 1 || (processes > 1 && !multiprocessingAvailable)) && !old(done) && Solvable() && CentreOnMesh(num, mesh.value) ==> out == Pass && HoldsSolution(num)
      ensures (processes == 1 || (processes > 1 && !multiprocessingAvailable)) && !old(done) && Solvable() && !CentreOnMesh(num, mesh.value) ==> out == Fail(ValueError) && centerField == old(centerField)
      ensures processes > 1 && multiprocessingAvailable && !old(done) && Solvable() && AllLoops(sources) && sources != [] ==> done && HoldsGrids(num)
      ensures processes > 1 && multiprocessingAvailable && !old(done) && Solvable() && AllLoops(sources) && sources != [] && CentreOnMesh(num, mesh.value) ==> out == Pass && HoldsSolution(num)
      ensures processes > 1 && multiprocessingAvailable && !old(done) && Solvable() && AllLoops(sources) && sources != [] && !CentreOnMesh(num, mesh.value) ==> out == Fail(ValueError) && centerField == old(centerField)
    {
      if processes < 1 {
        return Fail(ValueError);
      }
      if processes == 1 || !multiprocessingAvailable {
        out := RunSp(num);
      } else {
        out := RunMp(num, processes);
      }
    }

    /** x_field: ValueError until solved. */
    function XField(): (r: Result<Grid>)
      reads this
      ensures r.Success? <==> done
      ensures r.Failure? ==> r.error == ValueError
      ensures r.Success? ==> r.value == xField
    {
      if !done then Failure(ValueError) else Success(xField)
    }

    /** y_field: ValueError until solved. */
    function YField(): (r: Result<Grid>)
      reads this
      ensures r.Success? <==> done
      ensures r.Failure? ==> r.error == ValueError
      ensures r.Success? ==> r.value == yField
    {
      if !done then Failure(ValueError) else Success(yField)
    }

    /** center_field: ValueError until solved. */
    function CenterField(): (r: Result<Option<Field>>)
      reads this
      ensures r.Success? <==> done
      ensures r.Failure? ==> r.error == ValueError
      ensures r.Success? ==> r.value == centerField
    {
      if !done then Failure(ValueError) else Success(centerField)
    }

    /** mesh: ValueError while no mesh is set. */
    function MeshOf(): (r: Result<Mesh>)
      reads this
      ensures r.Success? <==> mesh.Some?
      ensures r.Failure? ==> r.error == ValueError
      ensures r.Success? ==> r.value == mesh.value
    {
      if mesh.None? then Failure(ValueError) else Success(mesh.value)
    }

    /** x_mesh: ValueError without a mesh, otherwise the mesh's node x grid (IndexError for a one-ended y_range). */
    function XMesh(): (r: Result<Grid>)
      reads this
      requires Valid()
      ensures mesh.None? ==> r == Failure(ValueError)
      ensures mesh.Some? && !Solvable() ==> r == Failure(IndexError)
      ensures Solvable() ==> r == Success(TheMatrix().xMesh)
    {
      if mesh.None? then Failure(ValueError)
      else match GetMatrix(mesh.value)
        case Failure(e) => Failure(e)
        case Success(mat) => Success(mat.xMesh)
    }

    /** y_mesh: as x_mesh, the node y grid. */
    function YMesh(): (r: Result<Grid>)
      reads this
      requires Valid()
      ensures mesh.None? ==> r == Failure(ValueError)
      ensures mesh.Some? && !Solvable() ==> r == Failure(IndexError)
      ensures Solvable() ==> r == Success(TheMatrix().yMesh)
    {
      if mesh.None? then Failure(ValueError)
      else match GetMatrix(mesh.value)
        case Failure(e) => Failure(e)
        case Success(mat) => Success(mat.yMesh)
    }

    /** x_pixel_bounds: ValueError without a mesh, otherwise the mesh's boundary x grid. */
    function XPixelBounds(): (r: Result<Grid>)
      reads this
      requires Valid()
      ensures mesh.None? ==> r == Failure(ValueError)
      ensures mesh.Some? ==> r.Success? == PixelBounds(mesh.value).Success?
      ensures mesh.Some? && r.Success? ==> r.value == PixelBounds(mesh.value).value.xMesh
    {
      if mesh.None? then Failure(ValueError)
      else match PixelBounds(mesh.value)
        case Failure(e) => Failure(e)
        case Success(b) => Success(b.xMesh)
    }

    /** y_pixel_bounds: ValueError without a mesh, otherwise the mesh's boundary y grid. */
    function YPixelBounds(): (r: Result<Grid>)
      reads this
      requires Valid()
      ensures mesh.None? ==> r == Failure(ValueError)
      ensures mesh.Some? ==> r.Success? == PixelBounds(mesh.value).Success?
      ensures mesh.Some? && r.Success? ==> r.value == PixelBounds(mesh.value).value.yMesh
    {
      if mesh.None? then Failure(ValueError)
      else match PixelBounds(mesh.value)
        case Failure(e) => Failure(e)
        case Success(b) => Success(b.yMesh)
    }
  }

  /**
   * Task(sources, mesh): an iterable of sources is added one by one (a
   * non-source stops it with TypeError), a single source is added alone,
   * then the mesh is set.
   */
  method NewTask(sources: Option<SourcesArg>, mesh: Option<Obj<Mesh>>) returns (t: Task, out: Outcome)
    requires sources.Some? && sources.value.Single? ==> (sources.value.item.Instance? ==> ValidSource(sources.value.item.value))
    requires sources.Some? && sources.value.Many? ==> ValidObjs(sources.value.items)
    requires mesh.Some? && mesh.value.Instance? ==> mesh.value.value.Valid()
    ensures fresh(t) && t.Valid() && !t.done
    ensures sources.None? && mesh.None? ==> out == Pass && t.sources == [] && t.mesh.None?
    ensures sources.Some? && sources.value.Single? && sources.value.item.Instance? ==>
      t.sources == [CopyOf(sources.value.item.value)]
    ensures sources.Some? && sources.value.Single? && sources.value.item.Other? ==> out == Fail(TypeError)
    ensures sources.Some? && sources.value.Many? ==>
      (var items := sources.value.items;
       |t.sources| == |LeadingSources(items)|
       && (forall k :: 0 <= k < |t.sources| ==> items[k].Instance? && t.sources[k] == CopyOf(items[k].value))
       && (!AllSources(items) ==> out == Fail(TypeError)))
    ensures out == Pass && mesh.Some? ==> mesh.value.Instance? && t.mesh == Some(mesh.value.value)
    ensures (sources.None? || (sources.value.Single? && sources.value.item.Instance?)
             || (sources.value.Many? && AllSources(sources.value.items))) ==>
      (mesh.None? || mesh.value.Instance? ==> out == Pass)
      && (mesh.Some? && mesh.value.Other? ==> out == Fail(TypeError))
    ensures mesh.Some? && mesh.value.Other? ==> out != Pass
  {
    t := new Task();
    out := Pass;
    if sources.Some? {
      match sources.value
      case Single(item) =>
        out := t.AddSource(item);
      case Many(items) =>
        for k := 0 to |items|
          invariant t.Valid() && !t.done && t.mesh.None?
          invariant AllSources(items[..k]) && |LeadingSources(items[..k])| == k
          invariant |t.sources| == k
          invariant forall n :: 0 <= n < k ==> items[n].Instance? && t.sources[n] == CopyOf(items[n].value)
          invariant out == Pass
        {
          if items[k].Other? {
            LeadingSourcesStop(items, k);
            out := Fail(TypeError);
            return;
          }
          LeadingSourcesStep(items, k);
          out := t.AddSource(items[k]);
        }
        assert items[..|items|] == items;
    }
    if out == Pass && mesh.Some? {
      out := t.SetMesh(mesh.value);
    }
  }
}
