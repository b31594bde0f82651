# coilcalc in Dafny

coilcalc computes the magnetic field that coaxial coils make on a 2-D
(axial x, radial y) grid. A coil (`CurrentLoop`) is a stack of circular
loops: a number of turns spread over several layers of equal thickness
along an axial span. Each loop's axial and radial field comes from
closed-form elliptic-integral kernels. The program has these parts:

- a `Mesh` that describes the node grid;
- a `Task` that holds sources, solves the field at every node and
  reports the grids;
- the gradient and figure-of-merit calculations;
- a parameter scanner;
- a few coil templates (Helmholtz pair, compensated solenoid, three-coil
  group).

The repository has two generations of the core:

- `src/coilcalc/core.py`: coils only. Its three solvers are the
  node-by-node legacy solver, a vectorised single-process solver and a
  chunked multi-process solver.
- `src/magcoilcalc/core.py`: adds current sheets and source collections,
  an equality on coils, a cached loop table, and solvers that sum the
  sources' fields.

The model is organised by component:

| module | models |
|---|---|
| `Common` | results and error kinds, fields, `np.linspace`, node matrices, node lists |
| `Numerics` | the numeric kernels the code imports (complete elliptic integrals, square root, sheet quadrature, grid interpolation), as uninterpreted parameters; division |
| `OffAxisLoop` | `_off_axis_loop.py`: the on-axis constant B0, the axial and radial field of one loop |
| `CoilLoops` | a coil's parameters and their normalisation, the turns-per-layer split, the loop table, a coil's field |
| `MeshGeometry` | `Mesh`: ranges, steps, linspaces, the node matrix, the pixel bounds |
| `Slicing` | `_slice_list`, which splits the node list among worker processes |
| `MagSources` | the magcoilcalc `CurrentLoop`, `CurrentSheet` and `SourceCollection` classes |
| `Solver` | solver building blocks both `Task`s share: zero grids, per-node accumulation, the chunk reduction, the centre field |
| `MagTask` | the magcoilcalc `Task` class |
| `CoilTask` | the coilcalc `Task` class and its three solvers |
| `Calculations` | `find_gradient`, `fom` and `parameter_scan` |
| `Templates` | `compensated_solenoid`, `helmholtz_coil`, `three_coils`, `maxwell_coil` |

Objects whose fields change in place are Dafny classes:

- magcoilcalc `CurrentLoop`, `CurrentSheet` and `SourceCollection`;
- both `Task`s.

Coils held by a task are values, because `add_source` stores a copy. The
solvers fill fresh `array2<real>` grids node by node. Each solver is
proved to leave the grids that a specification function gives. These
facts are proved about the specification functions:

- the vectorised and chunked solvers store what the legacy solver stores;
- the chunks cover every node exactly once;
- summing a stacked loop table equals summing source by source;
- a loop table has one row per turn and carries the coil's ampere-turns;
- a coil moved along the axis moves its field.

Behaviours of the code worth knowing:

- In the magcoilcalc `CurrentSheet.__copy__`, a `CurrentLoop` is
  returned, not a sheet. The model does the same.
- `Task.remove_source` leaves `done` as it was, so the stored grids can
  be stale.
- `Task.run` checks only `processes < 1`.

## Model

| member | source | states |
|---|---|---|
| Common.SignTimesAbs | src/coilcalc/_off_axis_loop.py:60-61 | np.sign(r) times abs(r) gives r back, for every r |
| Common.Linspace | src/coilcalc/core.py:347-353 | np.linspace(a, b, n) has n samples; the first sample is a whenever n >= 1 |
| Common.LinspaceLast | src/coilcalc/core.py:347-353 | with n >= 2 samples, the last sample of np.linspace is b |
| Common.LinspaceUniform | src/coilcalc/core.py:331-353 | consecutive linspace samples differ by (b - a) / (n - 1) |
| Common.LinspaceBetween | src/coilcalc/core.py:347-353 | every sample of an increasing linspace lies in [a, b] |
| Common.LinspaceShift | src/magcoilcalc/core.py:183-190 | shifting both ends by d shifts every sample by d |
| Common.MeshX | src/coilcalc/core.py:303-305 | np.meshgrid's x matrix has ySteps rows of xSteps entries, and entry [i][j] is xs[j] |
| Common.MeshY | src/coilcalc/core.py:303-305 | np.meshgrid's y matrix has ySteps rows of xSteps entries, and entry [i][j] is ys[i] |
| Common.NodeListOccurrences | src/coilcalc/core.py:563-566 | list(product(range(rows), range(cols))) lists each node (i, j) of the grid exactly once and no other pair |
| Common.PopPosition | src/coilcalc/core.py:431-440 | list.pop(index) accepts -n <= index < n, reads a negative index from the end, and otherwise raises IndexError |
| Common.Zeros | src/coilcalc/core.py:478-480 | np.zeros(shape) gives a fresh rows x cols grid of zeros |
| Common.AddInto | src/coilcalc/core.py:573-575 | x_field += result adds each worker's grid entry by entry |
| Numerics.Div | src/coilcalc/_off_axis_loop.py:12-21 | for a non-zero divisor, the quotient times the divisor is the dividend; division by zero gives the fixed value `singular` |
| OffAxisLoop.FieldAxialArray | src/coilcalc/_off_axis_loop.py:44-48 | field_axial on arrays gives one value per loop |
| OffAxisLoop.FieldRadialArray | src/coilcalc/_off_axis_loop.py:60-78 | field_radial on arrays gives one value per loop, and exactly 0 wherever r == 0 (the mask) |
| OffAxisLoop.B0Value | src/coilcalc/_off_axis_loop.py:8-9 | for a != 0, B0 * 2a == i * u0 with u0 = 4e-7 pi: the field at the loop's centre |
| OffAxisLoop.B0Linear | src/coilcalc/_off_axis_loop.py:8-9 | for a != 0, B0 scales linearly with the current |
| OffAxisLoop.AxialEvenInR | src/coilcalc/_off_axis_loop.py:44-48 | the axial field at -r equals the axial field at r |
| OffAxisLoop.RadialOddInR | src/coilcalc/_off_axis_loop.py:60-78 | the radial field at -r is the negated radial field at r |
| OffAxisLoop.RadialZeroOnAxis | src/coilcalc/_off_axis_loop.py:62-66 | the radial field is exactly 0 on the axis (r == 0) |
| OffAxisLoop.RadialArrayMatchesScalar | src/coilcalc/_off_axis_loop.py:62-78 | the masked array path and the scalar path of field_radial agree for every r |
| OffAxisLoop.AxialProportionalToCurrent | src/coilcalc/_off_axis_loop.py:44-48 | wherever a != 0 and sqrt(Q) != 0, the axial field of i amperes is i times that of one ampere |
| OffAxisLoop.RadialProportionalToCurrent | src/coilcalc/_off_axis_loop.py:51-78 | under the same conditions, the radial field is linear in the current |
| CoilLoops.Normalize | src/magcoilcalc/core.py:80-100 | a bare number v is stored as [v, v], and a list of at least two entries as given |
| CoilLoops.TruncatePositive | src/magcoilcalc/core.py:122-128 | for a value of at least 1, int(value) is the whole number n >= 1 with n <= value < n + 1 |
| CoilLoops.MakeCoil | src/coilcalc/core.py:17-118 | the constructor runs the setters in order: nturns < 1 raises ValueError, a fractional layers TypeError, layers < 1 ValueError; otherwise it holds the truncated turns and the normalised span and radius |
| CoilLoops.TurnsBeforeClosedForm | src/magcoilcalc/core.py:180-187 | the turns in the layers before layer k are k * (n // L) + min(k, n % L) |
| CoilLoops.TurnsPartition | src/magcoilcalc/core.py:180-187 | the layers' turn counts add up to nturns |
| CoilLoops.TurnsBalanced | src/magcoilcalc/core.py:180-187 | any two layers' turn counts differ by at most one, and earlier layers get the extra turns |
| CoilLoops.LayerRows | src/magcoilcalc/core.py:183-190 | layer i holds nturns // layers turns, plus one for the first nturns % layers layers |
| CoilLoops.LayerBlocks | src/magcoilcalc/core.py:182-190 | there is one block per layer built so far |
| CoilLoops.LoopTableLength | src/magcoilcalc/core.py:180-192 | the loop table has exactly nturns rows |
| CoilLoops.LoopTableRow | src/magcoilcalc/core.py:183-190 | row j of layer i is the j-th linspace sample of the span and of the radius, the radius lifted by i * layer_thickness, with the coil current |
| CoilLoops.LoopTableCurrents | src/magcoilcalc/core.py:190 | every row carries the coil current; the multiplier plays no part |
| CoilLoops.BuildLoopTable | src/coilcalc/core.py:138-155 | get_loop_list's layer-by-layer loop builds exactly the loop table, with nturns rows |
| CoilLoops.AmpereTurns | src/magcoilcalc/core.py:183-191 | the table's currents add up to nturns * current |
| CoilLoops.LayerEndRow | src/magcoilcalc/core.py:183-190 | a layer of two or more turns ends at the span's end, its radius lifted by the layer's offset |
| CoilLoops.LastRowInLastLayer | src/magcoilcalc/core.py:177-191 | with at least two turns per layer, the table's last row is the last row of the outermost layer |
| CoilLoops.LastLoop | src/magcoilcalc/core.py:183-191 | with at least two turns per layer, the last loop sits at the span's end, lifted by layers - 1 thicknesses |
| CoilLoops.ExampleCoil | tests/test_currentloop.py:4-11 | the test coil (span [-50, 10], radius 10, 101 turns, 3 layers of thickness 1) has 101 loops, the last at radius 12 |
| CoilLoops.LoopsFieldAppend | src/magcoilcalc/core.py:201-215 | the field of two concatenated loop tables is the sum of their fields |
| CoilLoops.LoopTableShift | src/magcoilcalc/core.py:183-191 | moving a coil's span by d moves every row of its table by d |
| CoilLoops.CoilFieldTranslation | src/magcoilcalc/core.py:201-215 | a coil moved by d along the axis has, at x + d, the field the original has at x |
| MeshGeometry.MakeMesh | src/coilcalc/core.py:287-329 | Mesh(...) stores its arguments, and an x_range that is missing or not of length 2 raises ValueError |
| MeshGeometry.XStep | src/coilcalc/core.py:331-337 | x_step is (x_range[1] - x_range[0]) / (x_steps - 1), and x_steps == 1 raises ZeroDivisionError |
| MeshGeometry.YStep | src/coilcalc/core.py:339-345 | y_step is (y_range[1] - y_range[0]) / (y_steps - 1); a one-ended y_range raises IndexError and y_steps == 1 ZeroDivisionError |
| MeshGeometry.XLinspace | src/coilcalc/core.py:347-349 | x_linspace has x_steps samples from x_range[0] to x_range[1] |
| MeshGeometry.YLinspace | src/coilcalc/core.py:351-353 | y_linspace has y_steps samples, and a one-ended y_range raises IndexError |
| MeshGeometry.GetMatrix | src/coilcalc/core.py:298-305 | get_matrix gives y_steps x x_steps node matrices whose entry [i][j] is (x_linspace[j], y_linspace[i]); a one-ended y_range raises IndexError |
| MeshGeometry.PixelBounds | src/coilcalc/core.py:355-369 | pixel_bounds succeeds iff neither axis has exactly one step and y_range has two ends (a step count of 0 divides by -1 and succeeds), and then gives (y_steps + 1) x (x_steps + 1) matrices; their values are stated by PixelBoundsCentred, PixelBoundsCentredY, PixelBoundsRows and PixelBoundsColumns |
| MeshGeometry.XStepIsSpacing | src/coilcalc/core.py:331-349 | x_step is the spacing of consecutive x_linspace samples |
| MeshGeometry.PixelBoundsCentred | src/coilcalc/core.py:361-369 | the bounds run from x0 - x_step/2 to x1 + x_step/2, and each node lies midway between its two bounds |
| MeshGeometry.PixelBoundsRows | src/coilcalc/core.py:367-385 | every row of the x bound matrix holds the same x bounds |
| MeshGeometry.YStepIsSpacing | src/coilcalc/core.py:339-353 | y_step is the spacing of consecutive y_linspace samples |
| MeshGeometry.PixelBoundsCentredY | src/coilcalc/core.py:361-369 | the radial bounds run from y0 - y_step/2 to y1 + y_step/2, and each node row lies midway between its two bounds |
| MeshGeometry.PixelBoundsColumns | src/coilcalc/core.py:367-385 | every column of the y bound matrix holds the same radial bounds |
| MeshGeometry.ExampleMesh | tests/test_mesh.py:4-18 | [-50, 50] x [-20, 20] with 51 x 21 nodes has steps 2 and 2, 22 x 52 bound matrices, x bounds -51 .. 51 and y bounds -21 .. 21 |
| Slicing.Chunks | src/coilcalc/core.py:388-401 | _slice_list gives `processes` chunks; chunk c is entries[c w : (c + 1) w] with w = n // processes + 1 |
| Slicing.ChunksBounded | src/coilcalc/core.py:388-401 | no chunk is longer than n // processes + 1 |
| Slicing.ChunksPrefix | src/coilcalc/core.py:393-397 | the first k chunks joined are entries[:min(k w, n)] |
| Slicing.ChunksReachEnd | src/coilcalc/core.py:390-397 | processes * (n // processes + 1) >= n, so the last chunk reaches the end |
| Slicing.ChunksCover | src/coilcalc/core.py:388-401 | concatenated, the chunks are the list itself, so every item lands in exactly one chunk |
| Slicing.ChunksExample | src/coilcalc/core.py:388-401 | five entries over four processes give chunks of 2, 2, 1 and 0 entries |
| Slicing.SliceList | src/magcoilcalc/core.py:492-505 | zero processes raise ZeroDivisionError, a negative count gives no chunks, otherwise the loop builds exactly the chunks |
| MagSources.Length | src/magcoilcalc/core.py:338-340 | a sheet's length is the absolute difference of the x_span ends, never negative |
| MagSources.MembersFieldAppend | src/magcoilcalc/core.py:382-388 | the field of two concatenated member lists is the sum of their fields |
| MagSources.CollectionOfTwo | src/magcoilcalc/core.py:382-388 | a collection of two sources has the sum of the two fields |
| MagSources.MembersFieldSingle | src/magcoilcalc/core.py:382-388 | a one-member collection has that member's field |
| MagSources.SheetFieldTranslation | src/magcoilcalc/core.py:342-348 | a sheet moved by d along the axis has, at x + d, the original field at x |
| MagSources.SheetFieldAmpereTurns | src/magcoilcalc/core.py:342-348 | two sheets with the same nturns * current have the same field |
| MagSources.CopyOf | src/magcoilcalc/core.py:60-61 | __copy__ gives an equal coil, and for a sheet a one-layer coil over its span at radius[0] with its turns and current; never a sheet |
| MagSources.SheetCopyAmpereTurns | src/magcoilcalc/core.py:272-273 | the coil that a sheet's __copy__ makes has nturns loops at radius[0] carrying nturns * current in all |
| MagSources.CurrentLoop.constructor | src/magcoilcalc/core.py:32-58 | a new coil holds the given parameters and multiplier, nothing cached |
| MagSources.CurrentLoop.SetXSpan | src/magcoilcalc/core.py:80-87 | x_span is normalised and stored; a list clears the cache flag, a bare number leaves it as it was; nothing else changes |
| MagSources.CurrentLoop.SetRadius | src/magcoilcalc/core.py:93-100 | radius is normalised and stored; a list clears the cache flag, a bare number leaves it as it was; nothing else changes |
| MagSources.CurrentLoop.SetXSpanInvalidating | src/magcoilcalc/core.py:80-87 | corrected setter: every x_span clears the cache flag, so a set flag always means the cached table matches the parameters |
| MagSources.CurrentLoop.SetRadiusInvalidating | src/magcoilcalc/core.py:93-100 | corrected setter: every radius clears the cache flag, keeping the cache sound |
| MagSources.CurrentLoop.SetNTurns | src/magcoilcalc/core.py:122-128 | in any state, a stale cache included: a value below 1 raises ValueError and changes nothing; otherwise int(value) is stored and the flag cleared, which makes the cache sound |
| MagSources.CurrentLoop.SetCurrent | src/magcoilcalc/core.py:138-141 | the current is stored and the cache flag cleared |
| MagSources.CurrentLoop.SetLayers | src/magcoilcalc/core.py:147-155 | in any state: a fractional value raises TypeError, one below 1 ValueError (neither changes anything); otherwise it is stored and the flag cleared, which makes the cache sound |
| MagSources.CurrentLoop.SetLayerThickness | src/magcoilcalc/core.py:161-164 | the thickness is stored and the cache flag cleared |
| MagSources.CurrentLoop.SetCurrentMultiplier | src/magcoilcalc/core.py:170-173 | the multiplier is stored and the flag cleared; the six winding parameters are kept |
| MagSources.CurrentLoop.RecalculateLoopList | src/magcoilcalc/core.py:175-194 | the cached table becomes the loop table of the present parameters (nturns rows), and the flag is set |
| MagSources.CurrentLoop.GetLoopList | src/magcoilcalc/core.py:196-199 | with the flag set the cached table is returned unchanged; otherwise the table of the present parameters; from a sound cache, always the latter |
| MagSources.CurrentLoop.BField | src/magcoilcalc/core.py:201-215 | the sum of the loop fields over the returned table, which from a sound cache is the coil's field |
| MagSources.CurrentLoop.Copy | src/magcoilcalc/core.py:60-61 | the copy is a fresh coil with the same six parameters, multiplier 1 and nothing cached |
| MagSources.CurrentLoop.Eq | src/magcoilcalc/core.py:63-74 | two coils are equal iff the other object is a CurrentLoop with the same six parameters; the multiplier is not compared |
| MagSources.NewCurrentLoop | src/magcoilcalc/core.py:32-58 | construction fails with the first failing setter's error, and otherwise gives a fresh coil with those parameters and multiplier |
| MagSources.StaleCacheWitness | src/magcoilcalc/core.py:80-87 | a one-turn coil at x = 0 with its table fetched, given the scalar span 5, still returns the loop at x = 0, which is not the table of its parameters |
| MagSources.StaleCacheRepaired | src/magcoilcalc/core.py:122-128 | after the stale scalar span, an nturns assignment clears the flag, and the next table is the loop at x = 5 |
| MagSources.FreshCacheWitness | src/magcoilcalc/core.py:80-87 | with the corrected setter, the same steps return the loop at x = 5 |
| MagSources.OneTurnTable | src/magcoilcalc/core.py:180-191 | a one-turn, one-layer coil's table is the single row (x_span[0], radius[0], current) |
| MagSources.CurrentSheet.constructor | src/magcoilcalc/core.py:258-270 | a new sheet holds the given parameters and multiplier |
| MagSources.CurrentSheet.SetXSpan | src/magcoilcalc/core.py:279-285 | x_span is normalised and stored, and nothing else changes |
| MagSources.CurrentSheet.SetRadius | src/magcoilcalc/core.py:291-297 | the radius is normalised and stored, and nothing else changes |
| MagSources.CurrentSheet.SetNTurns | src/magcoilcalc/core.py:319-324 | a value below 1 raises ValueError and changes nothing; otherwise int(value) is stored |
| MagSources.CurrentSheet.SetCurrent | src/magcoilcalc/core.py:334-336 | the current is stored, and nothing else changes |
| MagSources.CurrentSheet.SheetLength | src/magcoilcalc/core.py:338-340 | length is the absolute difference of the x_span ends, never negative |
| MagSources.CurrentSheet.Copy | src/magcoilcalc/core.py:272-273 | __copy__ returns a fresh CurrentLoop, the copy of the sheet as a one-layer coil |
| MagSources.LeadingSources | src/magcoilcalc/core.py:375-380 | every item kept is a source, in the items' order, and there are no more of them than items |
| MagSources.LeadingSourcesAll | src/magcoilcalc/core.py:375-380 | all items are kept iff every item is a source |
| MagSources.LeadingSourcesAppend | src/magcoilcalc/core.py:375-380 | after a list of sources, the items kept from the rest follow on |
| MagSources.SourceCollection.constructor | src/magcoilcalc/core.py:363-366 | a new collection is empty |
| MagSources.SourceCollection.AddSource | src/magcoilcalc/core.py:371-373 | a source is appended; anything else fails the isinstance assertion and changes nothing |
| MagSources.SourceCollection.AddMany | src/magcoilcalc/core.py:375-378 | the items are appended in order up to the first non-source, which raises AssertionError; it passes iff all are sources |
| MagSources.SourceCollection.AddSources | src/magcoilcalc/core.py:375-380 | a single object goes to _add_source, a list item by item, with the same outcomes |
| MagSources.SourceCollection.Copy | src/magcoilcalc/core.py:368-369 | the copy is a collection over the same member list |
| MagSources.SourceCollection.BField | src/magcoilcalc/core.py:382-388 | the collection's field is the sum of its members' fields |
| MagSources.NewSourceCollection | src/magcoilcalc/core.py:363-366 | a new collection holds what add_sources on an empty one appends, with the same outcome |
| Solver.ChunkCoverage | src/magcoilcalc/core.py:657-664 | every node of the grid lies in exactly one chunk of the sliced node list |
| Solver.AddPointField | src/magcoilcalc/core.py:620-624 | adding a field at node (i, j) changes that entry alone, by that field |
| Solver.ProcessChunk | src/magcoilcalc/core.py:632-648 | a worker's grids are zero except at its chunk's nodes, which hold the field as many times as the chunk lists them |
| Solver.FoldChunks | src/magcoilcalc/core.py:671-673 | the workers' summed grids hold, at every node, the field times that node's number of occurrences in the chunks |
| Solver.CenterOf | src/magcoilcalc/core.py:682-685 | the centre field is the interpolated grids at (0, 0), or the interpolator's ValueError exactly when it cannot be built over the mesh's linspaces or (0, 0) is off them |
| Solver.CentreOnMeshIff | src/magcoilcalc/core.py:767-772 | over increasing axes of two or more nodes, the centre field exists exactly when x_range and y_range both contain 0 (bounds_error=True) |
| Solver.CentreOffMesh | src/magcoilcalc/core.py:682-685 | the mesh [10, 50] x [-20, 20] gives ValueError from the centre-field interpolation |
| MagTask.StackedTablesField | src/magcoilcalc/core.py:660 | the field of the stacked loop tables equals the sum of the sources' fields |
| MagTask.StackLoopTables | src/magcoilcalc/core.py:659-663 | stacking raises TypeError for a source without a loop table and ValueError for no sources; otherwise it gives the tables in order |
| MagTask.SolveSequential | src/magcoilcalc/core.py:611-624 | _run_sp's grids hold at every node the sum of the sources' fields |
| MagTask.SolveChunked | src/magcoilcalc/core.py:654-673 | _run_mp's grids hold the same field at every node as _run_sp's |
| MagTask.ChunkedNode | src/magcoilcalc/core.py:657-673 | at each node, the chunked reduction adds the sources' field exactly once |
| MagTask.Task.constructor | src/magcoilcalc/core.py:509-526 | a new task has no sources, no mesh and is not done |
| MagTask.Task.AddSource | src/magcoilcalc/core.py:528-534 | a source's copy is appended and done cleared; anything else raises TypeError and changes nothing |
| MagTask.Task.RemoveSource | src/magcoilcalc/core.py:536-545 | no index clears the list; an index pops that entry or raises IndexError; done and the grids are kept |
| MagTask.Task.SetMesh | src/magcoilcalc/core.py:547-557 | a Mesh is stored and done cleared; anything else raises TypeError and changes nothing |
| MagTask.Task.Finish | src/magcoilcalc/core.py:625-630 | the grids are stored and done is set; then the centre field is stored, or ValueError is raised when (0, 0) is off the mesh, leaving the previous centre field |
| MagTask.Task.RunSp | src/magcoilcalc/core.py:607-630 | done: no change; no mesh: AttributeError; a one-ended y_range: IndexError; otherwise done, holding the solved grids, and Pass with the centre field, or ValueError with the previous centre field when (0, 0) is off the mesh |
| MagTask.Task.RunMp | src/magcoilcalc/core.py:650-680 | as RunSp, plus TypeError for a non-loop source and ValueError for no sources, with the same solved grids and the same centre-field outcome |
| MagTask.Task.Run | src/magcoilcalc/core.py:559-574 | processes < 1 raises ValueError; 1, or no multiprocessing, runs _run_sp; otherwise _run_mp runs; a pass leaves the task done and solved; once the grids are solved, the outcome is Pass exactly when (0, 0) is on the mesh, and ValueError otherwise |
| MagTask.Task.XField | src/magcoilcalc/core.py:691-700 | x_field raises ValueError iff the task is not done |
| MagTask.Task.YField | src/magcoilcalc/core.py:702-711 | y_field raises ValueError iff the task is not done |
| MagTask.Task.CenterField | src/magcoilcalc/core.py:752-757 | center_field raises ValueError iff the task is not done |
| MagTask.Task.MeshOf | src/magcoilcalc/core.py:713-722 | mesh raises ValueError iff no mesh is set |
| MagTask.Task.XMesh | src/magcoilcalc/core.py:724-729 | ValueError without a mesh, otherwise the mesh's node x matrix |
| MagTask.Task.YMesh | src/magcoilcalc/core.py:731-736 | ValueError without a mesh, otherwise the mesh's node y matrix |
| MagTask.Task.XPixelBounds | src/magcoilcalc/core.py:738-743 | ValueError without a mesh, otherwise the mesh's x pixel bounds |
| MagTask.Task.YPixelBounds | src/magcoilcalc/core.py:745-750 | ValueError without a mesh, otherwise the mesh's y pixel bounds |
| MagTask.NewTask | src/magcoilcalc/core.py:509-526 | Task(sources, mesh) adds the sources before the first non-source, in order, and sets the mesh; a non-source or a non-mesh raises TypeError, and with only sources and a Mesh or no mesh it passes |
| CoilTask.LoopStackLength | src/coilcalc/core.py:512 | the stacked table has one row per turn of every coil |
| CoilTask.LoopKernels | src/coilcalc/core.py:486-494 | the mm-to-m conversion and the two kernels give the loop's field |
| CoilTask.CoilBField | src/coilcalc/core.py:157-173 | b_field sums the loop kernels over the coil's table |
| CoilTask.FlipRadial | src/coilcalc/core.py:495-498 | the solvers keep the axial part and negate the radial part when r < 0 |
| CoilTask.TermsAt | src/coilcalc/core.py:517-522 | the k-th vectorised kernel value is the k-th loop's field |
| CoilTask.VectorSums | src/coilcalc/core.py:521-523 | np.sum of the vectorised kernel values is the loop-by-loop sum |
| CoilTask.VectorFieldIsLegacy | src/coilcalc/core.py:512-527 | the vectorised point field equals the legacy point field |
| CoilTask.AddLoopsLegacy | src/coilcalc/core.py:485-498 | the innermost legacy loop adds the flipped field of one table at node (i, j) and nowhere else |
| CoilTask.AddCoilLegacy | src/coilcalc/core.py:483-498 | for one source, its rebuilt loop table's flipped field is added at node (i, j) and nowhere else |
| CoilTask.AddNodeLegacy | src/coilcalc/core.py:483-498 | at node (i, j), all the sources' flipped fields are added, and no other entry changes |
| CoilTask.SolveLegacyRow | src/coilcalc/core.py:482-498 | every node of row i, still zero, receives the legacy point field; the other rows are unchanged |
| CoilTask.SolveLegacy | src/coilcalc/core.py:478-498 | _run_sp_legacy's grids are the legacy point field at every node |
| CoilTask.StackLoopTables | src/coilcalc/core.py:512 | np.vstack raises ValueError for no coils and otherwise gives the tables in order |
| CoilTask.VectorGridsAreLegacy | src/coilcalc/core.py:505-527 | the vectorised grids equal the legacy grids |
| CoilTask.SolveSequential | src/coilcalc/core.py:509-527 | _run_sp's grids equal _run_sp_legacy's |
| CoilTask.ChunkedNode | src/coilcalc/core.py:563-575 | at each node, the chunked reduction adds the vectorised field exactly once |
| CoilTask.SolveChunked | src/coilcalc/core.py:560-575 | _run_mp's grids equal _run_sp_legacy's |
| CoilTask.LoopsRadialOdd | src/coilcalc/_off_axis_loop.py:60-78 | the summed radial kernel values are odd in r, and the axial ones even |
| CoilTask.LegacyRadialEvenInR | src/coilcalc/core.py:495-498 | as written, the stored field at (x, -y) equals the field at (x, y) |
| CoilTask.LegacyBelowAxis | src/coilcalc/core.py:524-527 | as written, the stored radial field is the negated kernel sum, and so differs from it wherever that sum is non-zero |
| CoilTask.CorrectedRadialOddInR | src/magcoilcalc/core.py:644-647 | the corrected field is odd in r radially and even axially, and above the axis it agrees with the as-written field |
| CoilTask.Task.constructor | src/coilcalc/core.py:404-422 | a new task has no sources, no mesh and is not done |
| CoilTask.Task.AddSource | src/coilcalc/core.py:424-429 | a CurrentLoop's copy is appended and done cleared; anything else raises TypeError and changes nothing |
| CoilTask.Task.RemoveSource | src/coilcalc/core.py:431-440 | no index clears the list; an index pops that entry or raises IndexError; done and the grids are kept |
| CoilTask.Task.SetMesh | src/coilcalc/core.py:442-452 | a Mesh is stored and done cleared; anything else raises TypeError and changes nothing |
| CoilTask.Task.Finish | src/coilcalc/core.py:499-503 | the grids are stored and done is set; then the centre field is stored, or ValueError is raised when (0, 0) is off the mesh, leaving the previous centre field |
| CoilTask.Task.RunSpLegacy | src/coilcalc/core.py:471-503 | done: no change; no mesh: AttributeError; a one-ended y_range: IndexError; otherwise done, holding the solved grids, and Pass with the centre field, or ValueError with the previous centre field when (0, 0) is off the mesh |
| CoilTask.Task.RunSp | src/coilcalc/core.py:505-533 | as RunSpLegacy, plus ValueError for no sources, with the same grids and the same centre-field outcome |
| CoilTask.Task.RunMp | src/coilcalc/core.py:556-582 | as RunSp, with the node list chunked among the workers, the same grids and the same centre-field outcome |
| CoilTask.Task.Run | src/coilcalc/core.py:454-469 | processes < 1 raises ValueError; 1, or no multiprocessing, runs _run_sp; otherwise _run_mp runs; with coils and a solvable mesh the grids are solved, and the outcome is Pass exactly when (0, 0) is on the mesh, ValueError otherwise |
| CoilTask.Task.XField | src/coilcalc/core.py:593-602 | x_field raises ValueError iff the task is not done |
| CoilTask.Task.YField | src/coilcalc/core.py:604-613 | y_field raises ValueError iff the task is not done |
| CoilTask.Task.CenterField | src/coilcalc/core.py:654-659 | center_field raises ValueError iff the task is not done |
| CoilTask.Task.MeshOf | src/coilcalc/core.py:615-624 | mesh raises ValueError iff no mesh is set |
| CoilTask.Task.XMesh | src/coilcalc/core.py:626-631 | ValueError without a mesh, otherwise the node x matrix |
| CoilTask.Task.YMesh | src/coilcalc/core.py:633-638 | ValueError without a mesh, otherwise the node y matrix |
| CoilTask.Task.XPixelBounds | src/coilcalc/core.py:640-645 | ValueError without a mesh, otherwise the x pixel bounds |
| CoilTask.Task.YPixelBounds | src/coilcalc/core.py:647-652 | ValueError without a mesh, otherwise the y pixel bounds |
| CoilTask.NewTask | src/coilcalc/core.py:404-422 | Task(sources, mesh) adds exactly the coils before the first non-coil, in order, and sets the mesh; a non-coil or a non-mesh raises TypeError, and with only coils and a Mesh or no mesh it passes |
| Calculations.SolvedViewConsistent | src/coilcalc/core.py:499-503 | a task that a solver left done has a two-ended y_range, grids of the mesh's shape and a centre field |
| Calculations.StencilLinear | src/coilcalc/calculations.py:20-21 | np.gradient of a sequence that rises by c per sample is c / h everywhere, at the one-sided ends as well |
| Calculations.GradientAxis0 | src/coilcalc/calculations.py:20 | np.gradient along axis 0 keeps the grid's shape and differentiates each column |
| Calculations.GradientAxis1 | src/coilcalc/calculations.py:21 | np.gradient along axis 1 keeps the grid's shape and differentiates each row |
| Calculations.NonZero | src/coilcalc/calculations.py:24-25 | y_mesh with its zeros replaced by 1 has no zero entry: a zero becomes 1 and every non-zero entry is kept |
| Calculations.GradientWith | src/coilcalc/calculations.py:13-37 | succeeds iff lat is "y" or "x", the task is done, both axes have at least two steps, and the mode is known; otherwise it gives each error as the code raises it |
| Calculations.FindGradient | src/coilcalc/calculations.py:4-37 | in the "xyt" mode, find_gradient succeeds iff lat is "y" or "x", the task is done and both axes have at least two steps |
| Calculations.FindGradientLegacy | coilcalc/calculations.py:4-22 | the older find_gradient: "xyt" fails (ValueError, or ZeroDivisionError from a one-step axis first), and every other mode gives what the newer one gives |
| Calculations.GradientEntries | src/coilcalc/calculations.py:22-34 | every gradient entry combines the two per-node differences as its mode says |
| Calculations.SingleAxisModes | src/coilcalc/calculations.py:31-34 | the "y" and "x" modes give the absolute difference along that axis, which is never negative |
| Calculations.PlaneEntry | src/coilcalc/calculations.py:29-30 | the "xy" entry is the non-negative root of dy^2 + dx^2 |
| Calculations.TangentialEntry | src/coilcalc/calculations.py:22-27 | the "xyt" entry is the non-negative root of dy^2 + dx^2 + t^2 |
| Calculations.TenthStep | src/coilcalc/calculations.py:20-21 | a lateral field rising by c from row to row gives dy = 10 c / y_step at every node, the ends included |
| Calculations.CellPoints | src/coilcalc/calculations.py:48-52 | the cell has x_steps * y_steps sample points, the flattened meshgrid of its linspaces |
| Calculations.Weights | src/coilcalc/calculations.py:54 | there is one weight per cell point |
| Calculations.WeightsSumToOne | src/coilcalc/calculations.py:54 | when some y is non-zero, the weights add up to 1 |
| Calculations.Score | src/coilcalc/calculations.py:57 | for a non-zero weighted sum s, the score is s / 0.0005 |
| Calculations.CellGradients | src/coilcalc/calculations.py:55-56 | one interpolated, normalised gradient per cell point |
| Calculations.FomWith | src/coilcalc/calculations.py:40-57 | ValueError when the task is not done or the mesh does not cover the cell; gradient errors propagate; a missing centre field raises TypeError; it succeeds exactly when the task is done, the mesh covers the cell, the gradient succeeds and a centre field is present, and then gives the weighted score (coilcalc/calculations.py:25-42 is the same) |
| Calculations.Fom | src/coilcalc/calculations.py:40-57 | fom over the task's own y-gradient in the "xyt" mode; ValueError until the task is done |
| Calculations.FomScore | src/coilcalc/calculations.py:54-57 | the score times 0.0005 is the weighted gradient sum, with weights that add up to 1 |
| Calculations.CoverageExample | tests/test_task.py:29-31 | the test's [-20, 20] x [-10, 10] mesh covers a 30 x 15 cell but not a 30 x 25 one |
| Calculations.SpecSamples | src/coilcalc/calculations.py:69 | np.linspace(*par) gives count samples from start to stop |
| Calculations.Scan2D | src/coilcalc/calculations.py:74-84 | the 2-D scan has len(ys) rows of len(xs) values |
| Calculations.Scan2DAt | src/coilcalc/calculations.py:80-82 | entry [i][j] of the 2-D scan is func(xs[j], ys[i]): row i follows y, column j follows x, as meshgrid(x, y) lays them out |
| Calculations.Scan3D | src/coilcalc/calculations.py:86-98 | the 3-D scan has shape (len(zs), len(ys), len(xs)) |
| Calculations.Scan3DAt | src/coilcalc/calculations.py:94-96 | entry [a][b][c] of the 3-D scan is func(xs[c], ys[b], zs[a]): the first axis follows z, the second y, the third x, as meshgrid(y, z, x) lays them out |
| Calculations.Cube | src/coilcalc/calculations.py:90 | meshgrid(y, z, x)'s outputs have shape (len(zs), len(ys), len(xs)); xg holds xs[c] and yg holds ys[b] at [a][b][c] |
| Calculations.ParameterScan | src/coilcalc/calculations.py:64-101 | no parameter: ValueError; x only: func over the x samples; x and y: the 2-D grid, x, y and z: the cube with xg and yg from meshgrid(y, z, x), each only with one process (NotImplementedError otherwise); other combinations: ValueError (coilcalc/calculations.py:49-86 is the same) |
| Calculations.ParameterScan2D | src/coilcalc/calculations.py:74-84 | entry [i][j] of the 2-D scan is func at the meshgrid point [i][j] |
| Calculations.ParameterScan3D | src/coilcalc/calculations.py:86-98 | entry [a][b][c] of the 3-D scan is func at the meshgrid point (a, b, c) |
| Templates.NineTurnCoil | src/coilcalc/templates.py:38-39 | each template coil has 9 turns in 3 layers over its span and radius |
| Templates.CompensatedSolenoid | src/coilcalc/templates.py:19-24 | the main coil over [-l/2, l/2] at radius d0/2, and two compensation coils at the ends, one wire diameter further out, running turns_comp wire diameters inward; the main coil's errors come first |
| Templates.CompensationMirrored | src/coilcalc/templates.py:20-23 | the two compensation coils mirror each other about x = 0 |
| Templates.HelmholtzCoil | src/coilcalc/templates.py:37-41 | two coils of width w centred at -r/2 and r/2, at radius r - t/2, 9 turns in 3 layers, each turn carrying current * turns / 9 |
| Templates.HelmholtzPair | src/coilcalc/templates.py:37-39 | the coils are r apart (the second is the first moved by r), and each carries current * turns ampere-turns |
| Templates.HelmholtzTranslation | src/coilcalc/templates.py:38-39 | the second coil's field is the first's moved by r |
| Templates.ThreeCoils | src/coilcalc/templates.py:59-65 | side coils centred at -h and h at r_side, and a centre coil at r_center, with currents scaled by turns / 9 |
| Templates.ThreeCoilsLayout | src/coilcalc/templates.py:59-63 | the centres are at -h, h and 0, the side coils are 2h apart, and each coil carries its full ampere-turns |
| Templates.MaxwellCoil | src/coilcalc/templates.py:68-69 | maxwell_coil builds nothing and returns None |

## Left out

- Elliptic integrals, square root and the sheet quadrature (`scipy.special.ellipk`/`ellipe`, `np.sqrt`, `_current_sheet.py`): these are uninterpreted parameters of `Numerics.Kernels`. Only the properties the code relies on are assumed of them: square root is a non-negative root, and division is exact.
- Floating point: values are exact reals. The NaN/inf that numpy gives on division by zero is modelled as the fixed value `singular`, and the substitute 1 for a zero y is kept.
- `scipy.interpolate.RegularGridInterpolator` (`make_gradient_interpolator`, the field interpolators): its values are the uninterpreted `interpolate` parameter and whether it raises ValueError is the uninterpreted `interpolationFails` parameter. `Numerics.BoundsChecked` states the bounds_error=True behaviour, and the centre-field lemmas assume it. The gradient interpolator's own out-of-bounds errors inside `fom_cylindrical_cell` are not modelled, because the covered-cell check comes first.
- `multiprocessing.Pool`: the workers run one after another in the model, and whether multiprocessing is available is a parameter. The summation order of the reduction is not modelled, because real addition is exact.
- `b_field_vec` broadcasting in the magcoilcalc `_run_sp` is modelled as the per-node sum it computes. The `AttributeError` fallback to `b_field` gives the same grids.
- The magcoilcalc `_run_sp_legacy` is not modelled. `run` never calls it, and it computes what the coilcalc legacy solver computes without the flip.
- The coilcalc `CurrentLoop` setters are modelled by the value-level `CoilLoops.MakeCoil`, because `add_source` stores a copy. Aliasing between a coil held by the caller and a task is not modelled.
- Aliasing of magcoilcalc `CurrentLoop` objects held by a `SourceCollection`: the collection holds references to the caller's objects, so a later setter call on a member, or a member's stale cache, is visible through the collection. The model's collection field is computed from the members' values at the time of the call, and the effect of a change made through another reference is not modelled.
- CoilLoops.Normalize: an indexable argument with fewer than two entries is excluded by `Extent.Indexable`. Python's `value[1]` raises IndexError for such a list, and the setter then stores the nested `[value, value]` (src/magcoilcalc/core.py:82-87). The nested list makes `start`/`end` arrays, which the numeric model of a coil cannot express.
- CoilLoops.MakeCoil: `layers` is a number whose Python type (int or float) is not tracked. A whole float such as 2.0 passes the setter and is stored as a float; `range(0, self.layers)` in `get_loop_list` then raises TypeError (src/coilcalc/core.py:146, src/magcoilcalc/core.py:183). The model stores it as the integer 2 and builds the table.
- MagSources.CurrentLoop.SetLayers: the same untracked int/float distinction as MakeCoil, so a whole float layers value yields a table in the model where Python's next `get_loop_list` raises TypeError.
- Calculations.SpecSamples: a scan specification always carries an explicit sample count. A two-element `parx` that relies on np.linspace's default of 50 samples (src/coilcalc/calculations.py:69) is not modelled; it is the same as the spec with count 50.
- The `Mesh` is a value, not a shared object: a mesh changed after `set_mesh` is not modelled.
- `run_task`, `run_sources_on_mesh`, `run_tasks`, plotting, `draw_source`, the `_signals` logger and timers: these are I/O or orchestration with no state of the core.
- `x_field_at`/`y_field_at` are modelled only through `Solver.CenterOf`'s interpolation parameter.
- The older `coilcalc/` package's own `Task` is not part of this model. Its `calculations.py` is modelled by `Calculations.FindGradientLegacy`, and its `fom` and `parameter_scan` are the same as the newer ones.
- The repository's example scripts are usage demonstrations, not library code.
- Templates: src/coilcalc/templates.py:1 imports `Magnet` from `coilcalc.core`, which defines no `Magnet`, so importing the module as written raises ImportError. The model reads `Magnet(x_span, radius, nturns, current, layers, layer_thickness)` as the `CurrentLoop` constructor with the same positional arguments (`CoilLoops.MakeCoil`).
- MeshGeometry.MakeMesh: `y_range` is a list of reals and the step counts are natural numbers. Python's Mesh stores any value, and its defaults are None. A None `y_range` makes `y_step` and `get_matrix` raise TypeError (src/coilcalc/core.py:304, 345-346). A None, negative or float step count makes np.linspace raise TypeError or ValueError (src/coilcalc/core.py:303-304). None of these values can be expressed in the model.
- MagSources.CurrentLoop.Eq: two coils whose x_span or radius arrays differ in length compare as false in the model. In Python, the elementwise `==` of arrays of different shapes (src/magcoilcalc/core.py:68-69) raises ValueError in current numpy, or gives a scalar False on which `all(...)` raises TypeError in older numpy. Either way it raises rather than returning False.
- Calculations.Fom: the gradient is evaluated by the uninterpreted interpolator, so the score is stated in terms of the interpolated values, not of the field.

## Findings

| source | as written | input that shows it | evidently intended | confidence | as-written member | corrected member |
|---|---|---|---|---|---|---|
| src/magcoilcalc/core.py:80-100 | a scalar x_span or radius is stored as [v, v] without clearing the loop-table cache flag | a CurrentLoop whose table was fetched, then x_span = 5: get_loop_list returns the table of the old span | every accepted x_span or radius clears the cache, as the list branch does | not executed | MagSources.StaleCacheWitness | MagSources.FreshCacheWitness |
| src/coilcalc/core.py:495-498 | the radial sum is negated for r < 0, on top of the sign(r) factor that field_radial already applies (_off_axis_loop.py:78), so the stored radial field is even in r | one loop at x = 0, radius 50, with nodes (10, 20) and (10, -20): both store the same radial value | the kernel sum stored as it is, odd in r, as src/magcoilcalc/core.py:646-647 stores it | not executed | CoilTask.LegacyRadialEvenInR | CoilTask.CorrectedRadialOddInR |
