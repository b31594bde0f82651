/*
 * Discretisation of a winding into elementary current loops, shared by
 * CurrentLoop in src/magcoilcalc/core.py and src/coilcalc/core.py.
 *
 * A coil winds nturns turns in layers layers between start = (x_span[0],
 * radius[0]) and end = (x_span[1], radius[1]). The turns are dealt out as
 * nturns // layers per layer, one more for each of the first nturns % layers
 * layers; layer i lays its turns evenly from start to end and lifts the
 * radius by i * layer_thickness. Every loop carries the coil current.
 */
module CoilLoops {
  import opened Common
  import opened Numerics
  import opened OffAxisLoop

  /** One elementary loop, a row [x, r, current] of the loop table (mm, mm, A). */
  datatype Row = Row(x: real, r: real, current: real)

  /** The parameters of a CurrentLoop after its setters have run. */
  datatype Coil = Coil(
    xSpan: seq<real>,
    radius: seq<real>,
    nturns: int,
    current: real,
    layers: int,
    layerThickness: real)
  {
    /** What the setters guarantee: two-ended span and radius, at least one turn and one layer. */
    predicate Valid()
    {
      |xSpan| >= 2 && |radius| >= 2 && nturns >= 1 && layers >= 1
    }
  }

  /**
   * The argument given to the x_span or radius setter: a bare number, or an
   * indexable value with at least two entries (of which the first two are used).
   */
  datatype Extent = Scalar(v: real) | Listed(items: seq<real>)
  {
    predicate Indexable() { Listed? ==> |items| >= 2 }
  }

  /** The setters' normalisation: a bare number v is stored as [v, v], a list as given. */
  function Normalize(e: Extent): (s: seq<real>)
    requires e.Indexable()
    ensures |s| >= 2
    ensures e.Scalar? ==> s == [e.v, e.v]
    ensures e.Listed? ==> s == e.items
  {
    match e
    case Scalar(v) => [v, v]
    case Listed(items) => items
  }

  /** int(value) for a value of at least 1 (truncation toward zero is the floor here). */
  function TruncatePositive(value: real): (n: int)
    requires value >= 1.0
    ensures n >= 1 && n as real <= value < n as real + 1.0
  {
    value.Floor
  }

  /**
   * CurrentLoop(x_span, radius, nturns, current, layers, layer_thickness): the
   * setters run in this order; nturns below 1 raises ValueError, a layers
   * value that is not a whole number raises TypeError, and one below 1 raises
   * ValueError. nturns is stored truncated to an int.
   */
  function MakeCoil(xSpan: Extent, radius: Extent, nturns: real, current: real, layers: real, layerThickness: real)
    : (res: Result<Coil>)
    requires xSpan.Indexable() && radius.Indexable()
    ensures nturns < 1.0 ==> res == Failure(ValueError)
    ensures nturns >= 1.0 && layers.Floor as real != layers ==> res == Failure(TypeError)
    ensures nturns >= 1.0 && layers.Floor as real == layers && layers < 1.0 ==> res == Failure(ValueError)
    ensures res.Success? <==> nturns >= 1.0 && layers.Floor as real == layers && layers >= 1.0
    ensures res.Success? ==>
      (res.value.Valid() && res.value.xSpan == Normalize(xSpan) && res.value.radius == Normalize(radius)
       && res.value.nturns == nturns.Floor && res.value.current == current
       && res.value.layers as real == layers && res.value.layerThickness == layerThickness)
  {
    if nturns < 1.0 then Failure(ValueError)
    else if layers.Floor as real != layers then Failure(TypeError)
    else if layers < 1.0 then Failure(ValueError)
    else Success(Coil(Normalize(xSpan), Normalize(radius), TruncatePositive(nturns), current, layers.Floor, layerThickness))
  }

  /** Turns in layer i: nturns // layers, plus one for the first nturns % layers layers. */
  function TurnsInLayer(nturns: nat, layers: nat, i: nat): nat
    requires layers >= 1
  {
    nturns / layers + (if i < nturns % layers then 1 else 0)
  }

  /** Turns in layers 0 .. k-1, summed layer by layer. */
  function TurnsBefore(nturns: nat, layers: nat, k: nat): nat
    requires layers >= 1
  {
    if k == 0 then 0 else TurnsBefore(nturns, layers, k - 1) + TurnsInLayer(nturns, layers, k - 1)
  }

  function Min(a: int, b: int): int { if a <= b then a else b }

  /** Closed form of the running total: k * (nturns // layers) + min(k, nturns % layers). */
  lemma {:induction false} TurnsBeforeClosedForm(nturns: nat, layers: nat, k: nat)
    requires layers >= 1
    ensures TurnsBefore(nturns, layers, k) == k * (nturns / layers) + Min(k, nturns % layers)
  {
    if k > 0 {
      TurnsBeforeClosedForm(nturns, layers, k - 1);
      assert k * (nturns / layers) == (k - 1) * (nturns / layers) + nturns / layers;
    }
  }

  /** The layers together hold exactly nturns turns. */
  lemma TurnsPartition(nturns: nat, layers: nat)
    requires layers >= 1
    ensures TurnsBefore(nturns, layers, layers) == nturns
  {
    TurnsBeforeClosedForm(nturns, layers, layers);
  }

  /** Layer sizes differ by at most one and never increase from the first layer outward. */
  lemma TurnsBalanced(nturns: nat, layers: nat, i: nat, j: nat)
    requires layers >= 1 && i <= j
    ensures TurnsInLayer(nturns, layers, j) <= TurnsInLayer(nturns, layers, i) <= TurnsInLayer(nturns, layers, j) + 1
    ensures nturns / layers <= TurnsInLayer(nturns, layers, i) <= nturns / layers + 1
  {
  }

  /** The loops of layer i of a valid coil. */
  function LayerRows(c: Coil, i: nat): (rows: seq<Row>)
    requires c.Valid()
    ensures |rows| == TurnsInLayer(c.nturns, c.layers, i)
  {
    var t := TurnsInLayer(c.nturns, c.layers, i);
    var xs := Linspace(c.xSpan[0], c.xSpan[1], t);
    var ys := Linspace(c.radius[0], c.radius[1], t);
    seq(t, k requires 0 <= k < t => Row(xs[k], ys[k] + (i as real) * c.layerThickness, c.current))
  }

  /** The layer blocks 0 .. k-1, in order. */
  function LayerBlocks(c: Coil, k: nat): (blocks: seq<seq<Row>>)
    requires c.Valid()
    ensures |blocks| == k
  {
    seq(k, i requires 0 <= i < k => LayerRows(c, i))
  }

  /** The loop table: all layer blocks stacked (np.vstack(coil_layers)). */
  function LoopTable(c: Coil): seq<Row>
    requires c.Valid()
  {
    Flatten(LayerBlocks(c, c.layers))
  }

  lemma LayerBlocksPrefix(c: Coil, k: nat)
    requires c.Valid() && k > 0
    ensures LayerBlocks(c, k)[..k - 1] == LayerBlocks(c, k - 1)
    ensures LayerBlocks(c, k)[k - 1] == LayerRows(c, k - 1)
  {
  }

  lemma LayerBlocksStep(c: Coil, k: nat)
    requires c.Valid()
    ensures LayerBlocks(c, k) + [LayerRows(c, k)] == LayerBlocks(c, k + 1)
  {
    LayerBlocksPrefix(c, k + 1);
  }

  /** The first k layers stack up to TurnsBefore(k) rows. */
  lemma {:induction false} StackedLength(c: Coil, k: nat)
    requires c.Valid()
    ensures |Flatten(LayerBlocks(c, k))| == TurnsBefore(c.nturns, c.layers, k)
  {
    if k > 0 {
      StackedLength(c, k - 1);
      LayerBlocksPrefix(c, k);
    }
  }

  /** Row j of layer i sits at index TurnsBefore(i) + j of any stack holding more than i layers. */
  lemma StackedRow(c: Coil, k: nat, i: nat, j: nat, n: nat)
    requires c.Valid() && i < k && j < |LayerRows(c, i)| && n == |Flatten(LayerBlocks(c, i))| + j
    ensures n < |Flatten(LayerBlocks(c, k))| && Flatten(LayerBlocks(c, k))[n] == LayerRows(c, i)[j]
  {
    LayerBlocksTake(c, k, i);
    FlattenIndex(LayerBlocks(c, k), i, j);
  }

  lemma LayerBlocksTake(c: Coil, k: nat, i: nat)
    requires c.Valid() && i <= k
    ensures LayerBlocks(c, k)[..i] == LayerBlocks(c, i)
  {
  }

  lemma {:induction false} TurnsBeforeMonotone(nturns: nat, layers: nat, i: nat, k: nat)
    requires layers >= 1 && i <= k
    ensures TurnsBefore(nturns, layers, i) <= TurnsBefore(nturns, layers, k)
  {
    if i < k {
      TurnsBeforeMonotone(nturns, layers, i, k - 1);
    }
  }

  /** The loop table of a valid coil has exactly nturns rows. */
  lemma LoopTableLength(c: Coil)
    requires c.Valid()
    ensures |LoopTable(c)| == c.nturns
  {
    StackedLength(c, c.layers);
    TurnsPartition(c.nturns, c.layers);
  }

  /**
   * Row j of layer i: its axial position and radius are the j-th of the
   * linspace samples from start to end (as many as the layer has turns), the
   * radius lifted by i layers, and it carries the coil current.
   */
  lemma LoopTableRow(c: Coil, i: nat, j: nat)
    requires c.Valid() && i < c.layers && j < TurnsInLayer(c.nturns, c.layers, i)
    ensures var t := TurnsInLayer(c.nturns, c.layers, i);
      TurnsBefore(c.nturns, c.layers, i) + j < |LoopTable(c)| &&
      LoopTable(c)[TurnsBefore(c.nturns, c.layers, i) + j] ==
        Row(Linspace(c.xSpan[0], c.xSpan[1], t)[j],
            Linspace(c.radius[0], c.radius[1], t)[j] + (i as real) * c.layerThickness,
            c.current)
  {
    LoopTableIndex(c, i, j);
    LayerRowAt(c, i, j);
  }

  /** Row j of layer i sits at index TurnsBefore(i) + j of the loop table. */
  lemma LoopTableIndex(c: Coil, i: nat, j: nat)
    requires c.Valid() && i < c.layers && j < |LayerRows(c, i)|
    ensures TurnsBefore(c.nturns, c.layers, i) + j < |LoopTable(c)|
    ensures LoopTable(c)[TurnsBefore(c.nturns, c.layers, i) + j] == LayerRows(c, i)[j]
  {
    var n := TurnsBefore(c.nturns, c.layers, i) + j;
    assert n == |Flatten(LayerBlocks(c, i))| + j by { StackedLength(c, i); }
    StackedTableRow(c, i, j, n);
  }

  lemma StackedTableRow(c: Coil, i: nat, j: nat, n: nat)
    requires c.Valid() && i < c.layers && j < |LayerRows(c, i)| && n == |Flatten(LayerBlocks(c, i))| + j
    ensures n < |LoopTable(c)| && LoopTable(c)[n] == LayerRows(c, i)[j]
  {
    StackedRow(c, c.layers, i, j, n);
  }

  lemma LayerRowAt(c: Coil, i: nat, j: nat)
    requires c.Valid() && j < TurnsInLayer(c.nturns, c.layers, i)
    ensures var t := TurnsInLayer(c.nturns, c.layers, i);
      LayerRows(c, i)[j] ==
        Row(Linspace(c.xSpan[0], c.xSpan[1], t)[j],
            Linspace(c.radius[0], c.radius[1], t)[j] + (i as real) * c.layerThickness,
            c.current)
  {
  }

  /** Every stacked row carries the coil current. */
  lemma {:induction false} StackedCurrents(c: Coil, k: nat)
    requires c.Valid()
    ensures forall n :: 0 <= n < |Flatten(LayerBlocks(c, k))| ==> Flatten(LayerBlocks(c, k))[n].current == c.current
  {
    if k > 0 {
      StackedCurrents(c, k - 1);
      LayerBlocksPrefix(c, k);
    }
  }

  /** The current column is the coil current on every row (the multiplier plays no part). */
  lemma LoopTableCurrents(c: Coil)
    requires c.Valid()
    ensures forall n :: 0 <= n < |LoopTable(c)| ==> LoopTable(c)[n].current == c.current
  {
    StackedCurrents(c, c.layers);
  }

  /**
   * The loop that builds the table: for each layer, np.linspace the axial
   * positions and radii over that layer's turn count, lift the radii by
   * i * layer_thickness, pair them with the current, and stack the layers.
   */
  method BuildLoopTable(c: Coil) returns (table: seq<Row>)
    requires c.Valid()
    ensures table == LoopTable(c)
    ensures |table| == c.nturns
  {
    var turnsPerLayer := c.nturns / c.layers;
    var extraTurnLayers := c.nturns % c.layers;
    var coilLayers: seq<seq<Row>> := [];
    for i := 0 to c.layers
      invariant coilLayers == LayerBlocks(c, i)
    {
      var turns: nat;
      if i < extraTurnLayers {
        turns := turnsPerLayer + 1;
      } else {
        turns := turnsPerLayer;
      }
      var x := Linspace(c.xSpan[0], c.xSpan[1], turns);
      var y := Linspace(c.radius[0], c.radius[1], turns);
      var thisLayer := seq(turns, k requires 0 <= k < turns => Row(x[k], y[k] + (i as real) * c.layerThickness, c.current));
      assert turns == TurnsInLayer(c.nturns, c.layers, i);
      forall k | 0 <= k < turns
        ensures thisLayer[k] == LayerRows(c, i)[k]
      {
        LayerRowAt(c, i, k);
      }
      assert thisLayer == LayerRows(c, i);
      LayerBlocksStep(c, i);
      coilLayers := coilLayers + [thisLayer];
    }
    table := Flatten(coilLayers);
    LoopTableLength(c);
  }

  /** Sum of the current column. */
  function TotalCurrent(rows: seq<Row>): real
  {
    if rows == [] then 0.0 else TotalCurrent(rows[..|rows| - 1]) + rows[|rows| - 1].current
  }

  lemma {:induction false} TotalCurrentUniform(rows: seq<Row>, i: real)
    requires forall n :: 0 <= n < |rows| ==> rows[n].current == i
    ensures TotalCurrent(rows) == (|rows| as real) * i
  {
    if rows != [] {
      TotalCurrentUniform(rows[..|rows| - 1], i);
    }
  }

  /** The loops carry nturns * current ampere-turns in all. */
  lemma AmpereTurns(c: Coil)
    requires c.Valid()
    ensures TotalCurrent(LoopTable(c)) == (c.nturns as real) * c.current
  {
    LoopTableLength(c);
    LoopTableCurrents(c);
    TotalCurrentUniform(LoopTable(c), c.current);
  }

  /**
   * When every layer holds at least two turns, the last loop of the table
   * sits at the end point lifted by layers - 1 layer thicknesses.
   */
  lemma LastLoop(c: Coil)
    requires c.Valid() && c.nturns >= 2 * c.layers
    ensures |LoopTable(c)| == c.nturns
    ensures LoopTable(c)[c.nturns - 1] ==
      Row(c.xSpan[1], c.radius[1] + ((c.layers - 1) as real) * c.layerThickness, c.current)
  {
    LoopTableLength(c);
    LastRowInLastLayer(c);
    LayerEndRow(c, c.layers - 1);
  }

  /** The last row of the table is the last row of the outermost layer, which holds at least two. */
  lemma LastRowInLastLayer(c: Coil)
    requires c.Valid() && c.nturns >= 2 * c.layers
    ensures |LayerRows(c, c.layers - 1)| >= 2
    ensures c.nturns - 1 < |LoopTable(c)|
    ensures LoopTable(c)[c.nturns - 1] == LayerRows(c, c.layers - 1)[|LayerRows(c, c.layers - 1)| - 1]
  {
    var L := c.layers;
    var t := TurnsInLayer(c.nturns, L, L - 1);
    LastLayerIndex(c.nturns, L);
    LoopTableIndex(c, L - 1, t - 1);
  }

  /** A layer of two or more turns ends at the end point, lifted by its own layer offset. */
  lemma LayerEndRow(c: Coil, i: nat)
    requires c.Valid() && |LayerRows(c, i)| >= 2
    ensures LayerRows(c, i)[|LayerRows(c, i)| - 1] ==
      Row(c.xSpan[1], c.radius[1] + (i as real) * c.layerThickness, c.current)
  {
    var t := TurnsInLayer(c.nturns, c.layers, i);
    var x, r := Linspace(c.xSpan[0], c.xSpan[1], t)[t - 1], Linspace(c.radius[0], c.radius[1], t)[t - 1];
    assert LayerRows(c, i)[t - 1] == Row(x, r + (i as real) * c.layerThickness, c.current) by {
      LayerRowAt(c, i, t - 1);
    }
    assert x == c.xSpan[1] by { LinspaceLast(c.xSpan[0], c.xSpan[1], t); }
    assert r == c.radius[1] by { LinspaceLast(c.radius[0], c.radius[1], t); }
  }

  /** With at least two turns per layer, the last turn is the last of the outermost layer's two or more. */
  lemma LastLayerIndex(nturns: nat, layers: nat)
    requires layers >= 1 && nturns >= 2 * layers
    ensures TurnsInLayer(nturns, layers, layers - 1) >= 2
    ensures TurnsBefore(nturns, layers, layers - 1) + TurnsInLayer(nturns, layers, layers - 1) - 1 == nturns - 1
  {
    QuotientAtLeastTwo(nturns, layers);
    TurnsPartition(nturns, layers);
  }

  lemma QuotientAtLeastTwo(n: nat, d: nat)
    requires d >= 1 && n >= 2 * d
    ensures n / d >= 2
  {
    var q, m := n / d, n % d;
    assert q * d + m == n && m < d;
  }

  /**
   * The worked example of the CurrentLoop tests: span [-50, 10], radius 10,
   * 101 turns, 2 A, 3 layers of thickness 1 give 101 loops, the last at radius 12.
   */
  lemma ExampleCoil()
    ensures var c := Coil([-50.0, 10.0], [10.0, 10.0], 101, 2.0, 3, 1.0);
      c.Valid() && |LoopTable(c)| == 101 && LoopTable(c)[100].r == 12.0
  {
    var c := Coil([-50.0, 10.0], [10.0, 10.0], 101, 2.0, 3, 1.0);
    LastLoop(c);
  }

  /** Field of one loop at (xp, yp) in mm: the kernel is called in metres. */
  function LoopField(num: Kernels, row: Row, xp: real, yp: real): Field
  {
    var a, x, r := row.r / 1000.0, (xp - row.x) / 1000.0, yp / 1000.0;
    Field(FieldAxial(num, row.current, a, x, r), FieldRadial(num, row.current, a, x, r))
  }

  /** Field of a list of loops: the componentwise sum of the per-loop fields. */
  function LoopsField(num: Kernels, rows: seq<Row>, xp: real, yp: real): Field
  {
    if rows == [] then Zero else LoopsField(num, rows[..|rows| - 1], xp, yp).Plus(LoopField(num, rows[|rows| - 1], xp, yp))
  }

  lemma PlusAssociative(f: Field, g: Field, h: Field)
    ensures f.Plus(g).Plus(h) == f.Plus(g.Plus(h))
  {
  }

  /** Summing over stacked tables is summing the sums. */
  lemma {:induction false} LoopsFieldAppend(num: Kernels, s: seq<Row>, t: seq<Row>, xp: real, yp: real)
    ensures LoopsField(num, s + t, xp, yp) == LoopsField(num, s, xp, yp).Plus(LoopsField(num, t, xp, yp))
  {
    if t == [] {
      assert s + t == s;
    } else {
      var n := |t|;
      var init, last := t[..n - 1], t[n - 1];
      assert (s + t)[..|s + t| - 1] == s + init;
      assert (s + t)[|s + t| - 1] == last;
      LoopsFieldAppend(num, s, init, xp, yp);
      PlusAssociative(LoopsField(num, s, xp, yp), LoopsField(num, init, xp, yp), LoopField(num, last, xp, yp));
    }
  }

  /** The field of a coil: the sum over its loop table. */
  function CoilField(num: Kernels, c: Coil, xp: real, yp: real): Field
    requires c.Valid()
  {
    LoopsField(num, LoopTable(c), xp, yp)
  }

  /** A coil moved along the axis by d. */
  function Shifted(c: Coil, d: real): (s: Coil)
    requires c.Valid()
    ensures s.Valid()
  {
    c.(xSpan := [c.xSpan[0] + d, c.xSpan[1] + d] + c.xSpan[2..])
  }

  /** Every loop moved along the axis by d. */
  function ShiftRows(rows: seq<Row>, d: real): (s: seq<Row>)
    ensures |s| == |rows|
  {
    seq(|rows|, k requires 0 <= k < |rows| => rows[k].(x := rows[k].x + d))
  }

  lemma {:induction false} ShiftFlatten(blocks: seq<seq<Row>>, d: real)
    ensures Flatten(seq(|blocks|, i requires 0 <= i < |blocks| => ShiftRows(blocks[i], d))) == ShiftRows(Flatten(blocks), d)
  {
    if blocks != [] {
      var n := |blocks|;
      var shifted := seq(n, i requires 0 <= i < n => ShiftRows(blocks[i], d));
      var prefix := blocks[..n - 1];
      ShiftFlatten(prefix, d);
      assert shifted[..n - 1] == seq(n - 1, i requires 0 <= i < n - 1 => ShiftRows(prefix[i], d));
    }
  }

  /** The loop table of a shifted coil is the shifted loop table. */
  lemma LoopTableShift(c: Coil, d: real)
    requires c.Valid()
    ensures LoopTable(Shifted(c, d)) == ShiftRows(LoopTable(c), d)
  {
    var s := Shifted(c, d);
    var blocks := LayerBlocks(c, c.layers);
    forall i | 0 <= i < c.layers
      ensures LayerRows(s, i) == ShiftRows(LayerRows(c, i), d)
    {
      var t := TurnsInLayer(c.nturns, c.layers, i);
      forall k | 0 <= k < t
        ensures LayerRows(s, i)[k] == ShiftRows(LayerRows(c, i), d)[k]
      {
        LinspaceShift(c.xSpan[0], c.xSpan[1], d, t, k);
      }
    }
    assert LayerBlocks(s, s.layers) == seq(|blocks|, i requires 0 <= i < |blocks| => ShiftRows(blocks[i], d));
    ShiftFlatten(blocks, d);
  }

  lemma {:induction false} ShiftedRowsField(num: Kernels, rows: seq<Row>, d: real, xp: real, yp: real)
    ensures LoopsField(num, ShiftRows(rows, d), xp + d, yp) == LoopsField(num, rows, xp, yp)
  {
    if rows != [] {
      var n, shifted := |rows|, ShiftRows(rows, d);
      assert shifted[..n - 1] == ShiftRows(rows[..n - 1], d);
      ShiftedRowsField(num, rows[..n - 1], d, xp, yp);
      assert shifted[n - 1] == rows[n - 1].(x := rows[n - 1].x + d);
      ShiftedLoopField(num, rows[n - 1], d, xp, yp);
    }
  }

  /** One loop moved along the axis by d produces at (xp + d, yp) what it produced at (xp, yp). */
  lemma ShiftedLoopField(num: Kernels, row: Row, d: real, xp: real, yp: real)
    ensures LoopField(num, row.(x := row.x + d), xp + d, yp) == LoopField(num, row, xp, yp)
  {
    assert ((xp + d) - (row.x + d)) / 1000.0 == (xp - row.x) / 1000.0;
  }

  /**
   * Translation invariance: a coil moved along the axis by d produces at
   * (xp + d, yp) the field the original produces at (xp, yp).
   */
  lemma CoilFieldTranslation(num: Kernels, c: Coil, d: real, xp: real, yp: real)
    requires c.Valid()
    ensures CoilField(num, Shifted(c, d), xp + d, yp) == CoilField(num, c, xp, yp)
  {
    LoopTableShift(c, d);
    ShiftedRowsField(num, LoopTable(c), d, xp, yp);
  }
}
