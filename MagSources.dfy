/*
 * The field sources of src/magcoilcalc/core.py: CurrentLoop (a winding
 * discretised into loops, with a cached loop table), CurrentSheet (a thin
 * solenoid evaluated by the opaque sheet kernel) and SourceCollection (a
 * list of sources whose field is the sum of theirs).
 *
 * A source's value (datatype Source) is what a Task keeps: Task stores the
 * __copy__ of every source it is given. The classes model the objects a
 * user mutates through their setters.
 */
module MagSources {
  import opened Common
  import opened Numerics
  import opened CoilLoops

  /** The parameters of a CurrentSheet (its current_multiplier plays no part in any result). */
  datatype Sheet = Sheet(xSpan: seq<real>, radius: seq<real>, nturns: int, current: real)
  {
    predicate Valid() { |xSpan| >= 2 && |radius| >= 2 && nturns >= 1 }
  }

  /** A source as a value: a loop coil, a current sheet, or a collection of sources. */
  datatype Source = Loop(coil: Coil) | SheetSource(sheet: Sheet) | Collection(members: seq<Source>)

  /** Every loop and sheet reachable from the source has the parameters its setters guarantee. */
  predicate ValidSource(s: Source)
    decreases s, 1
  {
    match s
    case Loop(c) => c.Valid()
    case SheetSource(sh) => sh.Valid()
    case Collection(ms) => ValidMembers(ms)
  }

  predicate ValidMembers(ms: seq<Source>)
    decreases ms, 0
  {
    ms == [] || (ValidMembers(ms[..|ms| - 1]) && ValidSource(ms[|ms| - 1]))
  }

  lemma {:induction false} ValidMembersPrefix(ms: seq<Source>, k: nat)
    requires ValidMembers(ms) && k <= |ms|
    ensures ValidMembers(ms[..k]) && (k < |ms| ==> ValidSource(ms[k]))
    decreases |ms|
  {
    if k < |ms| {
      var n := |ms| - 1;
      assert ms[..n][..k] == ms[..k];
      if k < n {
        ValidMembersPrefix(ms[..n], k);
        assert ms[..n][k] == ms[k];
      }
    } else {
      assert ms[..k] == ms;
    }
  }

  lemma {:induction false} ValidMembersSuffix(ms: seq<Source>, k: nat)
    requires ValidMembers(ms) && k <= |ms|
    ensures ValidMembers(ms[k..])
    decreases |ms|
  {
    if k < |ms| {
      var n := |ms| - 1;
      ValidMembersSuffix(ms[..n], k);
      assert ms[k..][..|ms[k..]| - 1] == ms[..n][k..];
    } else {
      assert ms[k..] == [];
    }
  }

  lemma {:induction false} ValidMembersAppend(ms: seq<Source>, ns: seq<Source>)
    requires ValidMembers(ms) && ValidMembers(ns)
    ensures ValidMembers(ms + ns)
  {
    if ns == [] {
      assert ms + ns == ms;
    } else {
      assert (ms + ns)[..|ms + ns| - 1] == ms + ns[..|ns| - 1];
      ValidMembersAppend(ms, ns[..|ns| - 1]);
    }
  }

  /** np.mean of a non-empty sequence. */
  function Mean(s: seq<real>): real
    requires |s| >= 1
  {
    Sum(s) / (|s| as real)
  }

  /** CurrentSheet.length: the absolute axial extent |x_span[1] - x_span[0]|. */
  function Length(sh: Sheet): (l: real)
    requires sh.Valid()
    ensures l >= 0.0
    ensures l == sh.xSpan[1] - sh.xSpan[0] || l == sh.xSpan[0] - sh.xSpan[1]
  {
    Abs(sh.xSpan[1] - sh.xSpan[0])
  }

  /** The total current of the sheet, current * nturns. */
  function TotalSheetCurrent(sh: Sheet): real
  {
    sh.current * (sh.nturns as real)
  }

  /**
   * CurrentSheet.b_field: the sheet kernel with the total current
   * current * nturns, radius[0], the length, and the axial offset from the
   * mean of x_span.
   */
  function SheetField(num: Kernels, sh: Sheet, xp: real, yp: real): Field
    requires sh.Valid()
  {
    var x := xp - Mean(sh.xSpan);
    var itot := TotalSheetCurrent(sh);
    Field(num.sheetAxial(itot, sh.radius[0], Length(sh), x, yp), num.sheetRadial(itot, sh.radius[0], Length(sh), x, yp))
  }

  /** The field of a source at (xp, yp): b_field of a loop, a sheet or a collection. */
  function SourceField(num: Kernels, s: Source, xp: real, yp: real): Field
    requires ValidSource(s)
    decreases s, 1
  {
    match s
    case Loop(c) => CoilField(num, c, xp, yp)
    case SheetSource(sh) => SheetField(num, sh, xp, yp)
    case Collection(ms) => MembersField(num, ms, xp, yp)
  }

  /** SourceCollection.b_field: starting from 0, add each member's field in turn. */
  function MembersField(num: Kernels, ms: seq<Source>, xp: real, yp: real): Field
    requires ValidMembers(ms)
    decreases ms, 0
  {
    if ms == [] then Zero
    else MembersField(num, ms[..|ms| - 1], xp, yp).Plus(SourceField(num, ms[|ms| - 1], xp, yp))
  }

  lemma {:induction false} MembersFieldAppend(num: Kernels, ms: seq<Source>, ns: seq<Source>, xp: real, yp: real)
    requires ValidMembers(ms) && ValidMembers(ns)
    ensures ValidMembers(ms + ns)
    ensures MembersField(num, ms + ns, xp, yp) == MembersField(num, ms, xp, yp).Plus(MembersField(num, ns, xp, yp))
  {
    if ns != [] {
      var n := |ns|;
      assert (ms + ns)[..|ms + ns| - 1] == ms + ns[..n - 1];
      assert (ms + ns)[|ms + ns| - 1] == ns[n - 1];
      ValidMembersAppend(ms, ns);
      MembersFieldAppend(num, ms, ns[..n - 1], xp, yp);
      PlusAssociative(MembersField(num, ms, xp, yp), MembersField(num, ns[..n - 1], xp, yp), SourceField(num, ns[n - 1], xp, yp));
    } else {
      assert ms + ns == ms;
    }
  }

  /** A collection of two sources gives the sum of their two fields. */
  lemma CollectionOfTwo(num: Kernels, s1: Source, s2: Source, xp: real, yp: real)
    requires ValidSource(s1) && ValidSource(s2)
    ensures ValidSource(Collection([s1, s2]))
    ensures SourceField(num, Collection([s1, s2]), xp, yp) == SourceField(num, s1, xp, yp).Plus(SourceField(num, s2, xp, yp))
  {
    var pair := [s1, s2];
    assert pair[..1] == [s1];
    MembersFieldSingle(num, s1, xp, yp);
    assert ValidMembers(pair);
    assert MembersField(num, pair, xp, yp) == SourceField(num, s1, xp, yp).Plus(SourceField(num, s2, xp, yp));
  }

  lemma MembersFieldSingle(num: Kernels, s: Source, xp: real, yp: real)
    requires ValidSource(s)
    ensures ValidMembers([s]) && MembersField(num, [s], xp, yp) == SourceField(num, s, xp, yp)
  {
    assert [s][..0] == [];
  }

  /** Every entry of s moved by d. */
  function ShiftAll(s: seq<real>, d: real): (t: seq<real>)
    ensures |t| == |s| && forall k :: 0 <= k < |s| ==> t[k] == s[k] + d
  {
    seq(|s|, k requires 0 <= k < |s| => s[k] + d)
  }

  lemma {:induction false} SumShift(s: seq<real>, d: real)
    ensures Sum(ShiftAll(s, d)) == Sum(s) + (|s| as real) * d
  {
    if s != [] {
      var n := |s|;
      assert ShiftAll(s, d)[..n - 1] == ShiftAll(s[..n - 1], d);
      SumShift(s[..n - 1], d);
    }
  }

  lemma MeanShift(total: real, n: real, d: real)
    requires n >= 2.0
    ensures (total + n * d) / n == total / n + d
  {
    var q := total / n;
    assert q * n == total;
    assert (q + d) * n == q * n + d * n;
  }

  /** Moving a sheet along the axis by d moves its field with it. */
  lemma SheetFieldTranslation(num: Kernels, sh: Sheet, d: real, xp: real, yp: real)
    requires sh.Valid()
    ensures var moved := sh.(xSpan := ShiftAll(sh.xSpan, d));
      moved.Valid() && SheetField(num, moved, xp + d, yp) == SheetField(num, sh, xp, yp)
  {
    var moved := sh.(xSpan := ShiftAll(sh.xSpan, d));
    SumShift(sh.xSpan, d);
    var n := |sh.xSpan| as real;
    var total := Sum(sh.xSpan);
    assert moved.xSpan == ShiftAll(sh.xSpan, d);
    assert Sum(moved.xSpan) == total + n * d;
    assert (|moved.xSpan| as real) == n;
    assert Mean(moved.xSpan) == (total + n * d) / n;
    MeanShift(total, n, d);
    assert Length(moved) == Length(sh);
    assert (xp + d) - Mean(moved.xSpan) == xp - Mean(sh.xSpan);
    assert TotalSheetCurrent(moved) == TotalSheetCurrent(sh);
    var x := xp - Mean(sh.xSpan);
    assert SheetField(num, sh, xp, yp).axial == num.sheetAxial(TotalSheetCurrent(sh), sh.radius[0], Length(sh), x, yp);
    assert SheetField(num, moved, xp + d, yp).axial == num.sheetAxial(TotalSheetCurrent(sh), sh.radius[0], Length(sh), x, yp);
  }

  /** A sheet's field depends on its current and turn count only through current * nturns. */
  lemma SheetFieldAmpereTurns(num: Kernels, sh: Sheet, nturns: int, current: real, xp: real, yp: real)
    requires sh.Valid() && nturns >= 1 && (nturns as real) * current == (sh.nturns as real) * sh.current
    ensures SheetField(num, sh.(nturns := nturns, current := current), xp, yp) == SheetField(num, sh, xp, yp)
  {
    var other := sh.(nturns := nturns, current := current);
    assert TotalSheetCurrent(other) == TotalSheetCurrent(sh);
  }

  /**
   * __copy__: a CurrentLoop is rebuilt from its six parameters; a
   * CurrentSheet becomes the CurrentLoop(x_span, radius[0], nturns, current)
   * of one layer of thickness 1; a collection is rebuilt over the same members.
   */
  function CopyOf(s: Source): (r: Source)
    requires ValidSource(s)
    ensures ValidSource(r)
    ensures r.SheetSource? == false
    ensures s.Loop? ==> r == s
    ensures s.SheetSource? ==> (r.Loop? && r.coil.xSpan == s.sheet.xSpan && r.coil.radius == [s.sheet.radius[0], s.sheet.radius[0]]
      && r.coil.nturns == s.sheet.nturns && r.coil.current == s.sheet.current && r.coil.layers == 1)
  {
    match s
    case Loop(c) => Loop(c)
    case SheetSource(sh) => Loop(Coil(sh.xSpan, [sh.radius[0], sh.radius[0]], sh.nturns, sh.current, 1, 1.0))
    case Collection(ms) => Collection(ms)
  }

  /**
   * The loop that replaces a copied sheet carries the sheet's ampere-turns:
   * nturns loops of the sheet current, spread over the sheet's span at its radius.
   */
  lemma SheetCopyAmpereTurns(sh: Sheet)
    requires sh.Valid()
    ensures var r := CopyOf(SheetSource(sh));
      |LoopTable(r.coil)| == sh.nturns
      && TotalCurrent(LoopTable(r.coil)) == (sh.nturns as real) * sh.current
      && forall n :: 0 <= n < sh.nturns ==> LoopTable(r.coil)[n].r == sh.radius[0]
  {
    var c := CopyOf(SheetSource(sh)).coil;
    AmpereTurns(c);
    LoopTableLength(c);
    forall n | 0 <= n < sh.nturns
      ensures LoopTable(c)[n].r == sh.radius[0]
    {
      assert TurnsInLayer(c.nturns, 1, 0) == c.nturns;
      assert TurnsBefore(c.nturns, 1, 0) == 0;
      LoopTableRow(c, 0, n);
      LinspaceBetween(sh.radius[0], sh.radius[0], c.nturns, n);
    }
  }

  /** The loop table of a CurrentLoop as the setters left it, with the cache flag that guards it. */
  class CurrentLoop {
    var xSpan: seq<real>
    var radius: seq<real>
    var nturns: int
    var current: real
    var layers: int
    var layerThickness: real
    var currentMultiplier: real
    var currentLoops: seq<Row>
    var upToDate: bool

    /** What the validating setters guarantee. */
    ghost predicate Valid()
      reads this
    {
      |xSpan| >= 2 && |radius| >= 2 && nturns >= 1 && layers >= 1
    }

    /** The six parameters that define the winding (and that __eq__ compares). */
    function Params(): Coil
      reads this
    {
      Coil(xSpan, radius, nturns, current, layers, layerThickness)
    }

    /** The cache is sound when a set flag means the cached table is the table of the current parameters. */
    ghost predicate CacheSound()
      reads this
      requires Valid()
    {
      upToDate ==> currentLoops == LoopTable(Params())
    }

    /** The object CurrentLoop.__init__ leaves when all setters succeed: nothing cached yet. */
    constructor (c: Coil, multiplier: real)
      requires c.Valid()
      ensures Valid() && Params() == c && currentMultiplier == multiplier
      ensures !upToDate && currentLoops == [] && CacheSound()
    {
      xSpan, radius, nturns, current := c.xSpan, c.radius, c.nturns, c.current;
      layers, layerThickness, currentMultiplier := c.layers, c.layerThickness, multiplier;
      currentLoops, upToDate := [], false;
    }

    /**
     * x_span setter as written: an indexable value is stored and clears the
     * cache flag; a bare number is stored as [v, v] and leaves the flag as it was.
     */
    method SetXSpan(value: Extent)
      requires value.Indexable()
      modifies this
      ensures xSpan == Normalize(value)
      ensures upToDate == (old(upToDate) && value.Scalar?)
      ensures radius == old(radius) && nturns == old(nturns) && current == old(current)
      ensures layers == old(layers) && layerThickness == old(layerThickness)
      ensures currentMultiplier == old(currentMultiplier) && currentLoops == old(currentLoops)
    {
      match value
      case Listed(items) =>
        xSpan := items;
        upToDate := false;
      case Scalar(v) =>
        xSpan := [v, v];
    }

    /** radius setter as written: same shape as the x_span setter. */
    method SetRadius(value: Extent)
      requires value.Indexable()
      modifies this
      ensures radius == Normalize(value)
      ensures upToDate == (old(upToDate) && value.Scalar?)
      ensures xSpan == old(xSpan) && nturns == old(nturns) && current == old(current)
      ensures layers == old(layers) && layerThickness == old(layerThickness)
      ensures currentMultiplier == old(currentMultiplier) && currentLoops == old(currentLoops)
    {
      match value
      case Listed(items) =>
        radius := items;
        upToDate := false;
      case Scalar(v) =>
        radius := [v, v];
    }

    /** The x_span setter with both branches clearing the flag: it keeps the cache sound. */
    method SetXSpanInvalidating(value: Extent)
      requires Valid() && value.Indexable()
      modifies this
      ensures Valid() && CacheSound()
      ensures xSpan == Normalize(value) && !upToDate
      ensures radius == old(radius) && nturns == old(nturns) && current == old(current)
      ensures layers == old(layers) && layerThickness == old(layerThickness)
      ensures currentMultiplier == old(currentMultiplier)
    {
      xSpan := Normalize(value);
      upToDate := false;
    }

    /** The radius setter with both branches clearing the flag. */
    method SetRadiusInvalidating(value: Extent)
      requires Valid() && value.Indexable()
      modifies this
      ensures Valid() && CacheSound()
      ensures radius == Normalize(value) && !upToDate
      ensures xSpan == old(xSpan) && nturns == old(nturns) && current == old(current)
      ensures layers == old(layers) && layerThickness == old(layerThickness)
      ensures currentMultiplier == old(currentMultiplier)
    {
      radius := Normalize(value);
      upToDate := false;
    }

    /** nturns setter: below 1 raises ValueError and changes nothing; otherwise int(value) is stored and the flag cleared. */
    method SetNTurns(value: real) returns (out: Outcome)
      requires Valid()
      modifies this
      ensures Valid() && (out == Pass ==> CacheSound())
      ensures value < 1.0 ==> out == Fail(ValueError) && unchanged(this)
      ensures value >= 1.0 ==> (out == Pass && nturns == value.Floor && !upToDate
        && xSpan == old(xSpan) && radius == old(radius) && current == old(current)
        && layers == old(layers) && layerThickness == old(layerThickness) && currentMultiplier == old(currentMultiplier))
    {
      if value >= 1.0 {
        nturns := TruncatePositive(value);
        upToDate := false;
        out := Pass;
      } else {
        out := Fail(ValueError);
      }
    }

    /** current setter: stores the value and clears the flag. */
    method SetCurrent(value: real)
      requires Valid()
      modifies this
      ensures Valid() && CacheSound()
      ensures current == value && !upToDate
      ensures xSpan == old(xSpan) && radius == old(radius) && nturns == old(nturns)
      ensures layers == old(layers) && layerThickness == old(layerThickness) && currentMultiplier == old(currentMultiplier)
    {
      upToDate := false;
      current := value;
    }

    /**
     * layers setter: a value that is not a whole number raises TypeError, one
     * below 1 raises ValueError (both change nothing); otherwise it is stored
     * and the flag cleared.
     */
    method SetLayers(value: real) returns (out: Outcome)
      requires Valid()
      modifies this
      ensures Valid() && (out == Pass ==> CacheSound())
      ensures value.Floor as real != value ==> out == Fail(TypeError) && unchanged(this)
      ensures value.Floor as real == value && value < 1.0 ==> out == Fail(ValueError) && unchanged(this)
      ensures value.Floor as real == value && value >= 1.0 ==> (out == Pass && layers as real == value && !upToDate
        && xSpan == old(xSpan) && radius == old(radius) && nturns == old(nturns) && current == old(current)
        && layerThickness == old(layerThickness) && currentMultiplier == old(currentMultiplier))
    {
      if value.Floor as real != value {
        out := Fail(TypeError);
      } else if value < 1.0 {
        out := Fail(ValueError);
      } else {
        layers := value.Floor;
        upToDate := false;
        out := Pass;
      }
    }

    /** layer_thickness setter: stores the value and clears the flag. */
    method SetLayerThickness(value: real)
      requires Valid()
      modifies this
      ensures Valid() && CacheSound()
      ensures layerThickness == value && !upToDate
      ensures xSpan == old(xSpan) && radius == old(radius) && nturns == old(nturns)
      ensures layers == old(layers) && current == old(current) && currentMultiplier == old(currentMultiplier)
    {
      layerThickness := value;
      upToDate := false;
    }

    /** current_multiplier setter: stores the value and clears the flag, though the table never uses it. */
    method SetCurrentMultiplier(value: real)
      requires Valid()
      modifies this
      ensures Valid() && CacheSound()
      ensures currentMultiplier == value && !upToDate
      ensures Params() == old(Params())
    {
      currentMultiplier := value;
      upToDate := false;
    }

    /** recalculate_loop_list: rebuild the table from the present parameters, cache it and set the flag. */
    method RecalculateLoopList()
      requires Valid()
      modifies this
      ensures Valid() && CacheSound()
      ensures upToDate && currentLoops == LoopTable(Params()) && |currentLoops| == nturns
      ensures Params() == old(Params()) && currentMultiplier == old(currentMultiplier)
    {
      var table := BuildLoopTable(Params());
      currentLoops := table;
      upToDate := true;
    }

    /**
     * get_loop_list: recompute only when the flag is clear; with the flag set
     * the cached table is returned unchanged.
     */
    method GetLoopList() returns (table: seq<Row>)
      requires Valid()
      modifies this
      ensures Valid() && upToDate && table == currentLoops
      ensures Params() == old(Params()) && currentMultiplier == old(currentMultiplier)
      ensures old(upToDate) ==> table == old(currentLoops)
      ensures !old(upToDate) ==> table == LoopTable(Params())
      ensures old(CacheSound()) ==> table == LoopTable(Params()) && CacheSound()
    {
      if !upToDate {
        RecalculateLoopList();
      }
      table := currentLoops;
    }

    /** b_field: the summed loop fields over the table get_loop_list returns. */
    method BField(num: Kernels, xp: real, yp: real) returns (f: Field)
      requires Valid()
      modifies this
      ensures Valid() && upToDate && f == LoopsField(num, currentLoops, xp, yp)
      ensures Params() == old(Params())
      ensures old(CacheSound()) ==> f == CoilField(num, Params(), xp, yp)
    {
      var loops := GetLoopList();
      f := LoopsField(num, loops, xp, yp);
    }

    /** __copy__: a new CurrentLoop from the six parameters; the multiplier falls back to 1.0 and nothing is cached. */
    method Copy() returns (c: CurrentLoop)
      requires Valid()
      ensures fresh(c) && c.Valid() && c.Params() == Params() && c.CacheSound()
      ensures c.currentMultiplier == 1.0 && !c.upToDate
    {
      c := new CurrentLoop(Params(), 1.0);
    }

    /**
     * __eq__: only another CurrentLoop can be equal, and then exactly when the
     * six parameters agree (the multiplier and the cache are not compared).
     */
    function Eq(other: Obj<CurrentLoop>): (r: bool)
      reads this, if other.Instance? then {other.value} else {}
      ensures r <==> other.Instance? && other.value.Params() == Params()
    {
      match other
      case Other => false
      case Instance(o) =>
        xSpan == o.xSpan && radius == o.radius && nturns == o.nturns && current == o.current
        && layers == o.layers && layerThickness == o.layerThickness
    }
  }

  /**
   * CurrentLoop(x_span, radius, nturns, current, layers, layer_thickness,
   * current_multiplier): the setters' errors propagate out of the constructor.
   */
  method NewCurrentLoop(xSpan: Extent, radius: Extent, nturns: real, current: real,
                        layers: real, layerThickness: real, multiplier: real)
    returns (res: Result<CurrentLoop>)
    requires xSpan.Indexable() && radius.Indexable()
    ensures MakeCoil(xSpan, radius, nturns, current, layers, layerThickness).Failure? ==>
      res == Failure(MakeCoil(xSpan, radius, nturns, current, layers, layerThickness).error)
    ensures MakeCoil(xSpan, radius, nturns, current, layers, layerThickness).Success? ==>
      res.Success? && fresh(res.value) && res.value.Valid() && res.value.CacheSound()
      && res.value.Params() == MakeCoil(xSpan, radius, nturns, current, layers, layerThickness).value
      && res.value.currentMultiplier == multiplier
  {
    var made := MakeCoil(xSpan, radius, nturns, current, layers, layerThickness);
    match made
    case Failure(e) => res := Failure(e);
    case Success(c) =>
      var loop := new CurrentLoop(c, multiplier);
      res := Success(loop);
  }

  /**
   * The stale cache of the as-written scalar setter: a one-turn coil at
   * x = 0 whose table has been computed, then given the scalar span 5,
   * still reports its loop at x = 0 although its parameters now put it at 5.
   */
  method StaleCacheWitness() returns (before: seq<Row>, after: seq<Row>)
    ensures before == [Row(0.0, 10.0, 1.0)]
    ensures after == before
    ensures after != LoopTable(Coil([5.0, 5.0], [10.0, 10.0], 1, 1.0, 1, 1.0))
  {
    var coil := Coil([0.0, 10.0], [10.0, 10.0], 1, 1.0, 1, 1.0);
    var loop := new CurrentLoop(coil, 1.0);
    before := loop.GetLoopList();
    OneTurnTable(coil);
    loop.SetXSpan(Scalar(5.0));
    after := loop.GetLoopList();
    OneTurnTable(Coil([5.0, 5.0], [10.0, 10.0], 1, 1.0, 1, 1.0));
  }

  /**
   * Any later nturns assignment on the stale coil clears the flag, so the
   * next table is the one of the new span again.
   */
  method StaleCacheRepaired() returns (after: seq<Row>)
    ensures after == [Row(5.0, 10.0, 1.0)]
  {
    var coil := Coil([0.0, 10.0], [10.0, 10.0], 1, 1.0, 1, 1.0);
    var loop := new CurrentLoop(coil, 1.0);
    var before := loop.GetLoopList();
    loop.SetXSpan(Scalar(5.0));
    var out := loop.SetNTurns(1.0);
    after := loop.GetLoopList();
    OneTurnTable(Coil([5.0, 5.0], [10.0, 10.0], 1, 1.0, 1, 1.0));
  }

  /** With the invalidating setter the same sequence reports the loop at x = 5. */
  method FreshCacheWitness() returns (after: seq<Row>)
    ensures after == [Row(5.0, 10.0, 1.0)]
  {
    var coil := Coil([0.0, 10.0], [10.0, 10.0], 1, 1.0, 1, 1.0);
    var loop := new CurrentLoop(coil, 1.0);
    var before := loop.GetLoopList();
    loop.SetXSpanInvalidating(Scalar(5.0));
    after := loop.GetLoopList();
    OneTurnTable(Coil([5.0, 5.0], [10.0, 10.0], 1, 1.0, 1, 1.0));
  }

  /** A one-turn, one-layer coil has a single loop at the start point. */
  lemma OneTurnTable(c: Coil)
    requires c.Valid() && c.nturns == 1 && c.layers == 1
    ensures LoopTable(c) == [Row(c.xSpan[0], c.radius[0], c.current)]
  {
    LoopTableLength(c);
    LoopTableRow(c, 0, 0);
  }

  /** A CurrentSheet object: validating nturns setter, span and radius normalisation, no cache. */
  class CurrentSheet {
    var xSpan: seq<real>
    var radius: seq<real>
    var nturns: int
    var current: real
    var currentMultiplier: real

    ghost predicate Valid()
      reads this
    {
      |xSpan| >= 2 && |radius| >= 2 && nturns >= 1
    }

    function Value(): Sheet
      reads this
    {
      Sheet(xSpan, radius, nturns, current)
    }

    constructor (sh: Sheet, multiplier: real)
      requires sh.Valid()
      ensures Valid() && Value() == sh && currentMultiplier == multiplier
    {
      xSpan, radius, nturns, current, currentMultiplier := sh.xSpan, sh.radius, sh.nturns, sh.current, multiplier;
    }

    method SetXSpan(value: Extent)
      requires Valid() && value.Indexable()
      modifies this
      ensures Valid() && Value() == old(Value()).(xSpan := Normalize(value))
      ensures currentMultiplier == old(currentMultiplier)
    {
      xSpan := Normalize(value);
    }

    method SetRadius(value: Extent)
      requires Valid() && value.Indexable()
      modifies this
      ensures Valid() && Value() == old(Value()).(radius := Normalize(value))
      ensures currentMultiplier == old(currentMultiplier)
    {
      radius := Normalize(value);
    }

    /** nturns setter: below 1 raises ValueError and changes nothing. */
    method SetNTurns(value: real) returns (out: Outcome)
      requires Valid()
      modifies this
      ensures Valid()
      ensures value < 1.0 ==> out == Fail(ValueError) && unchanged(this)
      ensures value >= 1.0 ==> (out == Pass && Value() == old(Value()).(nturns := value.Floor)
        && currentMultiplier == old(currentMultiplier))
    {
      if value >= 1.0 {
        nturns := TruncatePositive(value);
        out := Pass;
      } else {
        out := Fail(ValueError);
      }
    }

    method SetCurrent(value: real)
      requires Valid()
      modifies this
      ensures Valid() && Value() == old(Value()).(current := value)
      ensures currentMultiplier == old(currentMultiplier)
    {
      current := value;
    }

    /** length: |x_span[1] - x_span[0]|. */
    function SheetLength(): (l: real)
      reads this
      requires Valid()
      ensures l == Length(Value()) && l >= 0.0
    {
      Abs(xSpan[1] - xSpan[0])
    }

    /** b_field through the sheet kernel. */
    function BField(num: Kernels, xp: real, yp: real): Field
      reads this
      requires Valid()
    {
      SheetField(num, Value(), xp, yp)
    }

    /** __copy__ returns a CurrentLoop, not a CurrentSheet. */
    method Copy() returns (c: CurrentLoop)
      requires Valid()
      ensures fresh(c) && c.Valid() && c.CacheSound() && Loop(c.Params()) == CopyOf(SheetSource(Value()))
    {
      c := new CurrentLoop(Coil(xSpan, [radius[0], radius[0]], nturns, current, 1, 1.0), 1.0);
    }
  }

  /** The argument of add_sources: one object, or an iterable of objects. */
  datatype SourcesArg = Single(item: Obj<Source>) | Many(items: seq<Obj<Source>>)

  /** The leading sources of a list up to its first non-source. */
  function LeadingSources(items: seq<Obj<Source>>): (r: seq<Source>)
    ensures |r| <= |items|
    ensures forall k :: 0 <= k < |r| ==> items[k] == Instance(r[k])
  {
    if items == [] || items[0].Other? then [] else [items[0].value] + LeadingSources(items[1..])
  }

  /** Every element that is a source is a valid one. */
  predicate ValidObjs(items: seq<Obj<Source>>)
  {
    forall k :: 0 <= k < |items| && items[k].Instance? ==> ValidSource(items[k].value)
  }

  predicate AllSources(items: seq<Obj<Source>>)
  {
    forall k :: 0 <= k < |items| ==> items[k].Instance?
  }

  lemma {:induction false} LeadingSourcesAll(items: seq<Obj<Source>>)
    ensures |LeadingSources(items)| == |items| <==> AllSources(items)
  {
    if items != [] {
      LeadingSourcesAll(items[1..]);
      if items[0].Instance? && AllSources(items[1..]) {
        assert AllSources(items);
      }
    }
  }

  /** Adding [s1, s2] at once appends what adding s1 and then s2 appends. */
  lemma {:induction false} LeadingSourcesAppend(xs: seq<Obj<Source>>, ys: seq<Obj<Source>>)
    requires AllSources(xs)
    ensures LeadingSources(xs + ys) == LeadingSources(xs) + LeadingSources(ys)
  {
    if xs != [] {
      assert (xs + ys)[1..] == xs[1..] + ys;
      LeadingSourcesAppend(xs[1..], ys);
    } else {
      assert xs + ys == ys;
    }
  }

  lemma LeadingSourcesStep(items: seq<Obj<Source>>, k: nat)
    requires k < |items| && AllSources(items[..k]) && items[k].Instance?
    ensures AllSources(items[..k + 1])
    ensures LeadingSources(items[..k + 1]) == LeadingSources(items[..k]) + [items[k].value]
  {
    assert items[..k + 1] == items[..k] + [items[k]];
    LeadingSourcesAppend(items[..k], [items[k]]);
  }

  lemma LeadingSourcesStop(items: seq<Obj<Source>>, k: nat)
    requires k < |items| && AllSources(items[..k]) && items[k].Other?
    ensures LeadingSources(items) == LeadingSources(items[..k]) && !AllSources(items)
  {
    LeadingSourcesAppend(items[..k], items[k..]);
    assert items[..k] + items[k..] == items;
  }

  /** A SourceCollection: a list of source values and the summed field. */
  class SourceCollection {
    var sources: seq<Source>

    ghost predicate Valid()
      reads this
    {
      ValidMembers(sources)
    }

    constructor ()
      ensures sources == [] && Valid()
    {
      sources := [];
    }

    /** _add_source: a source is appended; anything else fails the isinstance assertion. */
    method AddSource(item: Obj<Source>) returns (out: Outcome)
      requires Valid()
      requires item.Instance? ==> ValidSource(item.value)
      modifies this
      ensures Valid()
      ensures item.Instance? ==> out == Pass && sources == old(sources) + [item.value]
      ensures item.Other? ==> out == Fail(AssertionError) && sources == old(sources)
    {
      if item.Other? {
        return Fail(AssertionError);
      }
      assert (sources + [item.value])[..|sources|] == sources;
      sources := sources + [item.value];
      return Pass;
    }

    /**
     * add_sources on an iterable: the elements are added one by one, so a
     * non-source element raises AssertionError after the elements before it
     * have been appended.
     */
    method AddMany(items: seq<Obj<Source>>) returns (out: Outcome)
      requires Valid() && ValidObjs(items)
      modifies this
      ensures Valid()
      ensures sources == old(sources) + LeadingSources(items)
      ensures out == Pass <==> AllSources(items)
      ensures out != Pass ==> out == Fail(AssertionError)
    {
      var k := 0;
      while k < |items|
        invariant 0 <= k <= |items|
        invariant AllSources(items[..k])
        invariant sources == old(sources) + LeadingSources(items[..k])
        invariant Valid()
      {
        var item := items[k];
        if item.Other? {
          LeadingSourcesStop(items, k);
          return Fail(AssertionError);
        }
        LeadingSourcesStep(items, k);
        ghost var before := sources;
        out := AddSource(item);
        assert sources == old(sources) + (LeadingSources(items[..k]) + [item.value]) by {
          assert sources == before + [item.value];
        }
        k := k + 1;
      }
      assert items[..k] == items;
      return Pass;
    }

    /** add_sources: a single object goes to _add_source, an iterable to the loop above. */
    method AddSources(arg: SourcesArg) returns (out: Outcome)
      requires Valid()
      requires arg.Single? ==> (arg.item.Instance? ==> ValidSource(arg.item.value))
      requires arg.Many? ==> ValidObjs(arg.items)
      modifies this
      ensures Valid()
      ensures arg.Single? ==> (arg.item.Instance? ==> out == Pass && sources == old(sources) + [arg.item.value])
      ensures arg.Single? ==> (arg.item.Other? ==> out == Fail(AssertionError) && sources == old(sources))
      ensures arg.Many? ==> sources == old(sources) + LeadingSources(arg.items)
      ensures arg.Many? ==> (out == Pass <==> AllSources(arg.items))
      ensures arg.Many? ==> (out != Pass ==> out == Fail(AssertionError))
    {
      match arg
      case Single(item) =>
        out := AddSource(item);
      case Many(items) =>
        out := AddMany(items);
    }

    /** __copy__: a collection over the same member list. */
    function Copy(): (s: Source)
      reads this
      requires Valid()
      ensures ValidSource(s) && s == CopyOf(Collection(sources))
    {
      Collection(sources)
    }

    /** b_field: start from (0, 0) and add each member's field in turn. */
    method BField(num: Kernels, xp: real, yp: real) returns (f: Field)
      requires Valid()
      ensures f == MembersField(num, sources, xp, yp)
    {
      f := Zero;
      assert sources[..0] == [];
      for k := 0 to |sources|
        invariant ValidMembers(sources[..k])
        invariant f == MembersField(num, sources[..k], xp, yp)
      {
        ValidMembersPrefix(sources, k);
        ValidMembersPrefix(sources, k + 1);
        assert sources[..k + 1][..k] == sources[..k];
        f := f.Plus(SourceField(num, sources[k], xp, yp));
      }
      assert sources[..|sources|] == sources;
    }
  }

  /**
   * SourceCollection(sources): the constructor hands its argument to
   * add_sources, so the outcome is that of add_sources on an empty list.
   */
  method NewSourceCollection(arg: SourcesArg) returns (c: SourceCollection, out: Outcome)
    requires arg.Single? ==> (arg.item.Instance? ==> ValidSource(arg.item.value))
    requires arg.Many? ==> ValidObjs(arg.items)
    ensures fresh(c) && c.Valid()
    ensures arg.Single? && arg.item.Instance? ==> out == Pass && c.sources == [arg.item.value]
    ensures arg.Single? && arg.item.Other? ==> out == Fail(AssertionError)
    ensures arg.Many? ==> c.sources == LeadingSources(arg.items) && (out == Pass <==> AllSources(arg.items))
  {
    c := new SourceCollection();
    out := c.AddSources(arg);
  }
}
