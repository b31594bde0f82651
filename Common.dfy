/*
 * Shared vocabulary of the coilcalc model: the exceptions the Python code
 * raises, result wrappers, the (axial, radial) field pair, numpy's linspace
 * and meshgrid, the row-major node list that itertools.product produces,
 * and the grid accumulation used by every solver.
 */
module Common {

  datatype Option<T> = None | Some(value: T)

  /** The Python exceptions raised by the modelled code. */
  datatype Error =
    | ValueError
    | TypeError
    | AttributeError
    | AssertionError
    | NotImplementedError
    | ZeroDivisionError
    | IndexError

  /** A value or the exception that replaced it. */
  datatype Result<T> = Success(value: T) | Failure(error: Error)
  {
    predicate IsSuccess() { Success? }
  }

  /** A statement that returns nothing but may raise. */
  datatype Outcome = Pass | Fail(error: Error)

  /**
   * A Python argument that the code checks with isinstance: either an object
   * of the expected class (carrying its value) or anything else.
   */
  datatype Obj<T> = Instance(value: T) | Other

  /** Magnetic field at one point: axial (x) and radial (y) components, in tesla. */
  datatype Field = Field(axial: real, radial: real)
  {
    function Plus(other: Field): Field {
      Field(axial + other.axial, radial + other.radial)
    }
    function Scale(c: real): Field {
      Field(c * axial, c * radial)
    }
  }

  const Zero: Field := Field(0.0, 0.0)

  function Abs(v: real): real { if v < 0.0 then -v else v }

  /** numpy's sign: -1, 0 or 1. */
  function Sign(v: real): real { if v < 0.0 then -1.0 else if v == 0.0 then 0.0 else 1.0 }

  lemma SignTimesAbs(v: real)
    ensures Sign(v) * Abs(v) == v
    ensures Abs(-v) == Abs(v) && Sign(-v) == -Sign(v)
  {
  }

  /** Sum of a sequence of reals (numpy's np.sum over one axis). */
  function Sum(s: seq<real>): real
  {
    if s == [] then 0.0 else Sum(s[..|s| - 1]) + s[|s| - 1]
  }

  lemma {:induction false} SumAppend(s: seq<real>, t: seq<real>)
    ensures Sum(s + t) == Sum(s) + Sum(t)
  {
    if t == [] {
      assert s + t == s;
    } else {
      assert (s + t)[..|s + t| - 1] == s + t[..|t| - 1];
      SumAppend(s, t[..|t| - 1]);
    }
  }

  /**
   * np.linspace(a, b, n): n evenly spaced samples from a to b inclusive;
   * one sample is [a], none is [].
   */
  function Linspace(a: real, b: real, n: nat): (s: seq<real>)
    ensures |s| == n
    ensures n >= 1 ==> s[0] == a
  {
    if n == 1 then [a]
    else seq(n, k requires 0 <= k < n => a + (k as real) * ((b - a) / ((n - 1) as real)))
  }

  /** The spacing between consecutive linspace samples. */
  function LinspaceStep(a: real, b: real, n: nat): real
  {
    if n <= 1 then 0.0 else (b - a) / ((n - 1) as real)
  }

  lemma LinspaceAt(a: real, b: real, n: nat, k: nat)
    requires k < n
    ensures Linspace(a, b, n)[k] == a + (k as real) * LinspaceStep(a, b, n)
  {
  }

  /** The last sample is the stop value whenever there are at least two. */
  lemma LinspaceLast(a: real, b: real, n: nat)
    requires n >= 2
    ensures Linspace(a, b, n)[n - 1] == b
  {
    var d := (n - 1) as real;
    assert d * ((b - a) / d) == b - a;
  }

  /** Consecutive samples differ by exactly one step. */
  lemma LinspaceUniform(a: real, b: real, n: nat, k: nat)
    requires k + 1 < n
    ensures Linspace(a, b, n)[k + 1] - Linspace(a, b, n)[k] == LinspaceStep(a, b, n)
  {
    LinspaceAt(a, b, n, k);
    LinspaceAt(a, b, n, k + 1);
  }

  /** For a <= b every sample lies in [a, b]. */
  lemma LinspaceBetween(a: real, b: real, n: nat, k: nat)
    requires a <= b && k < n
    ensures a <= Linspace(a, b, n)[k] <= b
  {
    if n >= 2 {
      var d := (n - 1) as real;
      var h := (b - a) / d;
      assert h >= 0.0;
      assert d * h == b - a;
      assert (k as real) * h <= d * h;
    }
  }

  /** Shifting both ends shifts every sample: linspace(a, b, n) + c. */
  lemma LinspaceShift(a: real, b: real, c: real, n: nat, k: nat)
    requires k < n
    ensures Linspace(a, b, n)[k] + c == Linspace(a + c, b + c, n)[k]
  {
  }

  /** A grid of reals, indexed [row][column] like a 2-D numpy array. */
  type Grid = seq<seq<real>>

  predicate HasShape(g: Grid, rows: nat, cols: nat)
  {
    |g| == rows && forall i :: 0 <= i < rows ==> |g[i]| == cols
  }

  /**
   * np.meshgrid(xs, ys) with the default 'xy' indexing: both grids have
   * |ys| rows and |xs| columns, X repeats xs along rows, Y repeats ys along
   * columns.
   */
  function MeshX(xs: seq<real>, ys: seq<real>): (g: Grid)
    ensures HasShape(g, |ys|, |xs|)
    ensures forall i, j :: 0 <= i < |ys| && 0 <= j < |xs| ==> g[i][j] == xs[j]
  {
    seq(|ys|, _ => xs)
  }

  function MeshY(xs: seq<real>, ys: seq<real>): (g: Grid)
    ensures HasShape(g, |ys|, |xs|)
    ensures forall i, j :: 0 <= i < |ys| && 0 <= j < |xs| ==> g[i][j] == ys[i]
  {
    seq(|ys|, i requires 0 <= i < |ys| => seq(|xs|, _ => ys[i]))
  }

  /** Concatenation of a list of lists (np.vstack of row blocks, chunk joins). */
  function Flatten<T>(xss: seq<seq<T>>): seq<T>
  {
    if xss == [] then [] else Flatten(xss[..|xss| - 1]) + xss[|xss| - 1]
  }

  lemma {:induction false} FlattenAppend<T>(xss: seq<seq<T>>, yss: seq<seq<T>>)
    ensures Flatten(xss + yss) == Flatten(xss) + Flatten(yss)
  {
    if yss == [] {
      assert xss + yss == xss;
    } else {
      var init, last := yss[..|yss| - 1], yss[|yss| - 1];
      assert xss + yss == (xss + init) + [last];
      FlattenSnoc(xss + init, last);
      FlattenAppend(xss, init);
    }
  }

  /** One more block at the end adds its entries at the end. */
  lemma FlattenSnoc<T>(xss: seq<seq<T>>, last: seq<T>)
    ensures Flatten(xss + [last]) == Flatten(xss) + last
  {
    assert (xss + [last])[..|xss|] == xss;
  }

  /** Entry j of block i sits after all the entries of the blocks before it. */
  lemma FlattenIndex<T>(xss: seq<seq<T>>, i: nat, j: nat)
    requires i < |xss| && j < |xss[i]|
    ensures |Flatten(xss[..i])| + j < |Flatten(xss)|
    ensures Flatten(xss)[|Flatten(xss[..i])| + j] == xss[i][j]
  {
    var pre, post := xss[..i + 1], xss[i + 1..];
    assert xss == pre + post;
    FlattenAppend(pre, post);
    assert pre == xss[..i] + [xss[i]];
    FlattenSnoc(xss[..i], xss[i]);
    var a := Flatten(xss[..i]);
    assert Flatten(xss) == (a + xss[i]) + Flatten(post);
    assert (a + xss[i])[|a| + j] == xss[i][j];
  }

  lemma FlattenPrefixStep<T>(xss: seq<seq<T>>, k: nat)
    requires 0 < k <= |xss|
    ensures Flatten(xss[..k]) == Flatten(xss[..k - 1]) + xss[k - 1]
  {
    assert xss[..k] == xss[..k - 1] + [xss[k - 1]];
    FlattenSnoc(xss[..k - 1], xss[k - 1]);
  }

  /** Node (i, j): row i, column j of a grid. */
  type Node = (nat, nat)

  /** The nodes of row i: (i, 0), ..., (i, cols - 1). */
  function RowNodes(i: nat, cols: nat): seq<Node>
  {
    if cols == 0 then [] else RowNodes(i, cols - 1) + [(i, cols - 1)]
  }

  /**
   * list(itertools.product(range(rows), range(cols))): every node of a
   * rows-by-cols grid in row-major order.
   */
  function NodeList(rows: nat, cols: nat): seq<Node>
  {
    if rows == 0 then [] else NodeList(rows - 1, cols) + RowNodes(rows - 1, cols)
  }

  /** How many times node p occurs in a node list. */
  function Occurrences(s: seq<Node>, p: Node): nat
  {
    if s == [] then 0 else Occurrences(s[..|s| - 1], p) + (if s[|s| - 1] == p then 1 else 0)
  }

  lemma {:induction false} OccurrencesAppend(s: seq<Node>, t: seq<Node>, p: Node)
    ensures Occurrences(s + t, p) == Occurrences(s, p) + Occurrences(t, p)
  {
    if t == [] {
      assert s + t == s;
    } else {
      assert (s + t)[..|s + t| - 1] == s + t[..|t| - 1];
      OccurrencesAppend(s, t[..|t| - 1], p);
    }
  }

  lemma {:induction false} RowNodesOccurrences(i: nat, cols: nat, p: Node)
    ensures Occurrences(RowNodes(i, cols), p) == if p.0 == i && p.1 < cols then 1 else 0
  {
    if cols > 0 {
      RowNodesOccurrences(i, cols - 1, p);
      var s := RowNodes(i, cols);
      assert s[..|s| - 1] == RowNodes(i, cols - 1);
    }
  }

  /** Every node of the grid occurs exactly once in the product order, and nothing else occurs. */
  lemma {:induction false} NodeListOccurrences(rows: nat, cols: nat, p: Node)
    ensures Occurrences(NodeList(rows, cols), p) == if p.0 < rows && p.1 < cols then 1 else 0
  {
    if rows > 0 {
      var before, last := NodeList(rows - 1, cols), RowNodes(rows - 1, cols);
      assert NodeList(rows, cols) == before + last;
      NodeListOccurrences(rows - 1, cols, p);
      RowNodesOccurrences(rows - 1, cols, p);
      OccurrencesAppend(before, last, p);
      var n1, n2 := Occurrences(before, p), Occurrences(last, p);
      assert Occurrences(NodeList(rows, cols), p) == n1 + n2;
      if p.0 < rows - 1 {
        assert n2 == 0;
      } else if p.0 == rows - 1 {
        assert n1 == 0;
      } else {
        assert n1 == 0 && n2 == 0;
      }
    }
  }

  /** Python's list.pop(index): the position removed, counting from the end for a negative index. */
  function PopPosition(count: nat, index: int): (r: Option<nat>)
    ensures r.Some? <==> -(count as int) <= index < count
    ensures r.Some? ==> r.value < count && (r.value as int == index || r.value as int == index + count)
  {
    if 0 <= index < count then Some(index as nat)
    else if -(count as int) <= index < 0 then Some((index + count) as nat)
    else None
  }

  /** A fresh rows-by-cols array of zeros (np.zeros(shape)). */
  method Zeros(rows: nat, cols: nat) returns (g: array2<real>)
    ensures fresh(g) && g.Length0 == rows && g.Length1 == cols
    ensures forall i, j :: 0 <= i < rows && 0 <= j < cols ==> g[i, j] == 0.0
  {
    g := new real[rows, cols]((_, _) => 0.0);
  }

  /** acc += part, elementwise (numpy in-place addition of equal-shape grids). */
  method AddInto(acc: array2<real>, part: array2<real>)
    requires acc != part
    requires acc.Length0 == part.Length0 && acc.Length1 == part.Length1
    modifies acc
    ensures forall i, j :: 0 <= i < acc.Length0 && 0 <= j < acc.Length1 ==>
      acc[i, j] == old(acc[i, j]) + part[i, j]
  {
    for i := 0 to acc.Length0
      invariant forall a, b :: 0 <= a < i && 0 <= b < acc.Length1 ==> acc[a, b] == old(acc[a, b]) + part[a, b]
      invariant forall a, b :: i <= a < acc.Length0 && 0 <= b < acc.Length1 ==> acc[a, b] == old(acc[a, b])
    {
      for j := 0 to acc.Length1
        invariant forall a, b :: 0 <= a < i && 0 <= b < acc.Length1 ==> acc[a, b] == old(acc[a, b]) + part[a, b]
        invariant forall b :: 0 <= b < j ==> acc[i, b] == old(acc[i, b]) + part[i, b]
        invariant forall a, b :: i <= a < acc.Length0 && 0 <= b < acc.Length1 && (a > i || b >= j) ==> acc[a, b] == old(acc[a, b])
      {
        acc[i, j] := acc[i, j] + part[i, j];
      }
    }
  }
}
