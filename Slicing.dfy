/*
 * _slice_list(entries, processes), identical in src/magcoilcalc/core.py and
 * src/coilcalc/core.py: the node list is cut into `processes` consecutive
 * chunks for the worker pool. Its `if i < processes` test always holds, so
 * every chunk is cut at per_proc + 1 entries (the alternative branch is
 * dead and has no counterpart here); Python's slicing clamps the bounds to
 * the list, so the last chunks may be short or empty.
 */
module Slicing {
  import opened Common

  function Min(a: int, b: int): int { if a <= b then a else b }

  /** entries[lo:hi] for non-negative bounds: both clamped to the length. */
  function Slice<T>(entries: seq<T>, lo: nat, hi: nat): (s: seq<T>)
    requires lo <= hi
    ensures |s| <= hi - lo
  {
    entries[Min(lo, |entries|)..Min(hi, |entries|)]
  }

  /** The chunks _slice_list returns for processes >= 1: chunk c is entries[c*w : (c+1)*w], w = count // processes + 1. */
  function Chunks<T>(entries: seq<T>, processes: nat): (chunks: seq<seq<T>>)
    requires processes >= 1
    ensures |chunks| == processes
  {
    var w := |entries| / processes + 1;
    seq(processes, c requires 0 <= c < processes => Slice(entries, c * w, c * w + w))
  }

  /** Each chunk has at most count // processes + 1 entries. */
  lemma ChunksBounded<T>(entries: seq<T>, processes: nat, c: nat)
    requires processes >= 1 && c < processes
    ensures |Chunks(entries, processes)[c]| <= |entries| / processes + 1
  {
  }

  /** The first k chunks, joined, are the prefix of the entries up to k * w. */
  lemma {:induction false} ChunksPrefix<T>(entries: seq<T>, processes: nat, k: nat)
    requires processes >= 1 && k <= processes
    ensures Flatten(Chunks(entries, processes)[..k]) == entries[..Min(k * (|entries| / processes + 1), |entries|)]
  {
    var n := |entries|;
    var w := n / processes + 1;
    var chunks := Chunks(entries, processes);
    if k > 0 {
      var lo := (k - 1) * w;
      ProductNonNegative(k - 1, w);
      var a, b := Min(lo, n), Min(lo + w, n);
      assert k * w == lo + w;
      ChunksPrefix(entries, processes, k - 1);
      FlattenPrefixStep(chunks, k);
      ChunkAt(entries, processes, k - 1);
      JoinSlices(entries, a, b);
    }
  }

  lemma ProductNonNegative(x: nat, y: nat)
    ensures x * y >= 0
  {
  }

  lemma JoinSlices<T>(entries: seq<T>, a: nat, b: nat)
    requires a <= b <= |entries|
    ensures entries[..a] + entries[a..b] == entries[..b]
  {
  }

  /** Chunk c is entries[min(c w, n) : min(c w + w, n)]. */
  lemma ChunkAt<T>(entries: seq<T>, processes: nat, c: nat)
    requires processes >= 1 && c < processes
    ensures var w := |entries| / processes + 1;
      Chunks(entries, processes)[c] == entries[Min(c * w, |entries|)..Min(c * w + w, |entries|)]
  {
  }

  /** processes chunks of count // processes + 1 entries reach past the end of the list. */
  lemma ChunksReachEnd(count: nat, processes: nat)
    requires processes >= 1
    ensures processes * (count / processes + 1) >= count
  {
    var q, r := count / processes, count % processes;
    assert q * processes + r == count;
    assert processes * (q + 1) == q * processes + processes;
  }

  /** Joining all chunks gives back the entries, in order. */
  lemma ChunksCover<T>(entries: seq<T>, processes: nat)
    requires processes >= 1
    ensures Flatten(Chunks(entries, processes)) == entries
  {
    ChunksPrefix(entries, processes, processes);
    ChunksReachEnd(|entries|, processes);
    assert Chunks(entries, processes)[..processes] == Chunks(entries, processes);
  }

  /** The shape of the output: five entries over four processes give chunks of 2, 2, 1 and 0. */
  lemma ChunksExample()
    ensures var chunks := Chunks([10, 11, 12, 13, 14], 4);
      chunks == [[10, 11], [12, 13], [14], []]
  {
    var entries := [10, 11, 12, 13, 14];
    var chunks := Chunks(entries, 4);
    assert chunks[0] == entries[0..2] == [10, 11];
    assert chunks[1] == entries[2..4] == [12, 13];
    assert chunks[2] == entries[4..5] == [14];
    assert chunks[3] == entries[5..5] == [];
  }

  /**
   * _slice_list(entries, processes): zero processes divide by zero, a negative
   * count gives no chunks, otherwise the chunks above, built by advancing a
   * pointer.
   */
  method SliceList<T>(entries: seq<T>, processes: int) returns (res: Result<seq<seq<T>>>)
    ensures processes == 0 ==> res == Failure(ZeroDivisionError)
    ensures processes < 0 ==> res == Success([])
    ensures processes >= 1 ==> res == Success(Chunks(entries, processes))
  {
    if processes == 0 {
      return Failure(ZeroDivisionError);
    }
    if processes < 0 {
      return Success([]);
    }
    var count := |entries|;
    var perProc := count / processes;
    var output: seq<seq<T>> := [];
    var ptr: nat := 0;
    for i := 0 to processes
      invariant |output| == i
      invariant ptr == i * (perProc + 1)
      invariant output == Chunks(entries, processes)[..i]
    {
      output := output + [Slice(entries, ptr, ptr + perProc + 1)];
      ptr := ptr + perProc + 1;
    }
    assert Chunks(entries, processes)[..processes] == Chunks(entries, processes);
    return Success(output);
  }
}
