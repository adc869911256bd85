/**
 * The trajectory sampler `clifford_fast` of image.py: it iterates the
 * Clifford map over a batch of seeds and writes every post-step batch into
 * two preallocated flat buffers, block by block.
 *
 * The seeds are inputs here (the source draws them from np.random.uniform).
 */
module Trajectory {
  import opened CliffordMap

  /**
   * The trajectory record as a value: the batches after step 1, 2, ..., nIter,
   * concatenated in iteration order. The seeds themselves are not part of it.
   */
  function Record(t: Trig, p: Params, seeds: seq<Point>, nIter: nat): (r: seq<Point>)
    ensures |r| == BlockStart(nIter, |seeds|)
    decreases nIter
  {
    if nIter == 0 then []
    else Record(t, p, seeds, nIter - 1) + IterateBatch(t, p, seeds, nIter)
  }

  /** First buffer index of block i (`start_idx`): i blocks of n slots come before it. */
  function BlockStart(i: nat, n: nat): nat
    decreases i
  {
    if i == 0 then 0 else BlockStart(i - 1, n) + n
  }

  /** One past the last buffer index of block i (`end_idx`): where block i + 1 starts. */
  function BlockEnd(i: nat, n: nat): (r: nat)
    ensures r == BlockStart(i + 1, n)
  {
    BlockStart(i, n) + n
  }

  /** The buffer index where block i keeps seed k. */
  function Slot(i: nat, n: nat, k: nat): nat
  {
    BlockStart(i, n) + k
  }

  /** Block i starts at i * n, the offset clifford_fast computes. */
  lemma {:induction false} BlockStartIsProduct(i: nat, n: nat)
    ensures BlockStart(i, n) == i * n
    decreases i
  {
    if i > 0 {
      BlockStartIsProduct(i - 1, n);
      assert i * n == (i - 1) * n + n;
    }
  }

  /** Seed k of block i sits at `start_idx + k`, that is, at i * n + k. */
  lemma SlotIsOffset(i: nat, n: nat, k: nat)
    ensures Slot(i, n, k) == i * n + k
  {
    BlockStartIsProduct(i, n);
  }

  /** Later blocks start no earlier. */
  lemma {:induction false} BlockStartMonotone(i: nat, j: nat, n: nat)
    requires i <= j
    ensures BlockStart(i, n) <= BlockStart(j, n)
    decreases j
  {
    if i < j {
      BlockStartMonotone(i, j - 1, n);
    }
  }

  /** Every block of an nIter-block buffer ends inside it. */
  lemma BlockBounds(i: nat, n: nat, nIter: nat)
    requires i < nIter
    ensures BlockEnd(i, n) <= BlockStart(nIter, n)
  {
    BlockStartMonotone(i + 1, nIter, n);
  }

  /** Index j of an n * nIter buffer is slot j % n of block j / n: the division step of BlocksTile. */
  lemma DivideIndex(n: nat, nIter: nat, j: nat)
    requires j < n * nIter
    ensures n > 0 && j % n < n
    ensures BlockStart(j / n, n) + j % n == j
    ensures j < BlockStart(nIter, n)
  {
    assert n != 0;
    assert (j / n) * n + j % n == j;
    BlockStartIsProduct(j / n, n);
    BlockStartIsProduct(nIter, n);
  }

  /** Every index of the buffer falls in exactly one block, at its seed's position. */
  lemma {:induction false} BlocksTile(n: nat, nIter: nat, j: nat)
    requires j < n * nIter
    ensures n > 0 && j / n < nIter && j % n < n
    ensures Slot(j / n, n, j % n) == j
    ensures forall i: nat :: BlockStart(i, n) <= j < BlockEnd(i, n) <==> i == j / n
  {
    DivideIndex(n, nIter, j);
    var q := j / n;
    if q >= nIter {
      BlockStartMonotone(nIter, q, n);
      assert false;
    }
    forall i: nat
      ensures BlockStart(i, n) <= j < BlockEnd(i, n) <==> i == q
    {
      if i < q {
        BlockStartMonotone(i + 1, q, n);
      } else if i > q {
        BlockStartMonotone(q + 1, i, n);
      }
    }
  }

  /** Two different blocks share no index. */
  lemma BlocksDisjoint(n: nat, i1: nat, i2: nat, j: nat)
    requires BlockStart(i1, n) <= j < BlockEnd(i1, n)
    requires BlockStart(i2, n) <= j < BlockEnd(i2, n)
    ensures i1 == i2
  {
    if i1 != i2 {
      var lo, hi := if i1 < i2 then i1 else i2, if i1 < i2 then i2 else i1;
      BlockStartMonotone(lo + 1, hi, n);
    }
  }

  /** Seed k of block i of an m-block buffer lies inside the buffer of n * m slots. */
  lemma SlotInRange(i: nat, n: nat, k: nat, m: nat)
    requires i < m && k < n
    ensures Slot(i, n, k) < n * m
  {
    BlockBounds(i, n, m);
    BlockStartIsProduct(m, n);
  }

  /** The last block of the record is the batch after nIter steps. */
  lemma RecordLastBlock(t: Trig, p: Params, seeds: seq<Point>, nIter: nat, k: nat)
    requires 0 < nIter && k < |seeds|
    ensures Slot(nIter - 1, |seeds|, k) < |Record(t, p, seeds, nIter)|
    ensures Record(t, p, seeds, nIter)[Slot(nIter - 1, |seeds|, k)] == IterateBatch(t, p, seeds, nIter)[k]
  {
    var n := |seeds|;
    var prev := Record(t, p, seeds, nIter - 1);
    assert Record(t, p, seeds, nIter) == prev + IterateBatch(t, p, seeds, nIter);
    assert Slot(nIter - 1, n, k) == |prev| + k;
  }

  /** Appending a block leaves the earlier part of the record as it was. */
  lemma RecordPrefix(t: Trig, p: Params, seeds: seq<Point>, nIter: nat, j: nat)
    requires 0 < nIter && j < |Record(t, p, seeds, nIter - 1)|
    ensures j < |Record(t, p, seeds, nIter)|
    ensures Record(t, p, seeds, nIter)[j] == Record(t, p, seeds, nIter - 1)[j]
  {
    assert Record(t, p, seeds, nIter) == Record(t, p, seeds, nIter - 1) + IterateBatch(t, p, seeds, nIter);
  }

  /** Block i, position k of the record is seed k after exactly i + 1 steps. */
  lemma {:induction false} RecordAt(t: Trig, p: Params, seeds: seq<Point>, nIter: nat, i: nat, k: nat)
    requires i < nIter && k < |seeds|
    ensures Slot(i, |seeds|, k) < |Record(t, p, seeds, nIter)|
    ensures Record(t, p, seeds, nIter)[Slot(i, |seeds|, k)] == IterateBatch(t, p, seeds, i + 1)[k]
    ensures Record(t, p, seeds, nIter)[Slot(i, |seeds|, k)] == Orbit(t, p, seeds[k], i + 1)
    decreases nIter
  {
    BatchPointwise(t, p, seeds, i + 1, k);
    if i == nIter - 1 {
      RecordLastBlock(t, p, seeds, nIter, k);
    } else {
      RecordAt(t, p, seeds, nIter - 1, i, k);
      RecordPrefix(t, p, seeds, nIter, Slot(i, |seeds|, k));
    }
  }

  /** Every recorded point lies in [-(1+|c|), 1+|c|] x [-(1+|d|), 1+|d|]. */
  lemma {:induction false} RecordBounded(t: Trig, p: Params, seeds: seq<Point>, nIter: nat)
    ensures forall j :: 0 <= j < |Record(t, p, seeds, nIter)| ==>
      Abs(Record(t, p, seeds, nIter)[j].x) <= 1.0 + Abs(p.c) &&
      Abs(Record(t, p, seeds, nIter)[j].y) <= 1.0 + Abs(p.d)
    decreases nIter
  {
    if nIter > 0 {
      RecordBounded(t, p, seeds, nIter - 1);
      var prev := Record(t, p, seeds, nIter - 1);
      var last := IterateBatch(t, p, seeds, nIter);
      forall k | 0 <= k < |seeds|
        ensures |last| == |seeds|
        ensures Abs(last[k].x) <= 1.0 + Abs(p.c) && Abs(last[k].y) <= 1.0 + Abs(p.d)
      {
        BatchPointwise(t, p, seeds, nIter, k);
        OrbitBounded(t, p, seeds[k], nIter);
      }
    }
  }

  /**
   * The slice assignment `buf[start:end] = vals`: the block receives vals and
   * every other slot keeps its value.
   */
  method StoreBlock(buf: array<real>, start: nat, end: nat, vals: seq<real>)
    requires start <= end <= buf.Length && end - start == |vals|
    modifies buf
    ensures forall j :: start <= j < end ==> buf[j] == vals[j - start]
    ensures forall j :: 0 <= j < buf.Length && !(start <= j < end) ==> buf[j] == old(buf[j])
  {
    forall j | start <= j < end {
      buf[j] := vals[j - start];
    }
  }

  /** Blocks 0 .. upto - 1 of both buffers hold the orbits of the seeds, block i after i + 1 steps. */
  ghost predicate BlocksHold(allX: array<real>, allY: array<real>, t: Trig, p: Params, seeds: seq<Point>, upto: nat)
    reads allX, allY
  {
    forall i, k :: 0 <= i < upto && 0 <= k < |seeds| ==>
      Slot(i, |seeds|, k) < allX.Length && Slot(i, |seeds|, k) < allY.Length &&
      allX[Slot(i, |seeds|, k)] == Orbit(t, p, seeds[k], i + 1).x &&
      allY[Slot(i, |seeds|, k)] == Orbit(t, p, seeds[k], i + 1).y
  }

  /**
   * Once every block holds its orbits, the buffers are the record: the
   * layout fixes every slot, and every slot is within the map's bounds.
   */
  lemma BlocksHoldRecord(allX: array<real>, allY: array<real>, t: Trig, p: Params,
                         nPoints: nat, x0: seq<real>, y0: seq<real>, nIter: nat)
    requires |x0| == nPoints && |y0| == nPoints
    requires allX.Length == nPoints * nIter && allY.Length == nPoints * nIter
    requires BlocksHold(allX, allY, t, p, Zip(x0, y0), nIter)
    ensures allX.Length == |Record(t, p, Zip(x0, y0), nIter)|
    ensures forall j :: 0 <= j < allX.Length ==>
      allX[j] == Record(t, p, Zip(x0, y0), nIter)[j].x &&
      allY[j] == Record(t, p, Zip(x0, y0), nIter)[j].y
    ensures forall i, k :: 0 <= i < nIter && 0 <= k < nPoints ==>
      Slot(i, nPoints, k) < allX.Length &&
      allX[Slot(i, nPoints, k)] == Orbit(t, p, Point(x0[k], y0[k]), i + 1).x &&
      allY[Slot(i, nPoints, k)] == Orbit(t, p, Point(x0[k], y0[k]), i + 1).y
    ensures forall j :: 0 <= j < allX.Length ==>
      Abs(allX[j]) <= 1.0 + Abs(p.c) && Abs(allY[j]) <= 1.0 + Abs(p.d)
  {
    var n, seeds := nPoints, Zip(x0, y0);
    RecordBounded(t, p, seeds, nIter);
    BlockStartIsProduct(nIter, n);
    forall j | 0 <= j < allX.Length
      ensures allX[j] == Record(t, p, seeds, nIter)[j].x && allY[j] == Record(t, p, seeds, nIter)[j].y
    {
      BlocksTile(n, nIter, j);
      RecordAt(t, p, seeds, nIter, j / n, j % n);
    }
    forall k | 0 <= k < n
      ensures seeds[k] == Point(x0[k], y0[k])
    {
    }
  }

  /** `np.zeros(len)`: a new buffer of len zeros. */
  method Zeros(len: nat) returns (buf: array<real>)
    ensures fresh(buf) && buf.Length == len
    ensures forall j :: 0 <= j < len ==> buf[j] == 0.0
  {
    buf := new real[len](_ => 0.0);
  }

  /**
   * The body of iteration i of `clifford_fast` after the map step: the new
   * batch (x, y), seed k's state after i + 1 steps, goes into block i of
   * all_x and all_y; blocks 0 .. i - 1 keep what they hold.
   */
  method StoreIteration(allX: array<real>, allY: array<real>, ghost t: Trig, ghost p: Params,
                        ghost seeds: seq<Point>, nIter: nat, i: nat, x: seq<real>, y: seq<real>)
    requires allX != allY
    requires i < nIter && |x| == |seeds| && |y| == |seeds|
    requires allX.Length == |seeds| * nIter && allY.Length == |seeds| * nIter
    requires forall k :: 0 <= k < |seeds| ==> Point(x[k], y[k]) == Orbit(t, p, seeds[k], i + 1)
    requires BlocksHold(allX, allY, t, p, seeds, i)
    modifies allX, allY
    ensures BlocksHold(allX, allY, t, p, seeds, i + 1)
    ensures forall j :: 0 <= j < allX.Length && !(BlockStart(i, |seeds|) <= j < BlockEnd(i, |seeds|)) ==>
      allX[j] == old(allX[j]) && allY[j] == old(allY[j])
  {
    var n := |x|;
    BlockStartIsProduct(nIter, n);
    BlockBounds(i, n, nIter);
    var start, end := i * n, (i + 1) * n;
    BlockStartIsProduct(i, n);
    BlockStartIsProduct(i + 1, n);
    ghost var oldX, oldY := allX[..], allY[..];
    StoreBlock(allX, start, end, x);
    StoreBlock(allY, start, end, y);
    forall i', k | 0 <= i' < i + 1 && 0 <= k < n
      ensures Slot(i', n, k) < allX.Length && Slot(i', n, k) < allY.Length
      ensures allX[Slot(i', n, k)] == Orbit(t, p, seeds[k], i' + 1).x
      ensures allY[Slot(i', n, k)] == Orbit(t, p, seeds[k], i' + 1).y
    {
      if i' < i {
        BlockStartMonotone(i' + 1, i, n);
        assert allX[Slot(i', n, k)] == oldX[Slot(i', n, k)];
      } else {
        assert Point(x[k], y[k]) == Orbit(t, p, seeds[k], i + 1);
      }
    }
  }

  /**
   * `clifford_fast(n_points, a, b, c, d, n_iter)` with the seeds x0, y0 given.
   * Both buffers are new and distinct, as the two `np.zeros` calls make them.
   * They hold n_points * n_iter values, laid out as Record: block i, slot k is
   * seed k after i + 1 steps; the seeds themselves are not recorded. The
   * layout is stated with Slot(i, n_points, k), which by SlotIsOffset is the
   * index `i * n_points + k` the source writes.
   */
  method CliffordFast(t: Trig, p: Params, nPoints: nat, x0: seq<real>, y0: seq<real>, nIter: nat)
    returns (allX: array<real>, allY: array<real>)
    requires |x0| == nPoints && |y0| == nPoints
    ensures fresh(allX) && fresh(allY) && allX != allY
    ensures allX.Length == nPoints * nIter && allY.Length == nPoints * nIter
    ensures allX.Length == |Record(t, p, Zip(x0, y0), nIter)|
    ensures forall j :: 0 <= j < allX.Length ==>
      allX[j] == Record(t, p, Zip(x0, y0), nIter)[j].x &&
      allY[j] == Record(t, p, Zip(x0, y0), nIter)[j].y
    ensures forall i, k :: 0 <= i < nIter && 0 <= k < nPoints ==>
      Slot(i, nPoints, k) < allX.Length &&
      allX[Slot(i, nPoints, k)] == Orbit(t, p, Point(x0[k], y0[k]), i + 1).x &&
      allY[Slot(i, nPoints, k)] == Orbit(t, p, Point(x0[k], y0[k]), i + 1).y
    ensures forall j :: 0 <= j < allX.Length ==>
      Abs(allX[j]) <= 1.0 + Abs(p.c) && Abs(allY[j]) <= 1.0 + Abs(p.d)
  {
    allX := Zeros(nPoints * nIter);
    allY := Zeros(nPoints * nIter);
    var x, y := x0, y0;
    ghost var seeds := Zip(x0, y0);
    var i := 0;
    while i < nIter
      invariant 0 <= i <= nIter
      invariant |x| == nPoints && |y| == nPoints
      invariant forall k :: 0 <= k < nPoints ==> Point(x[k], y[k]) == Orbit(t, p, seeds[k], i)
      invariant BlocksHold(allX, allY, t, p, seeds, i)
    {
      var xNew := MapX(t, p, x, y);
      var yNew := MapY(t, p, x, y);
      SimultaneousUpdate(t, p, x, y);
      x, y := xNew, yNew;
      assert forall k :: 0 <= k < nPoints ==> Point(x[k], y[k]) == Orbit(t, p, seeds[k], i + 1);
      StoreIteration(allX, allY, t, p, seeds, nIter, i, x, y);
      i := i + 1;
    }
    BlocksHoldRecord(allX, allY, t, p, nPoints, x0, y0, nIter);
  }
}
