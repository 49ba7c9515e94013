/** Distribution of test data over VUs and iterations (pkg/vuhive/data/dataset.go:45-84). */
module DataSets {
  import opened Wrappers
  import opened Arithmetic

  datatype Strategy = Sequential | Random | UniquePerVU | SharedQueue | Unknown

  /** The VU that asks: its 1-based id and its 0-based iteration, both int64. */
  datatype Context = Context(vuid: int, iteration: int)

  /** Which record is handed out; IndexPanic is the run-time error of a negative index. */
  datatype Outcome = Record(index: nat) | Exhausted | NilContext | IndexPanic

  predicate IsInt64(x: int) {
    -TWO_63 <= x < TWO_63
  }

  predicate Int64Context(ctx: Option<Context>) {
    ctx.Some? ==> IsInt64(ctx.value.vuid) && IsInt64(ctx.value.iteration)
  }

  /** vuid - 1, but never negative; the smallest id wraps. */
  function Offset(vuid: int): (o: int)
    ensures 0 <= o
    ensures 1 <= vuid < TWO_63 ==> o == vuid - 1
    ensures -TWO_63 < vuid < 1 ==> o == 0
    ensures vuid == -TWO_63 ==> o == TWO_63 - 1
  {
    var o := Wrap(vuid - 1);
    if o < 0 then 0 else o
  }

  /** Go's remainder has the sign of the dividend. */
  function GoRemainder(x: int, n: nat): (r: int)
    requires n > 0
    ensures 0 - n < r < n && (x >= 0 ==> r == x % n)
  {
    if x >= 0 then x % n else -((-x) % n)
  }

  function At(index: int): Outcome {
    if index < 0 then IndexPanic else Record(index)
  }

  function SequentialOutcome(ctx: Context, n: nat): Outcome
    requires n > 0
  {
    At(GoRemainder(Wrap(Offset(ctx.vuid) + ctx.iteration), n))
  }

  function QueueOutcome(drawn: int, n: nat): Outcome
    requires n > 0
  {
    if drawn >= n then Exhausted else At(drawn)
  }

  lemma WrapUndone(x: int)
    requires IsInt64(x)
    ensures Wrap(Wrap(x + 1) - 1) == x
  {}

  class DataSet<T> {
    const records: seq<T>
    const strategy: Strategy
    var cursor: int

    constructor (records: seq<T>, strategy: Strategy)
      ensures this.records == records && this.strategy == strategy && cursor == 0
    {
      this.records, this.strategy := records, strategy;
      cursor := 0;
    }

    method NextSequential(ctx: Context) returns (r: Outcome)
      requires records != [] && IsInt64(ctx.vuid) && IsInt64(ctx.iteration)
      ensures r == SequentialOutcome(ctx, |records|) && (r.Record? ==> r.index < |records|)
    {
      var vuidOffset := Wrap(ctx.vuid - 1);
      if vuidOffset < 0 {
        vuidOffset := 0;
      }
      r := At(GoRemainder(Wrap(vuidOffset + ctx.iteration), |records|));
    }

    method NextShared() returns (r: Outcome)
      requires records != [] && IsInt64(|records|) && IsInt64(cursor)
      modifies this
      ensures cursor == Wrap(old(cursor) + 1)
      ensures r == QueueOutcome(old(cursor), |records|) && (r.Record? ==> r.index < |records|)
    {
      cursor := Wrap(cursor + 1);
      var idx := Wrap(cursor - 1);
      WrapUndone(old(cursor));
      if idx >= |records| {
        return Exhausted;
      }
      return At(idx);
    }

    /** `draw` is the random index. */
    method Next(ctx: Option<Context>, draw: nat) returns (r: Outcome)
      requires Int64Context(ctx) && IsInt64(|records|) && IsInt64(cursor) && (|records| > 0 ==> draw < |records|)
      modifies this
      ensures cursor == if records != [] && strategy == SharedQueue then Wrap(old(cursor) + 1) else old(cursor)
      ensures records == [] ==> r == Exhausted
      ensures records != [] && (strategy == Sequential || strategy == UniquePerVU) ==>
                r == if ctx == None then NilContext else SequentialOutcome(ctx.value, |records|)
      ensures records != [] && strategy == Random ==> r == Record(draw)
      ensures records != [] && strategy == SharedQueue ==> r == QueueOutcome(old(cursor), |records|)
      ensures records != [] && strategy == Unknown ==>
                r == if ctx == None then NilContext else At(GoRemainder(ctx.value.iteration, |records|))
      ensures r.Record? ==> r.index < |records|
    {
      if |records| == 0 {
        return Exhausted;
      }
      var n := |records|;
      match strategy {
        case Sequential | UniquePerVU =>
          if ctx == None {
            return NilContext;
          }
          r := NextSequential(ctx.value);
          return;
        case Random =>
          return Record(draw);
        case SharedQueue =>
          r := NextShared();
          return;
        case Unknown =>
          if ctx == None {
            return NilContext;
          }
          return At(GoRemainder(ctx.value.iteration, n));
      }
    }
  }

  // ---------- Sequential ----------

  /** The sum of offset and iteration fits in 63 bits. */
  predicate InRange(ctx: Context) {
    0 <= ctx.iteration && Offset(ctx.vuid) + ctx.iteration < TWO_63
  }

  /** The promised index, modulo n of the exact sum. */
  function Promised(ctx: Context, n: nat): Outcome
    requires n > 0 && 0 <= ctx.iteration
  {
    Record((Offset(ctx.vuid) + ctx.iteration) % n)
  }

  /** Past 2^63 the remainder of the wrapped sum decides between an index panic and record 0. */
  lemma OverflowOutcome(ctx: Context, n: nat)
    requires n > 0 && IsInt64(ctx.vuid) && 0 <= ctx.iteration < TWO_63 && !InRange(ctx)
    ensures var w := Wrap(Offset(ctx.vuid) + ctx.iteration);
            w < 0 && SequentialOutcome(ctx, n) == if w % n == 0 then Record(0) else IndexPanic
  {
    NegatedRemainder(Wrap(Offset(ctx.vuid) + ctx.iteration), n);
  }

  lemma SumOfMultiple(w: int, t: int, n: nat)
    requires n > 0 && w % n == 0
    ensures (w + t) % n == t % n
  {
    CongruentShift(w, 0, t, n);
  }

  /**
   For an ordinary iteration number the promised record is handed out if and only if the sum does not
   overflow, or it overflows to a multiple of n and n divides 2^64; it panics exactly if it overflows
   to anything else, and in the remaining case record 0 is handed out in place of another.
   */
  lemma SequentialKeepsPromiseIff(ctx: Context, n: nat)
    requires n > 0 && IsInt64(ctx.vuid) && 0 <= ctx.iteration < TWO_63
    ensures var w := Wrap(Offset(ctx.vuid) + ctx.iteration);
            && (SequentialOutcome(ctx, n) == Promised(ctx, n) <==> InRange(ctx) || (w % n == 0 && TWO_64 % n == 0))
            && (SequentialOutcome(ctx, n) == IndexPanic <==> !InRange(ctx) && w % n != 0)
  {
    var sum := Offset(ctx.vuid) + ctx.iteration;
    if InRange(ctx) {
      InRangeOutcome(ctx, n);
    } else {
      OverflowOutcome(ctx, n);
      assert sum == Wrap(sum) + TWO_64;
      if Wrap(sum) % n == 0 {
        SumOfMultiple(Wrap(sum), TWO_64, n);
      }
    }
  }

  lemma InRangeOutcome(ctx: Context, n: nat)
    requires n > 0 && InRange(ctx)
    ensures SequentialOutcome(ctx, n) == Promised(ctx, n)
  {
    assert Wrap(Offset(ctx.vuid) + ctx.iteration) == Offset(ctx.vuid) + ctx.iteration;
  }

  /** VU 4 at the last iteration number gets record 0 of 3 without an error, where record 1 is due. */
  lemma OverflowCanMislead() returns (ctx: Context)
    ensures ctx.iteration >= 0 && SequentialOutcome(ctx, 3) == Record(0) && Promised(ctx, 3) == Record(1)
  {
    ctx := Context(4, TWO_63 - 1);
  }

  lemma NegatedRemainder(x: int, n: nat)
    requires n > 0
    ensures (-x) % n == 0 <==> x % n == 0
  {
    var q, r := x / n, x % n;
    assert x == n * q + r;
    if r == 0 {
      assert -x == n * (-q) + 0;
      RemainderIs(-x, n, -q, 0);
    } else {
      assert -x == n * (-q - 1) + (n - r) by { assert n * (-q - 1) == -(n * q) - n; }
      RemainderIs(-x, n, -q - 1, n - r);
    }
  }

  /** Equal remainders and a difference below the divisor leave only equality. */
  lemma CloseAndCongruent(a: int, b: int, n: nat)
    requires n > 0 && a <= b < a + n && a % n == b % n
    ensures a == b
  {
    assert a == n * (a / n) + a % n && b == n * (b / n) + b % n;
    MulCancel(n, b / n, a / n);
    MulCancel(n, a / n, b / n);
  }

  lemma ShiftCongruent(a: int, b: int, x: int, n: nat)
    requires n > 0
    ensures (a + x) % n == (b + x) % n <==> a % n == b % n
  {
    if a % n == b % n {
      CongruentShift(a, b, x, n);
    }
    if (a + x) % n == (b + x) % n {
      CongruentShift(a + x, b + x, -x, n);
    }
  }

  lemma CongruentShift(a: int, b: int, x: int, n: nat)
    requires n > 0 && a % n == b % n
    ensures (a + x) % n == (b + x) % n
  {
    var r := (a + x) % n;
    var q := (a + x) / n;
    assert a + x == n * q + r;
    assert a == n * (a / n) + a % n && b == n * (b / n) + b % n;
    var k := b / n - a / n;
    assert n * (b / n) == n * (a / n) + n * k;
    assert b + x == n * (q + k) + r by { assert n * (q + k) == n * q + n * k; }
    RemainderIs(b + x, n, q + k, r);
  }

  lemma WindowRemainder(first: int, n: nat, target: nat) returns (j: nat)
    requires n > 0 && target < n
    ensures j < n && (first + j) % n == target
  {
    var q := (target - first) / n;
    j := (target - first) % n;
    assert target - first == n * q + j;
    assert first + j == n * (-q) + target by { assert n * (-q) == -(n * q); }
    RemainderIs(first + j, n, -q, target);
  }

  lemma WindowUnique(first: int, n: nat, j: nat, k: nat)
    requires n > 0 && j < n && k < n && (first + j) % n == (first + k) % n
    ensures j == k
  {
    if k <= j {
      CloseAndCongruent(first + k, first + j, n);
    } else {
      CloseAndCongruent(first + j, first + k, n);
    }
  }

  /** The VU is given record `target` in its iteration i. */
  predicate Visits(vuid: int, i: int, n: nat, target: nat)
    requires n > 0
  {
    SequentialOutcome(Context(vuid, i), n) == Record(target)
  }

  lemma VisitsIff(vuid: int, i: int, n: nat, target: nat)
    requires n > 0 && IsInt64(vuid) && IsInt64(i) && InRange(Context(vuid, i))
    ensures Visits(vuid, i, n, target) <==> (Offset(vuid) + i) % n == target
  {
    InRangeOutcome(Context(vuid, i), n);
  }

  /** Any n consecutive iterations of a VU visit every record exactly once. */
  lemma WindowVisitsEachOnce(vuid: int, i: int, n: nat, target: nat) returns (j: int)
    requires n > 0 && target < n && IsInt64(vuid) && 0 <= i && InRange(Context(vuid, i + n - 1))
    ensures i <= j < i + n && Visits(vuid, j, n, target)
    ensures forall k :: i <= k < i + n && Visits(vuid, k, n, target) ==> k == j
  {
    var d := WindowRemainder(Offset(vuid) + i, n, target);
    j := i + d;
    assert Offset(vuid) + j == Offset(vuid) + i + d;
    VisitsIff(vuid, j, n, target);
    forall k | i <= k < i + n && Visits(vuid, k, n, target) ensures k == j {
      VisitsIff(vuid, k, n, target);
      assert Offset(vuid) + k == Offset(vuid) + i + (k - i);
      WindowUnique(Offset(vuid) + i, n, d, k - i);
    }
  }

  /** Two VUs get the same record in an iteration exactly if their offsets agree modulo n. */
  lemma CollideIffOffsetsAgree(a: int, b: int, i: int, n: nat)
    requires n > 0 && IsInt64(a) && IsInt64(b) && InRange(Context(a, i)) && InRange(Context(b, i))
    ensures SequentialOutcome(Context(a, i), n) == SequentialOutcome(Context(b, i), n) <==> Offset(a) % n == Offset(b) % n
  {
    InRangeOutcome(Context(a, i), n);
    InRangeOutcome(Context(b, i), n);
    ShiftCongruent(Offset(a), Offset(b), i, n);
  }

  lemma OffsetsAgreeIffIdsAgree(a: int, b: int, n: nat)
    requires n > 0 && 1 <= a < TWO_63 && 1 <= b < TWO_63
    ensures Offset(a) % n == Offset(b) % n <==> a % n == b % n
  {
    var x, y := Offset(a), Offset(b);
    assert a == x + 1 && b == y + 1;
    ShiftCongruent(x, y, 1, n);
  }

  /** For ids from 1 on: exactly if the ids agree modulo n. */
  lemma CollideIffIdsAgree(a: int, b: int, i: int, n: nat)
    requires n > 0 && 1 <= a < TWO_63 && 1 <= b < TWO_63 && InRange(Context(a, i)) && InRange(Context(b, i))
    ensures SequentialOutcome(Context(a, i), n) == SequentialOutcome(Context(b, i), n) <==> a % n == b % n
  {
    CollideIffOffsetsAgree(a, b, i, n);
    OffsetsAgreeIffIdsAgree(a, b, n);
  }

  // ---------- Partition over VUs ----------

  predicate SameRecord(a: int, i: int, b: int, j: int, n: nat)
    requires n > 0
  {
    SequentialOutcome(Context(a, i), n) == SequentialOutcome(Context(b, j), n)
  }

  /** Two of the VUs 1 to `vus` are given one record, each in one of its first `iterations` iterations. */
  ghost predicate Overlap(vus: nat, iterations: nat, n: nat)
    requires n > 0
  {
    exists a, b, i, j :: 1 <= a < b <= vus && 0 <= i < iterations && 0 <= j < iterations && SameRecord(a, i, b, j, n)
  }

  lemma SameRecordIff(a: int, i: int, b: int, j: int, n: nat)
    requires n > 0 && 1 <= a && 1 <= b && 0 <= i && 0 <= j && a + i <= TWO_63 && b + j <= TWO_63
    requires a < TWO_63 && b < TWO_63
    ensures SameRecord(a, i, b, j, n) <==> (a - 1 + i) % n == (b - 1 + j) % n
  {
    GivenRecord(a, i, n);
    GivenRecord(b, j, n);
  }

  lemma GivenRecord(a: int, i: int, n: nat)
    requires n > 0 && 1 <= a < TWO_63 && 0 <= i && a + i <= TWO_63
    ensures SequentialOutcome(Context(a, i), n) == Record((a - 1 + i) % n)
  {
    InRangeOutcome(Context(a, i), n);
    assert Offset(a) == a - 1;
  }

  /** From the second iteration on, VU 2 begins where VU 1 continues, whatever the number of records. */
  lemma NeighboursOverlap(n: nat)
    requires n > 0
    ensures SameRecord(1, 1, 2, 0, n)
  {
    SameRecordIff(1, 1, 2, 0, n);
  }

  lemma OneRoundOverlapIff(vus: nat, n: nat)
    requires n > 0 && vus < TWO_63
    ensures Overlap(vus, 1, n) <==> vus > n
  {
    if vus > n {
      SameRecordIff(1, 0, n + 1, 0, n);
      RemainderIs(n, n, 1, 0);
      assert SameRecord(1, 0, n + 1, 0, n);
    } else if Overlap(vus, 1, n) {
      var a, b, i, j :| 1 <= a < b <= vus && 0 <= i < 1 && 0 <= j < 1 && SameRecord(a, i, b, j, n);
      SameRecordIff(a, i, b, j, n);
      CloseAndCongruent(a - 1, b - 1, n);
    }
  }

  /**
   Rows are partitioned over the VUs if and only if there is at most one VU, or no iteration, or a single
   iteration each and no more VUs than records.  In particular two VUs with two iterations each
   overlap for every number of records, also when there are enough for all of them.
   */
  lemma PartitionedIff(vus: nat, iterations: nat, n: nat)
    requires n > 0 && vus + iterations < TWO_63
    ensures !Overlap(vus, iterations, n) <==> vus <= 1 || iterations == 0 || (iterations == 1 && vus <= n)
  {
    if iterations == 1 {
      OneRoundOverlapIff(vus, n);
    } else if vus >= 2 && iterations >= 2 {
      NeighboursOverlap(n);
    }
  }
}
