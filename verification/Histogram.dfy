/**
 The striped histogram (internal/metric/histogram.go) and its merge over tag variants
 (internal/metric/aggregator.go:64-96).  An HDR histogram is the multiset of its samples.
 */
module Histogram {

  const MIN_VALUE := 1
  const MAX_VALUE := 60_000_000
  const SHARDS: nat := 16
  const UINT32: nat := 0x1_0000_0000

  /** Division as the machine does it, towards zero. */
  function Truncated(a: int, b: int): int
    requires b > 0
  {
    if a >= 0 then a / b else -(-a / b)
  }

  /** The microseconds recorded for a duration in nanoseconds. */
  function Clamped(d: int): (us: int)
    ensures MIN_VALUE <= us <= MAX_VALUE
    ensures d < 1000 * MIN_VALUE ==> us == MIN_VALUE
    ensures d >= 1000 * MAX_VALUE ==> us == MAX_VALUE
    ensures 1000 * MIN_VALUE <= d < 1000 * (MAX_VALUE + 1) ==> us * 1000 <= d < (us + 1) * 1000
  {
    var us := Truncated(d, 1000);
    if us < MIN_VALUE then MIN_VALUE else if us > MAX_VALUE then MAX_VALUE else us
  }

  function Union(shards: seq<multiset<int>>): multiset<int> {
    if shards == [] then multiset{} else Union(shards[..|shards| - 1]) + shards[|shards| - 1]
  }

  lemma {:induction false} UnionUpdate(shards: seq<multiset<int>>, i: nat, m: multiset<int>)
    requires i < |shards|
    ensures Union(shards[i := shards[i] + m]) == Union(shards) + m
  {
    var n := |shards| - 1;
    var updated := shards[i := shards[i] + m];
    if i < n {
      UnionUpdate(shards[..n], i, m);
      assert updated[..n] == shards[..n][i := shards[i] + m];
    } else {
      assert updated[..n] == shards[..n];
    }
  }

  lemma Associate(a: multiset<int>, b: multiset<int>, c: multiset<int>)
    ensures (a + b) + c == a + (b + c)
  {}

  lemma {:induction false} UnionAppend(a: seq<multiset<int>>, b: seq<multiset<int>>)
    ensures Union(a + b) == Union(a) + Union(b)
  {
    if b == [] {
      assert a + b == a;
    } else {
      var n := |b| - 1;
      UnionAppend(a, b[..n]);
      assert (a + b)[..|a| + n] == a + b[..n];
      Associate(Union(a), Union(b[..n]), b[n]);
    }
  }

  lemma {:induction false} UnionEmpty(shards: seq<multiset<int>>)
    requires forall i :: 0 <= i < |shards| ==> shards[i] == multiset{}
    ensures Union(shards) == multiset{}
  {
    if shards != [] {
      UnionEmpty(shards[..|shards| - 1]);
    }
  }

  // ---------- Values ----------

  datatype Stripes = Stripes(count: nat, shards: seq<multiset<int>>)

  function NoSamples(): (s: Stripes)
    ensures Striped(s) && s.count == 0 && forall i :: 0 <= i < SHARDS ==> s.shards[i] == multiset{}
  {
    Stripes(0, seq(SHARDS, i => multiset{}))
  }

  predicate Striped(s: Stripes) {
    s.count < UINT32 && |s.shards| == SHARDS
  }

  /** The shard of the next sample, counting modulo 2^32. */
  function NextShard(count: nat): (i: nat)
    ensures i < SHARDS
  {
    (count + 1) % UINT32 % SHARDS
  }

  function Observed(s: Stripes, d: int): (s': Stripes)
    requires Striped(s)
    ensures Striped(s')
  {
    var i := NextShard(s.count);
    Stripes((s.count + 1) % UINT32, s.shards[i := s.shards[i] + multiset{Clamped(d)}])
  }

  lemma ObservedContents(s: Stripes, d: int)
    requires Striped(s)
    ensures Union(Observed(s, d).shards) == Union(s.shards) + multiset{Clamped(d)}
  {
    UnionUpdate(s.shards, NextShard(s.count), multiset{Clamped(d)});
  }

  function AllObserved(ds: seq<int>): (s: Stripes)
    ensures Striped(s)
  {
    if ds == [] then NoSamples() else Observed(AllObserved(ds[..|ds| - 1]), ds[|ds| - 1])
  }

  function Samples(ds: seq<int>): multiset<int> {
    if ds == [] then multiset{} else Samples(ds[..|ds| - 1]) + multiset{Clamped(ds[|ds| - 1])}
  }

  /** Sixteen stripes hold what one histogram would. */
  lemma {:induction false} StripesHoldOneHistogram(ds: seq<int>)
    ensures Union(AllObserved(ds).shards) == Samples(ds)
  {
    if ds == [] {
      UnionEmpty(NoSamples().shards);
    } else {
      var before := ds[..|ds| - 1];
      StripesHoldOneHistogram(before);
      ObservedContents(AllObserved(before), ds[|ds| - 1]);
    }
  }

  /** Samples that n observations put into shard `i`. */
  function Share(i: nat, n: nat): nat
    requires i < SHARDS
  {
    (n + (SHARDS - i) % SHARDS) / SHARDS
  }

  lemma NextShardIgnoresWrap(n: nat)
    ensures NextShard(n % UINT32) == (n + 1) % SHARDS
  {
    assert UINT32 == SHARDS * 0x1000_0000;
    var q := n / UINT32;
    assert n == q * UINT32 + n % UINT32;
    var r := n % UINT32 + 1;
    if r == UINT32 {
      assert n + 1 == (q + 1) * UINT32;
      MultipleRemainder((q + 1) * 0x1000_0000, 0);
    } else {
      MultipleRemainder(q * 0x1000_0000, r);
      assert n + 1 == SHARDS * (q * 0x1000_0000) + r;
    }
  }

  lemma MultipleRemainder(q: nat, r: nat)
    ensures (SHARDS * q + r) % SHARDS == r % SHARDS
  {}

  lemma ShareStep(i: nat, n: nat)
    requires i < SHARDS
    ensures Share(i, n + 1) == Share(i, n) + (if i == (n + 1) % SHARDS then 1 else 0)
  {
    var a := (SHARDS - i) % SHARDS;
    var q, r := (n + a) / SHARDS, (n + a) % SHARDS;
    assert n + a == SHARDS * q + r;
    if r == SHARDS - 1 {
      assert n + 1 + a == SHARDS * (q + 1);
    } else {
      assert n + 1 + a == SHARDS * q + (r + 1);
    }
  }

  /** Past any number of wraps of the counter every shard has exactly its share. */
  lemma {:induction false} ShardOccupancy(ds: seq<int>, i: nat)
    requires i < SHARDS
    ensures AllObserved(ds).count == |ds| % UINT32
    ensures |AllObserved(ds).shards[i]| == Share(i, |ds|)
  {
    if ds != [] {
      var n := |ds| - 1;
      ShardOccupancy(ds[..n], i);
      NextShardIgnoresWrap(n);
      ShareStep(i, n);
      CountWraps(n);
    }
  }

  lemma CountWraps(n: nat)
    ensures (n % UINT32 + 1) % UINT32 == (n + 1) % UINT32
  {}

  /** No two shards ever differ by more than one sample. */
  lemma ShardsBalanced(ds: seq<int>, i: nat, j: nat)
    requires i < SHARDS && j < SHARDS
    ensures |AllObserved(ds).shards[i]| <= |AllObserved(ds).shards[j]| + 1
  {
    ShardOccupancy(ds, i);
    ShardOccupancy(ds, j);
  }

  // ---------- Tag variants ----------

  /** An observation of `d` under one of several tag combinations. */
  datatype Tagged = Tagged(variant: nat, d: int)

  function Durations(obs: seq<Tagged>): seq<int> {
    if obs == [] then [] else Durations(obs[..|obs| - 1]) + [obs[|obs| - 1].d]
  }

  function OfVariant(obs: seq<Tagged>, v: nat): seq<int> {
    if obs == [] then []
    else
      var o := obs[|obs| - 1];
      OfVariant(obs[..|obs| - 1], v) + (if o.variant == v then [o.d] else [])
  }

  function VariantContents(obs: seq<Tagged>, v: nat): multiset<int> {
    Union(AllObserved(OfVariant(obs, v)).shards)
  }

  /** The stripes of the first `n` variants, each merged. */
  function Variants(obs: seq<Tagged>, n: nat): seq<multiset<int>> {
    seq(n, (v: nat) => VariantContents(obs, v))
  }

  lemma VariantStep(obs: seq<Tagged>, o: Tagged, v: nat)
    ensures VariantContents(obs + [o], v) ==
            if o.variant == v then VariantContents(obs, v) + multiset{Clamped(o.d)} else VariantContents(obs, v)
  {
    assert (obs + [o])[..|obs|] == obs;
    var before, after := OfVariant(obs, v), OfVariant(obs + [o], v);
    StripesHoldOneHistogram(before);
    StripesHoldOneHistogram(after);
    if o.variant == v {
      assert after == before + [o.d] && after[..|before|] == before;
    } else {
      assert after == before;
    }
  }

  lemma VariantsStep(obs: seq<Tagged>, o: Tagged, n: nat)
    requires o.variant < n
    ensures Union(Variants(obs + [o], n)) == Union(Variants(obs, n)) + multiset{Clamped(o.d)}
  {
    forall v: nat | v < n ensures VariantContents(obs + [o], v) ==
      if o.variant == v then VariantContents(obs, v) + multiset{Clamped(o.d)} else VariantContents(obs, v)
    {
      VariantStep(obs, o, v);
    }
    var before, after := Variants(obs, n), Variants(obs + [o], n);
    assert after == before[o.variant := before[o.variant] + multiset{Clamped(o.d)}];
    UnionUpdate(before, o.variant, multiset{Clamped(o.d)});
  }

  lemma SamplesStep(obs: seq<Tagged>, o: Tagged)
    ensures Samples(Durations(obs + [o])) == Samples(Durations(obs)) + multiset{Clamped(o.d)}
  {
    assert (obs + [o])[..|obs|] == obs;
    var before, after := Durations(obs), Durations(obs + [o]);
    assert after == before + [o.d] && after[..|before|] == before;
  }

  /** However the observations are split over tag combinations, merging gives all of them back. */
  lemma {:induction false} SplitOverTagsIsLossless(obs: seq<Tagged>, n: nat)
    requires forall k :: 0 <= k < |obs| ==> obs[k].variant < n
    ensures Union(Variants(obs, n)) == Samples(Durations(obs))
  {
    if obs == [] {
      StripesHoldOneHistogram([]);
      UnionEmpty(Variants([], n));
    } else {
      var before, o := obs[..|obs| - 1], obs[|obs| - 1];
      SplitOverTagsIsLossless(before, n);
      assert before + [o] == obs;
      VariantsStep(before, o, n);
      SamplesStep(before, o);
    }
  }

  // ---------- Objects ----------

  lemma Swap(a: multiset<int>, x: multiset<int>, b: multiset<int>)
    ensures (a + x) + b == (a + b) + x
  {}

  class StripedHistogram {
    const shards: array<multiset<int>>
    var count: nat
    var histograms: seq<multiset<int>>

    ghost predicate Valid()
      reads this
    {
      shards.Length == SHARDS && count < UINT32
    }

    ghost function Value(): Stripes
      reads this, shards
    {
      Stripes(count, shards[..])
    }

    /** Everything recorded: the stripes and the histograms handed over by VUs. */
    ghost function Contents(): multiset<int>
      reads this, shards
    {
      Union(shards[..]) + Union(histograms)
    }

    constructor ()
      ensures Valid() && fresh(shards) && Value() == NoSamples() && histograms == [] && Contents() == multiset{}
    {
      shards := new multiset<int>[SHARDS](_ => multiset{});
      count := 0;
      histograms := [];
      new;
      UnionEmpty(shards[..]);
      assert shards[..] == NoSamples().shards;
    }

    method Observe(d: int)
      requires Valid()
      modifies this`count, shards
      ensures Valid() && Value() == Observed(old(Value()), d)
      ensures Contents() == old(Contents()) + multiset{Clamped(d)}
    {
      var us := Clamp(d);
      count := (count + 1) % UINT32;
      var i := count % SHARDS;
      RecordValue(i, us);
    }

    method Clamp(d: int) returns (us: int)
      ensures us == Clamped(d)
    {
      us := Truncated(d, 1000);
      if us < MIN_VALUE {
        us := MIN_VALUE;
      }
      if us > MAX_VALUE {
        us := MAX_VALUE;
      }
    }

    /** One sample into one stripe. */
    method RecordValue(i: nat, us: int)
      requires i < shards.Length
      modifies shards
      ensures shards[..] == old(shards[..])[i := old(shards[..])[i] + multiset{us}]
      ensures Contents() == old(Contents()) + multiset{us}
    {
      UnionUpdate(shards[..], i, multiset{us});
      ghost var before := shards[..];
      shards[i] := shards[i] + multiset{us};
      assert shards[..] == before[i := before[i] + multiset{us}];
      Swap(Union(before), multiset{us}, Union(histograms));
    }

    method AddHistogram(hist: multiset<int>)
      requires Valid()
      modifies this`histograms
      ensures Valid() && Value() == old(Value()) && histograms == old(histograms) + [hist]
      ensures Contents() == old(Contents()) + hist
    {
      histograms := histograms + [hist];
      assert histograms[..|histograms| - 1] == old(histograms);
    }

    /** Collects the stripes and the extra histograms of a tag variant. */
    method TakeFrom(h: StripedHistogram)
      requires Valid() && h.Valid() && h != this
      modifies this`histograms
      ensures Union(histograms) == Union(old(histograms)) + h.Contents()
    {
      for i := 0 to SHARDS
        invariant Union(histograms) == Union(old(histograms)) + Union(h.shards[..i])
      {
        assert h.shards[..i + 1][..i] == h.shards[..i];
        if |h.shards[i]| > 0 {
          UnionAppend(histograms, [h.shards[i]]);
          assert [h.shards[i]][..0] == [];
          histograms := histograms + [h.shards[i]];
        }
      }
      assert h.shards[..SHARDS] == h.shards[..];
      UnionAppend(histograms, h.histograms);
      histograms := histograms + h.histograms;
    }

    method TakeAll(all: seq<StripedHistogram>)
      requires Valid() && forall h :: h in all ==> h != this && h.Valid()
      modifies this`histograms
      ensures Valid() && Contents() == old(Contents()) + old(AllContents(all))
    {
      for k := 0 to |all|
        invariant Union(histograms) == Union(old(histograms)) + old(AllContents(all[..k]))
      {
        assert all[..k + 1][..k] == all[..k];
        TakeFrom(all[k]);
      }
      assert all[..|all|] == all;
    }

    method Snapshot() returns (merged: multiset<int>)
      requires Valid()
      ensures merged == Contents()
    {
      merged := multiset{};
      for i := 0 to SHARDS
        invariant merged == Union(shards[..i])
      {
        assert shards[..i + 1][..i] == shards[..i];
        if |shards[i]| > 0 {
          merged := merged + shards[i];
        }
      }
      assert shards[..SHARDS] == shards[..];
      for i := 0 to |histograms|
        invariant merged == Union(shards[..]) + Union(histograms[..i])
      {
        assert histograms[..i + 1][..i] == histograms[..i];
        merged := merged + histograms[i];
      }
      assert histograms[..|histograms|] == histograms;
    }
  }

  /** What the tag variants hold together. */
  ghost function AllContents(all: seq<StripedHistogram>): multiset<int>
    reads all, set h | h in all :: h.shards
  {
    if all == [] then multiset{} else AllContents(all[..|all| - 1]) + all[|all| - 1].Contents()
  }

  /** The tag variants of one name, merged through a fresh histogram. */
  method MergedHistogramSnapshot(all: seq<StripedHistogram>) returns (merged: multiset<int>)
    requires forall h :: h in all ==> h.Valid()
    ensures merged == AllContents(all)
  {
    if |all| == 0 {
      return multiset{};
    }
    if |all| == 1 {
      merged := all[0].Snapshot();
      assert all[..0] == [];
      return;
    }
    merged := MergedAll(all);
  }

  /** The general case: collect everything in a fresh histogram and snapshot that. */
  method MergedAll(all: seq<StripedHistogram>) returns (merged: multiset<int>)
    requires forall h :: h in all ==> h.Valid()
    ensures merged == old(AllContents(all))
  {
    var m := new StripedHistogram();
    assert AllContents(all) == old(AllContents(all));
    m.TakeAll(all);
    merged := m.Snapshot();
  }
}
