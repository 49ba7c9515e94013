/**
 The merge of all tag variants while observations go on (internal/metric/aggregator.go:64-96): the
 non-empty shards of every variant are collected under their locks, and merged only after all
 locks have been released.  A shard is read one value at a time, with observations in between; each
 value's count is read once, in any order, and none is passed over.
 */
module MergeRaces {
  import opened Histogram

  /**
   `picked` says of each shard visited so far whether it was collected, `unread` are the values still to be
   read from shard `next`, and `base` remembers all shards as they were when the merge began.
   */
  datatype Merge =
    | NoMerge
    | Collecting(picked: seq<bool>, base: seq<multiset<int>>)
    | Summing(picked: seq<bool>, next: nat, unread: set<int>, merged: multiset<int>, base: seq<multiset<int>>)

  /**
   The shards of all variants in order, and after each variant's shards the histograms VUs handed over;
   `values` are those a histogram has counts for.
   */
  datatype Variants = Variants(values: set<int>, shards: seq<multiset<int>>, merge: Merge)

  datatype MergeAct = Observe(i: nat, us: int) | Start | Collect | Release | ReadCount(us: int) | NextShard | Finish

  predicate CanMove(s: Variants, act: MergeAct) {
    match act
    case Observe(i, us) => i < |s.shards| && us in s.values
    case Start => s.merge == NoMerge
    case Collect => s.merge.Collecting? && |s.merge.picked| < |s.shards|
    case Release => s.merge.Collecting? && |s.merge.picked| == |s.shards|
    case ReadCount(us) => AtShard(s) && s.merge.picked[s.merge.next] && us in s.merge.unread
    case NextShard => AtShard(s) && (!s.merge.picked[s.merge.next] || s.merge.unread == {})
    case Finish => s.merge.Summing? && s.merge.next == |s.shards|
  }

  predicate AtShard(s: Variants) {
    s.merge.Summing? && s.merge.next < |s.shards| && s.merge.next < |s.merge.picked|
  }

  function Move(s: Variants, act: MergeAct): Variants
    requires CanMove(s, act)
  {
    match act
    case Observe(i, us) => s.(shards := s.shards[i := s.shards[i] + multiset{us}])
    case Start => s.(merge := Collecting([], s.shards))
    case Collect => s.(merge := Collecting(s.merge.picked + [|s.shards[|s.merge.picked|]| > 0], s.merge.base))
    case Release => s.(merge := Summing(s.merge.picked, 0, s.values, multiset{}, s.merge.base))
    case ReadCount(us) =>
      var m := s.merge;
      s.(merge := m.(unread := m.unread - {us}, merged := m.merged[us := m.merged[us] + s.shards[m.next][us]]))
    case NextShard => s.(merge := s.merge.(next := s.merge.next + 1, unread := s.values))
    case Finish => s.(merge := NoMerge)
  }

  /** How often a value occurs in the first n shards. */
  function Occurrences(shards: seq<multiset<int>>, n: nat, us: int): nat
    requires n <= |shards|
  {
    if n == 0 then 0 else Occurrences(shards, n - 1, us) + shards[n - 1][us]
  }

  /** ... and in what has been read of the next one. */
  function OccurrencesRead(shards: seq<multiset<int>>, n: nat, unread: set<int>, us: int): nat
    requires n <= |shards|
  {
    Occurrences(shards, n, us) + (if n < |shards| && us !in unread then shards[n][us] else 0)
  }

  /** No value has become rarer. */
  ghost predicate Grown(base: seq<multiset<int>>, shards: seq<multiset<int>>) {
    |base| == |shards| && forall i, us :: 0 <= i < |base| ==> base[i][us] <= shards[i][us]
  }

  ghost predicate InRange(s: Variants) {
    forall i, us :: 0 <= i < |s.shards| && us !in s.values ==> s.shards[i][us] == 0
  }

  /** What was passed over was empty when the merge began. */
  ghost predicate PickedInv(picked: seq<bool>, base: seq<multiset<int>>) {
    |picked| <= |base| && forall i, us :: 0 <= i < |picked| && !picked[i] ==> base[i][us] == 0
  }

  /** For every value: at least the occurrences at the beginning, at most those of now, of all that has been read. */
  ghost predicate SumBetween(s: Variants, us: int)
    requires s.merge.Summing? && s.merge.next <= |s.shards| == |s.merge.base|
  {
    var m := s.merge;
    OccurrencesRead(m.base, m.next, m.unread, us) <= m.merged[us] <= OccurrencesRead(s.shards, m.next, m.unread, us)
  }

  ghost predicate MergeInv(s: Variants) {
    && InRange(s)
    && match s.merge
       case NoMerge => true
       case Collecting(picked, base) => Grown(base, s.shards) && PickedInv(picked, base)
       case Summing(picked, next, unread, merged, base) =>
         && Grown(base, s.shards) && PickedInv(picked, base) && |picked| == |s.shards| && next <= |s.shards|
         && unread <= s.values
         && forall us :: SumBetween(s, us)
  }

  lemma {:induction false} OccurrencesGrow(a: seq<multiset<int>>, b: seq<multiset<int>>, n: nat, us: int)
    requires Grown(a, b) && n <= |a|
    ensures Occurrences(a, n, us) <= Occurrences(b, n, us)
  {
    if n > 0 {
      OccurrencesGrow(a, b, n - 1, us);
    }
  }

  lemma ObserveGrows(s: Variants, i: nat, us: int)
    requires CanMove(s, Observe(i, us))
    ensures Grown(s.shards, Move(s, Observe(i, us)).shards)
  {
  }

  lemma ObserveKeepsMerge(s: Variants, i: nat, us: int)
    requires MergeInv(s) && CanMove(s, Observe(i, us))
    ensures MergeInv(Move(s, Observe(i, us)))
  {
    var s' := Move(s, Observe(i, us));
    ObserveGrows(s, i, us);
    if s.merge.Summing? {
      forall x ensures SumBetween(s', x) {
        assert SumBetween(s, x);
        OccurrencesGrow(s.shards, s'.shards, s.merge.next, x);
      }
    }
  }

  lemma ReadKeepsMerge(s: Variants, us: int)
    requires MergeInv(s) && CanMove(s, ReadCount(us))
    ensures MergeInv(Move(s, ReadCount(us)))
  {
    forall x ensures SumBetween(Move(s, ReadCount(us)), x) {
      assert SumBetween(s, x);
    }
  }

  /** A shard is left when nothing of it is unread; one that was not collected had nothing at the beginning. */
  lemma NextKeepsMerge(s: Variants)
    requires MergeInv(s) && CanMove(s, NextShard)
    ensures MergeInv(Move(s, NextShard))
  {
    forall x ensures SumBetween(Move(s, NextShard), x) {
      assert SumBetween(s, x);
    }
  }

  lemma CollectKeepsMerge(s: Variants)
    requires MergeInv(s) && CanMove(s, Collect)
    ensures MergeInv(Move(s, Collect))
  {
    var i := |s.merge.picked|;
    if |s.shards[i]| == 0 {
      forall us ensures s.merge.base[i][us] == 0 {
        assert s.merge.base[i][us] <= s.shards[i][us] && us !in s.shards[i];
      }
    }
  }

  lemma MoveKeepsMerge(s: Variants, act: MergeAct)
    requires MergeInv(s) && CanMove(s, act)
    ensures MergeInv(Move(s, act))
  {
    match act
    case Observe(i, us) => ObserveKeepsMerge(s, i, us);
    case Collect => CollectKeepsMerge(s);
    case ReadCount(us) => ReadKeepsMerge(s, us);
    case NextShard => NextKeepsMerge(s);
    case _ =>
  }

  // ---------- Runs ----------

  ghost predicate MoveAt(acts: seq<MergeAct>, ss: seq<Variants>, k: nat)
    requires |ss| == |acts| + 1 && k < |acts|
  {
    CanMove(ss[k], acts[k]) && ss[k + 1] == Move(ss[k], acts[k])
  }

  /** A run from any contents, with no merge under way. */
  ghost predicate IsMergeRun(acts: seq<MergeAct>, ss: seq<Variants>) {
    |ss| == |acts| + 1 && ss[0].merge == NoMerge && InRange(ss[0]) && forall k: nat :: k < |acts| ==> MoveAt(acts, ss, k)
  }

  lemma {:induction false} RunMergeInv(acts: seq<MergeAct>, ss: seq<Variants>, k: nat)
    requires IsMergeRun(acts, ss) && k < |ss|
    ensures MergeInv(ss[k])
  {
    if k > 0 {
      RunMergeInv(acts, ss, k - 1);
      assert MoveAt(acts, ss, k - 1);
      MoveKeepsMerge(ss[k - 1], acts[k - 1]);
    }
  }

  function BaseOf(m: Merge): seq<multiset<int>> {
    if m == NoMerge then [] else m.base
  }

  lemma {:induction false} MergeBase(acts: seq<MergeAct>, ss: seq<Variants>, p: nat, k: nat)
    requires IsMergeRun(acts, ss) && p < k < |ss| && acts[p] == Start
    requires forall q :: p < q < k ==> acts[q] != Finish
    ensures ss[k].merge != NoMerge && BaseOf(ss[k].merge) == ss[p].shards
  {
    assert MoveAt(acts, ss, k - 1);
    if k > p + 1 {
      MergeBase(acts, ss, p, k - 1);
    }
  }

  lemma {:induction false} UnionCounts(shards: seq<multiset<int>>, us: int)
    ensures Union(shards)[us] == Occurrences(shards, |shards|, us)
  {
    if shards != [] {
      var n := |shards| - 1;
      UnionCounts(shards[..n], us);
      PrefixOccurrences(shards, n, n, us);
    }
  }

  lemma {:induction false} PrefixOccurrences(shards: seq<multiset<int>>, m: nat, n: nat, us: int)
    requires n <= m <= |shards|
    ensures Occurrences(shards[..m], n, us) == Occurrences(shards, n, us)
  {
    if n > 0 {
      PrefixOccurrences(shards, m, n - 1, us);
    }
  }

  /**
   A merge begun at `p` and finished at `q` has every value at least as often as it had been recorded when
   it began and at most as often as by its end, although nothing keeps the shards from changing while they are read.
   The lower bound supposes that every value of a collected shard is read: NextShard waits until none is unread.
   */
  lemma MergeIsBracketed(acts: seq<MergeAct>, ss: seq<Variants>, p: nat, q: nat)
    requires IsMergeRun(acts, ss) && p < q < |acts| && acts[p] == Start && acts[q] == Finish
    requires forall k :: p < k < q ==> acts[k] != Finish
    ensures ss[q].merge.Summing? && Union(ss[p].shards) <= ss[q].merge.merged <= Union(ss[q].shards)
  {
    MergeBase(acts, ss, p, q);
    RunMergeInv(acts, ss, q);
    assert MoveAt(acts, ss, q);
    var s := ss[q];
    forall us ensures Union(ss[p].shards)[us] <= s.merge.merged[us] <= Union(s.shards)[us] {
      assert SumBetween(s, us);
      UnionCounts(ss[p].shards, us);
      UnionCounts(s.shards, us);
    }
  }
}
