/**
 Observations and snapshots of one striped histogram, interleaved: an observation draws its
 shard from the atomic counter and then records under the shard's lock; a snapshot locks
 and merges one shard after the other (internal/metric/histogram.go:53-67, 97-116).
 */
module HistogramRaces {
  import opened Histogram

  /** A call of Observe with a duration that has drawn its shard. */
  datatype Call = Call(d: int, shard: nat, recorded: bool)

  /** `base` remembers the shards as they were when the running snapshot began. */
  datatype Scan = Resting | Merging(next: nat, merged: multiset<int>, base: seq<multiset<int>>)

  datatype State = State(drawn: nat, calls: seq<Call>, shards: seq<multiset<int>>, scan: Scan)

  datatype Act = Draw(d: int) | Record(i: nat) | StartSnapshot | MergeShard | FinishSnapshot

  function Init(): State {
    State(0, [], NoSamples().shards, Resting)
  }

  predicate Enabled(s: State, act: Act) {
    match act
    case Draw(_) => true
    case Record(i) => i < |s.calls| && !s.calls[i].recorded && s.calls[i].shard < |s.shards|
    case StartSnapshot => s.scan == Resting
    case MergeShard => s.scan.Merging? && s.scan.next < |s.shards|
    case FinishSnapshot => s.scan.Merging? && s.scan.next == |s.shards|
  }

  function Next(s: State, act: Act): State
    requires Enabled(s, act)
  {
    match act
    case Draw(d) =>
      var drawn := (s.drawn + 1) % UINT32;
      s.(drawn := drawn, calls := s.calls + [Call(d, drawn % SHARDS, false)])
    case Record(i) =>
      var c := s.calls[i];
      s.(calls := Finish(s.calls, i), shards := s.shards[c.shard := s.shards[c.shard] + multiset{Clamped(c.d)}])
    case StartSnapshot => s.(scan := Merging(0, multiset{}, s.shards))
    case MergeShard => s.(scan := s.scan.(next := s.scan.next + 1, merged := s.scan.merged + s.shards[s.scan.next]))
    case FinishSnapshot => s.(scan := Resting)
  }

  /** What the calls record: those that have recorded, and all that have drawn. */
  function Recorded(calls: seq<Call>): multiset<int> {
    if calls == [] then multiset{}
    else Recorded(calls[..|calls| - 1]) + (if calls[|calls| - 1].recorded then multiset{Clamped(calls[|calls| - 1].d)} else multiset{})
  }

  function Drawn(calls: seq<Call>): multiset<int> {
    if calls == [] then multiset{} else Drawn(calls[..|calls| - 1]) + multiset{Clamped(calls[|calls| - 1].d)}
  }

  /** Calls that drew shard `i`. */
  function DrewShard(calls: seq<Call>, i: nat): nat {
    if calls == [] then 0 else DrewShard(calls[..|calls| - 1], i) + (if calls[|calls| - 1].shard == i then 1 else 0)
  }

  ghost predicate Below(a: seq<multiset<int>>, b: seq<multiset<int>>) {
    |a| == |b| && forall i :: 0 <= i < |a| ==> a[i] <= b[i]
  }

  ghost predicate ScanInv(s: State) {
    s.scan.Merging? ==>
      && s.scan.next <= SHARDS && |s.scan.base| == SHARDS && Below(s.scan.base, s.shards)
      && Union(s.scan.base[..s.scan.next]) <= s.scan.merged <= Union(s.shards[..s.scan.next])
  }

  ghost predicate Inv(s: State) {
    && |s.shards| == SHARDS
    && s.drawn == |s.calls| % UINT32
    && (forall i :: 0 <= i < |s.calls| ==> s.calls[i].shard < SHARDS)
    && Union(s.shards) == Recorded(s.calls)
    && (forall i :: 0 <= i < SHARDS ==> DrewShard(s.calls, i) == Share(i, |s.calls|))
    && ScanInv(s)
  }

  function Finish(calls: seq<Call>, i: nat): (after: seq<Call>)
    requires i < |calls|
    ensures |after| == |calls|
  {
    calls[i := calls[i].(recorded := true)]
  }

  lemma FinishPrefix(calls: seq<Call>, i: nat)
    requires i < |calls|
    ensures var n := |calls| - 1;
            Finish(calls, i)[..n] == (if i < n then Finish(calls[..n], i) else calls[..n])
  {}

  lemma {:induction false} RecordedUpdate(calls: seq<Call>, i: nat)
    requires i < |calls| && !calls[i].recorded
    ensures Recorded(Finish(calls, i)) == Recorded(calls) + multiset{Clamped(calls[i].d)}
  {
    FinishPrefix(calls, i);
    if i < |calls| - 1 {
      RecordedUpdate(calls[..|calls| - 1], i);
    }
  }

  lemma {:induction false} DrewShardUpdate(calls: seq<Call>, i: nat, j: nat)
    requires i < |calls|
    ensures DrewShard(Finish(calls, i), j) == DrewShard(calls, j)
  {
    FinishPrefix(calls, i);
    if i < |calls| - 1 {
      DrewShardUpdate(calls[..|calls| - 1], i, j);
    }
  }

  lemma {:induction false} UnionMonotone(a: seq<multiset<int>>, b: seq<multiset<int>>)
    requires Below(a, b)
    ensures Union(a) <= Union(b)
  {
    if a != [] {
      UnionMonotone(a[..|a| - 1], b[..|b| - 1]);
    }
  }

  lemma DrawKeepsInv(s: State, d: int)
    requires Inv(s)
    ensures Inv(Next(s, Draw(d)))
  {
    var n := |s.calls|;
    var s' := Next(s, Draw(d));
    assert s'.calls[..n] == s.calls;
    NextShardIgnoresWrap(n);
    CountWraps(n);
    forall i | 0 <= i < SHARDS ensures DrewShard(s'.calls, i) == Share(i, n + 1) {
      ShareStep(i, n);
    }
  }

  lemma RecordKeepsInv(s: State, i: nat)
    requires Inv(s) && Enabled(s, Record(i))
    ensures Inv(Next(s, Record(i)))
  {
    var c := s.calls[i];
    var s' := Next(s, Record(i));
    RecordedUpdate(s.calls, i);
    UnionUpdate(s.shards, c.shard, multiset{Clamped(c.d)});
    forall j | 0 <= j < SHARDS ensures DrewShard(s'.calls, j) == DrewShard(s.calls, j) {
      DrewShardUpdate(s.calls, i, j);
    }
    RecordKeepsScan(s, c.shard, multiset{Clamped(c.d)}, s');
  }

  lemma RecordKeepsScan(s: State, i: nat, m: multiset<int>, s': State)
    requires ScanInv(s) && |s.shards| == SHARDS && i < SHARDS
    requires s'.scan == s.scan && s'.shards == s.shards[i := s.shards[i] + m]
    ensures ScanInv(s')
  {
    if s.scan.Merging? {
      assert Below(s.shards[..s.scan.next], s'.shards[..s.scan.next]);
      UnionMonotone(s.shards[..s.scan.next], s'.shards[..s.scan.next]);
    }
  }

  lemma ScanKeepsInv(s: State)
    requires Inv(s) && Enabled(s, MergeShard)
    ensures Inv(Next(s, MergeShard))
  {
    var k := s.scan.next;
    assert s.shards[..k + 1][..k] == s.shards[..k];
    assert s.scan.base[..k + 1][..k] == s.scan.base[..k];
  }

  lemma StepKeepsInv(s: State, act: Act)
    requires Inv(s) && Enabled(s, act)
    ensures Inv(Next(s, act))
  {
    match act
    case Draw(d) => DrawKeepsInv(s, d);
    case Record(i) => RecordKeepsInv(s, i);
    case StartSnapshot =>
    case MergeShard => ScanKeepsInv(s);
    case FinishSnapshot =>
  }

  // ---------- Runs ----------

  ghost predicate StepAt(acts: seq<Act>, ss: seq<State>, k: nat)
    requires |ss| == |acts| + 1 && k < |acts|
  {
    Enabled(ss[k], acts[k]) && ss[k + 1] == Next(ss[k], acts[k])
  }

  ghost predicate IsRun(acts: seq<Act>, ss: seq<State>) {
    |ss| == |acts| + 1 && ss[0] == Init() && forall k: nat :: k < |acts| ==> StepAt(acts, ss, k)
  }

  lemma {:induction false} RunInv(acts: seq<Act>, ss: seq<State>, k: nat)
    requires IsRun(acts, ss) && k < |ss|
    ensures Inv(ss[k])
  {
    if k == 0 {
      UnionEmpty(NoSamples().shards);
    } else {
      RunInv(acts, ss, k - 1);
      assert StepAt(acts, ss, k - 1);
      StepKeepsInv(ss[k - 1], acts[k - 1]);
    }
  }

  /** The shards hold exactly the samples of the finished calls, whatever the interleaving. */
  lemma ShardsHoldFinishedCalls(acts: seq<Act>, ss: seq<State>, k: nat)
    requires IsRun(acts, ss) && k < |ss|
    ensures Union(ss[k].shards) == Recorded(ss[k].calls)
    ensures (forall i :: 0 <= i < |ss[k].calls| ==> ss[k].calls[i].recorded) ==> Union(ss[k].shards) == Drawn(ss[k].calls)
  {
    RunInv(acts, ss, k);
    if forall i :: 0 <= i < |ss[k].calls| ==> ss[k].calls[i].recorded {
      AllRecorded(ss[k].calls);
    }
  }

  lemma {:induction false} AllRecorded(calls: seq<Call>)
    requires forall i :: 0 <= i < |calls| ==> calls[i].recorded
    ensures Recorded(calls) == Drawn(calls)
  {
    if calls != [] {
      AllRecorded(calls[..|calls| - 1]);
    }
  }

  /** At no moment, wrapped counter or not, have two shards been drawn more than once apart. */
  lemma DrawsBalanced(acts: seq<Act>, ss: seq<State>, k: nat, i: nat, j: nat)
    requires IsRun(acts, ss) && k < |ss| && i < SHARDS && j < SHARDS
    ensures DrewShard(ss[k].calls, i) <= DrewShard(ss[k].calls, j) + 1
  {
    RunInv(acts, ss, k);
  }

  /** Between its start and its end a snapshot sees the shards it remembers and no others. */
  lemma {:induction false} SnapshotBase(acts: seq<Act>, ss: seq<State>, p: nat, k: nat)
    requires IsRun(acts, ss) && p < k < |ss| && acts[p] == StartSnapshot
    requires forall q :: p < q < k ==> acts[q] != FinishSnapshot
    ensures ss[k].scan.Merging? && ss[k].scan.base == ss[p].shards
  {
    assert StepAt(acts, ss, k - 1);
    if k > p + 1 {
      SnapshotBase(acts, ss, p, k - 1);
    }
  }

  /**
   A snapshot begun at `p` and finished at `q` contains every observation finished before it
   began and nothing that was not recorded by its end.
   */
  lemma SnapshotIsBracketed(acts: seq<Act>, ss: seq<State>, p: nat, q: nat)
    requires IsRun(acts, ss) && p < q < |acts| && acts[p] == StartSnapshot && acts[q] == FinishSnapshot
    requires forall k :: p < k < q ==> acts[k] != FinishSnapshot
    ensures ss[q].scan.Merging? && Recorded(ss[p].calls) <= ss[q].scan.merged <= Recorded(ss[q].calls)
  {
    SnapshotBase(acts, ss, p, q);
    RunInv(acts, ss, p);
    RunInv(acts, ss, q);
    assert StepAt(acts, ss, q);
    var s := ss[q];
    assert s.shards[..s.scan.next] == s.shards && s.scan.base[..s.scan.next] == s.scan.base;
  }
}
