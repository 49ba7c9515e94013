/**
 Any number of concurrent Next calls on a shared queue: each call adds to the cursor
 atomically and then reads the records (pkg/vuhive/data/dataset.go:70-75).
 */
module SharedQueues {
  import opened Arithmetic
  import opened DataSets

  datatype Call = Waiting | Drawn(index: int) | Finished(outcome: Outcome)

  /** `order` remembers which call made which draw. */
  datatype State = State(cursor: int, calls: seq<Call>, order: seq<nat>)

  const INIT := State(0, [], [])

  datatype Act = Begin | Draw(c: nat) | Read(c: nat)

  predicate Enabled(s: State, act: Act) {
    match act
    case Begin => true
    case Draw(c) => c < |s.calls| && s.calls[c] == Waiting
    case Read(c) => c < |s.calls| && s.calls[c].Drawn?
  }

  function Next(n: nat, s: State, act: Act): State
    requires n > 0 && Enabled(s, act)
  {
    match act
    case Begin => s.(calls := s.calls + [Waiting])
    case Draw(c) =>
      var cursor := Wrap(s.cursor + 1);
      s.(cursor := cursor, calls := s.calls[c := Drawn(Wrap(cursor - 1))], order := s.order + [c])
    case Read(c) => s.(calls := s.calls[c := Finished(QueueOutcome(s.calls[c].index, n))])
  }

  // ---------- Invariant ----------

  /** The call that made draw k holds, or was answered from, the k-th value of the cursor. */
  predicate DrawInv(n: nat, s: State, k: nat)
    requires n > 0 && k < |s.order|
  {
    && s.order[k] < |s.calls|
    && match s.calls[s.order[k]]
       case Waiting => false
       case Drawn(index) => index == Wrap(k)
       case Finished(outcome) => outcome == QueueOutcome(Wrap(k), n)
  }

  ghost predicate Inv(n: nat, s: State)
    requires n > 0
  {
    && s.cursor == Wrap(|s.order|)
    && (forall k :: 0 <= k < |s.order| ==> DrawInv(n, s, k))
    && (forall j, k :: 0 <= j < k < |s.order| ==> s.order[j] != s.order[k])
    && (forall c :: 0 <= c < |s.calls| && s.calls[c] != Waiting ==> c in s.order)
  }

  lemma WrapAdds(k: int, d: int)
    ensures Wrap(Wrap(k) + d) == Wrap(k + d)
  {
    var q := WrapIsCongruent(k);
    WrapPeriodic(k + d, -q);
  }

  lemma WrapPeriodic(x: int, q: int)
    ensures Wrap(x + q * TWO_64) == Wrap(x)
  {
  }

  lemma WrapStep(k: nat)
    ensures Wrap(Wrap(k) + 1) == Wrap(k + 1) && Wrap(Wrap(k + 1) - 1) == Wrap(k)
  {
    WrapAdds(k, 1);
    WrapAdds(k + 1, -1);
  }

  lemma DrawKeepsInv(n: nat, s: State, c: nat)
    requires n > 0 && Inv(n, s) && Enabled(s, Draw(c))
    ensures Inv(n, Next(n, s, Draw(c)))
  {
    var s' := Next(n, s, Draw(c));
    var m := |s.order|;
    WrapStep(m);
    forall k | 0 <= k < m ensures s.order[k] != c && DrawInv(n, s', k) {
      assert DrawInv(n, s, k);
    }
    assert DrawInv(n, s', m);
    assert forall d :: d in s.order ==> d in s'.order;
    assert s'.order[m] == c;
  }

  lemma ReadKeepsInv(n: nat, s: State, c: nat)
    requires n > 0 && Inv(n, s) && Enabled(s, Read(c))
    ensures Inv(n, Next(n, s, Read(c)))
  {
    var s' := Next(n, s, Read(c));
    forall k | 0 <= k < |s.order| ensures DrawInv(n, s', k) {
      assert DrawInv(n, s, k);
    }
  }

  lemma StepKeepsInv(n: nat, s: State, act: Act)
    requires n > 0 && Inv(n, s) && Enabled(s, act)
    ensures Inv(n, Next(n, s, act))
  {
    match act
    case Begin =>
      var s' := Next(n, s, act);
      forall k | 0 <= k < |s.order| ensures DrawInv(n, s', k) {
        assert DrawInv(n, s, k);
      }
    case Draw(c) => DrawKeepsInv(n, s, c);
    case Read(c) => ReadKeepsInv(n, s, c);
  }

  // ---------- Runs ----------

  ghost predicate StepAt(n: nat, acts: seq<Act>, ss: seq<State>, k: nat)
    requires n > 0 && |ss| == |acts| + 1 && k < |acts|
  {
    Enabled(ss[k], acts[k]) && ss[k + 1] == Next(n, ss[k], acts[k])
  }

  ghost predicate IsRun(n: nat, acts: seq<Act>, ss: seq<State>)
    requires n > 0
  {
    |ss| == |acts| + 1 && ss[0] == INIT && forall k: nat :: k < |acts| ==> StepAt(n, acts, ss, k)
  }

  lemma {:induction false} RunInv(n: nat, acts: seq<Act>, ss: seq<State>, k: nat)
    requires n > 0 && IsRun(n, acts, ss) && k < |ss|
    ensures Inv(n, ss[k])
  {
    if k > 0 {
      RunInv(n, acts, ss, k - 1);
      assert StepAt(n, acts, ss, k - 1);
      StepKeepsInv(n, ss[k - 1], acts[k - 1]);
    }
  }

  /** Answers given so far come from draws, one each; draw k is answered by record k, then by exhaustion. */
  lemma AnswersFollowDraws(n: nat, acts: seq<Act>, ss: seq<State>, p: nat, c: nat) returns (k: nat)
    requires n > 0 && IsRun(n, acts, ss) && p < |ss|
    requires c < |ss[p].calls| && ss[p].calls[c].Finished?
    ensures k < |ss[p].order| && ss[p].order[k] == c && ss[p].calls[c].outcome == QueueOutcome(Wrap(k), n)
    ensures |ss[p].order| <= TWO_63 ==> ss[p].calls[c].outcome == if k < n then Record(k) else Exhausted
  {
    RunInv(n, acts, ss, p);
    k :| 0 <= k < |ss[p].order| && ss[p].order[k] == c;
    assert DrawInv(n, ss[p], k);
  }

  /** Up to 2^63 draws no record is handed out twice, and none is handed out of range. */
  lemma EachRecordAtMostOnce(n: nat, acts: seq<Act>, ss: seq<State>, p: nat, c: nat, d: nat)
    requires n > 0 && IsRun(n, acts, ss) && p < |ss| && |ss[p].order| <= TWO_63
    requires c < |ss[p].calls| && ss[p].calls[c].Finished? && ss[p].calls[c].outcome.Record?
    requires d < |ss[p].calls| && ss[p].calls[d].Finished? && ss[p].calls[d].outcome == ss[p].calls[c].outcome
    ensures c == d && ss[p].calls[c].outcome.index < n
  {
    var j := AnswersFollowDraws(n, acts, ss, p, c);
    var k := AnswersFollowDraws(n, acts, ss, p, d);
  }

  ghost predicate AllFinished(s: State) {
    forall c :: 0 <= c < |s.calls| ==> s.calls[c].Finished?
  }

  /** When all calls are done, the first n draws have dispensed every record and the rest report exhaustion. */
  lemma EveryRecordDispensed(n: nat, acts: seq<Act>, ss: seq<State>, p: nat, k: nat)
    requires n > 0 && IsRun(n, acts, ss) && p < |ss| && |ss[p].order| <= TWO_63
    requires AllFinished(ss[p]) && k < |ss[p].order|
    ensures ss[p].order[k] < |ss[p].calls|
    ensures ss[p].calls[ss[p].order[k]] == Finished(if k < n then Record(k) else Exhausted)
  {
    RunInv(n, acts, ss, p);
    assert DrawInv(n, ss[p], k);
  }

  /** A draw after the n-th is never answered with a record again, however late it is read. */
  lemma ExhaustedForever(n: nat, acts: seq<Act>, ss: seq<State>, p: nat, q: nat)
    requires n > 0 && IsRun(n, acts, ss) && p < |acts| && p < q < |ss| && |ss[q].order| <= TWO_63
    requires acts[p].Draw? && |ss[p].order| >= n
    ensures acts[p].c < |ss[q].calls| && ss[q].calls[acts[p].c] != Waiting
    ensures ss[q].calls[acts[p].c].Finished? ==> ss[q].calls[acts[p].c].outcome == Exhausted
  {
    var k := |ss[p].order|;
    assert StepAt(n, acts, ss, p);
    OrderGrows(n, acts, ss, p + 1, q);
    RunInv(n, acts, ss, q);
    assert DrawInv(n, ss[q], k);
  }

  lemma {:induction false} OrderGrows(n: nat, acts: seq<Act>, ss: seq<State>, p: nat, q: nat)
    requires n > 0 && IsRun(n, acts, ss) && p <= q < |ss|
    ensures |ss[p].order| <= |ss[q].order| && forall k :: 0 <= k < |ss[p].order| ==> ss[q].order[k] == ss[p].order[k]
  {
    if p < q {
      OrderGrows(n, acts, ss, p, q - 1);
      assert StepAt(n, acts, ss, q - 1);
    }
  }

  /** What the k-th call of a queue is promised. */
  function Promised(k: nat, n: nat): Outcome {
    if k < n then Record(k) else Exhausted
  }

  lemma WrappedPromise(k: nat, n: nat)
    requires 0 < n < TWO_63
    ensures QueueOutcome(Wrap(k), n) == Promised(k, n) <==> k < n || Wrap(k) >= n
    ensures k < TWO_64 ==> (QueueOutcome(Wrap(k), n) == Promised(k, n) <==> k < TWO_63)
  {}

  /**
   In every run a draw is answered as promised if and only if it is one of the first n or the cursor stands, wrapped
   or not, at or past the end; within the first 2^64 draws that is: exactly while the cursor has not wrapped.
   */
  lemma PromiseHoldsIffNotWrapped(n: nat, acts: seq<Act>, ss: seq<State>, p: nat, c: nat) returns (k: nat)
    requires 0 < n < TWO_63 && IsRun(n, acts, ss) && p < |ss|
    requires c < |ss[p].calls| && ss[p].calls[c].Finished?
    ensures k < |ss[p].order| && ss[p].order[k] == c
    ensures ss[p].calls[c].outcome == Promised(k, n) <==> k < n || Wrap(k) >= n
    ensures k < TWO_64 ==> (ss[p].calls[c].outcome == Promised(k, n) <==> k < TWO_63)
  {
    k := AnswersFollowDraws(n, acts, ss, p, c);
    WrappedPromise(k, n);
  }
}
