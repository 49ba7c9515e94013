/**
 A report that is taken while checks are being recorded (internal/metric/aggregator.go:149-195 over
 internal/metric/collector.go:120-129): the published map is loaded once, then its counters are read one
 after another, in any order, with everything of `CheckRuns` going on in between.
 */
module CheckReads {
  import opened TagKeys
  import opened Checks
  import opened CheckSummaries
  import opened CheckRuns

  /** `left` are the counters still to be read, `base` remembers the state in which the map was loaded. */
  datatype Reader = NotReading | Reading(left: set<MetricKey>, read: Values, base: State)

  datatype World = World(s: State, reader: Reader)

  datatype WorldAct = ByWorld(act: Act) | LoadMap | ReadCounter(key: MetricKey) | Report

  predicate CanMove(w: World, act: WorldAct) {
    match act
    case ByWorld(a) => Enabled(w.s, a)
    case LoadMap => w.reader == NotReading
    case ReadCounter(key) =>
      && w.reader.Reading? && key in w.reader.left
      && key in w.reader.base.published && w.reader.base.published[key] < |w.s.values|
    case Report => w.reader.Reading? && w.reader.left == {}
  }

  function Move(w: World, act: WorldAct): World
    requires CanMove(w, act)
  {
    match act
    case ByWorld(a) => w.(s := Next(w.s, a))
    case LoadMap => w.(reader := Reading(w.s.published.Keys, map[], w.s))
    case ReadCounter(key) =>
      var r := w.reader;
      w.(reader := r.(left := r.left - {key}, read := r.read[key := w.s.values[r.base.published[key]]]))
    case Report => w.(reader := NotReading)
  }

  // ---------- Invariant ----------

  /** The later state has all handles and all finished calls of the earlier one. */
  ghost predicate Follows(base: State, s: State) {
    base.log <= s.log && forall k, h :: HasHandle(base, k, h) ==> HasHandle(s, k, h)
  }

  /** A value read lies between the calls finished when the map was loaded and those finished by now. */
  predicate ReadBetween(base: State, s: State, read: Values, name: string, verdict: bool) {
    var key := CheckKey(name, verdict);
    key in read ==> Calls(base.log, name, verdict) <= read[key] <= Calls(s.log, name, verdict)
  }

  ghost predicate ReaderInv(w: World) {
    w.reader.Reading? ==>
      var r := w.reader;
      && Inv(r.base) && Follows(r.base, w.s)
      && r.left <= r.base.published.Keys && r.read.Keys == r.base.published.Keys - r.left
      && (forall name, verdict :: ReadBetween(r.base, w.s, r.read, name, verdict))
  }

  ghost predicate WorldInv(w: World) {
    Inv(w.s) && ReaderInv(w)
  }

  lemma {:induction false} CallsGrow(log: seq<Checked>, more: seq<Checked>, name: string, verdict: bool)
    requires log <= more
    ensures Calls(log, name, verdict) <= Calls(more, name, verdict)
  {
    if |log| == |more| {
      assert log == more;
    } else {
      assert log <= more[..|more| - 1];
      CallsGrow(log, more[..|more| - 1], name, verdict);
    }
  }

  lemma WorldStepFollows(s: State, act: Act)
    requires Inv(s) && Enabled(s, act)
    ensures Follows(s, Next(s, act))
  {
    HandlesStay(s, act);
  }

  lemma WorldStepKeepsReader(w: World, act: Act)
    requires WorldInv(w) && Enabled(w.s, act) && w.reader.Reading?
    ensures ReaderInv(w.(s := Next(w.s, act)))
  {
    var r, s' := w.reader, Next(w.s, act);
    WorldStepFollows(w.s, act);
    forall name, verdict ensures ReadBetween(r.base, s', r.read, name, verdict) {
      assert ReadBetween(r.base, w.s, r.read, name, verdict);
      CallsGrow(w.s.log, s'.log, name, verdict);
    }
  }

  lemma ReadKeepsReader(w: World, key: MetricKey)
    requires WorldInv(w) && CanMove(w, ReadCounter(key))
    ensures ReaderInv(Move(w, ReadCounter(key)))
  {
    var r, r' := w.reader, Move(w, ReadCounter(key)).reader;
    assert HasHandle(r.base, key, r.base.published[key]);
    assert HasHandle(w.s, key, r.base.published[key]);
    forall name, verdict ensures ReadBetween(r.base, w.s, r'.read, name, verdict) {
      assert ReadBetween(r.base, w.s, r.read, name, verdict) && CountInv(w.s, name, verdict);
      CallsGrow(r.base.log, w.s.log, name, verdict);
    }
  }

  lemma MoveKeepsInv(w: World, act: WorldAct)
    requires WorldInv(w) && CanMove(w, act)
    ensures WorldInv(Move(w, act))
  {
    match act
    case ByWorld(a) =>
      StepKeepsInv(w.s, a);
      if w.reader.Reading? {
        WorldStepKeepsReader(w, a);
      }
    case ReadCounter(key) => ReadKeepsReader(w, key);
    case _ =>
  }

  // ---------- Runs ----------

  ghost predicate MoveAt(acts: seq<WorldAct>, ws: seq<World>, k: nat)
    requires |ws| == |acts| + 1 && k < |acts|
  {
    CanMove(ws[k], acts[k]) && ws[k + 1] == Move(ws[k], acts[k])
  }

  ghost predicate IsWorldRun(acts: seq<WorldAct>, ws: seq<World>) {
    |ws| == |acts| + 1 && ws[0] == World(INIT, NotReading) && forall k: nat :: k < |acts| ==> MoveAt(acts, ws, k)
  }

  lemma {:induction false} WorldRunInv(acts: seq<WorldAct>, ws: seq<World>, k: nat)
    requires IsWorldRun(acts, ws) && k < |ws|
    ensures WorldInv(ws[k])
  {
    if k > 0 {
      WorldRunInv(acts, ws, k - 1);
      assert MoveAt(acts, ws, k - 1);
      MoveKeepsInv(ws[k - 1], acts[k - 1]);
    }
  }

  lemma {:induction false} BaseIsLoad(acts: seq<WorldAct>, ws: seq<World>, p: nat, k: nat)
    requires IsWorldRun(acts, ws) && p < k < |ws| && acts[p] == LoadMap
    requires forall q :: p < q < k ==> acts[q] != Report
    ensures ws[k].reader.Reading? && ws[k].reader.base == ws[p].s
  {
    assert MoveAt(acts, ws, k - 1);
    if k > p + 1 {
      BaseIsLoad(acts, ws, p, k - 1);
    }
  }

  /** What was read for one check and verdict. */
  lemma TallyOfRead(base: State, read: Values, name: string)
    requires PublishedInv(base) && read.Keys == base.published.Keys
    ensures var p, f := CheckKey(name, true), CheckKey(name, false);
            TallyOf(read, read.Keys, name) == Tally(if p in read then read[p] else 0, if f in read then read[f] else 0)
  {
    MatchingKeys(base, name, true);
    MatchingKeys(base, name, false);
    if CheckKey(name, true) in read { SumOne(read, CheckKey(name, true)); }
    if CheckKey(name, false) in read { SumOne(read, CheckKey(name, false)); }
  }

  lemma EntryBetween(w: World, name: string, verdict: bool)
    requires WorldInv(w) && w.reader.Reading? && w.reader.left == {}
    ensures var t := TallyOf(w.reader.read, w.reader.read.Keys, name);
            Calls(w.reader.base.log, name, verdict) <= (if verdict then t.passed else t.failed) <= Calls(w.s.log, name, verdict)
  {
    var r := w.reader;
    TallyOfRead(r.base, r.read, name);
    assert ReadBetween(r.base, w.s, r.read, name, verdict) && CountInv(r.base, name, verdict);
  }

  /** An entry's numbers lie between those of the two logs, and its total and percentage are theirs. */
  predicate Brackets(before: seq<Checked>, after: seq<Checked>, entry: CheckSummary) {
    && Calls(before, entry.name, true) <= entry.passed <= Calls(after, entry.name, true)
    && Calls(before, entry.name, false) <= entry.failed <= Calls(after, entry.name, false)
    && AddsUp(entry)
  }

  lemma EntryIsBracketed(w: World, entry: CheckSummary)
    requires WorldInv(w) && w.reader.Reading? && w.reader.left == {} && EntryOf(w.reader.read, entry)
    ensures Brackets(w.reader.base.log, w.s.log, entry)
  {
    EntryBetween(w, entry.name, true);
    EntryBetween(w, entry.name, false);
    SummaryAddsUp(entry.name, TallyOf(w.reader.read, w.reader.read.Keys, entry.name));
  }

  /**
   A report whose map was loaded at `p` and whose last counter was read by `q`, whatever happened in
   between: each number lies between the calls finished at `p` and those finished by `q`, and total and
   percentage are those of the numbers read; every non-empty name with a call finished at `p` is
   listed, and every listed name had been called by then.
   */
  lemma ReportIsBracketed(acts: seq<WorldAct>, ws: seq<World>, p: nat, q: nat, res: seq<CheckSummary>)
    requires IsWorldRun(acts, ws) && p < q < |acts| && acts[p] == LoadMap && acts[q] == Report
    requires forall k :: p < k < q ==> acts[k] != Report
    requires ws[q].reader.Reading? && Summarises(ws[q].reader.read, res)
    ensures forall i :: 0 <= i < |res| ==> Brackets(ws[p].s.log, ws[q].s.log, res[i])
    ensures forall n :: n != "" && Called(ws[p].s.log, n) ==> n in Names(res)
    ensures Quiescent(ws[p].s) ==> forall n :: n in Names(res) ==> Called(ws[p].s.log, n)
  {
    BaseIsLoad(acts, ws, p, q);
    WorldRunInv(acts, ws, q);
    assert MoveAt(acts, ws, q);
    var w := ws[q];
    forall i | 0 <= i < |res| ensures Brackets(ws[p].s.log, ws[q].s.log, res[i]) {
      assert EntryOf(w.reader.read, res[i]);
      EntryIsBracketed(w, res[i]);
    }
    assert w.reader.read.Keys == w.reader.base.published.Keys;
    forall n ensures (Called(ws[p].s.log, n) ==> Used(w.reader.read.Keys, n))
                     && (Used(w.reader.read.Keys, n) && Quiescent(ws[p].s) ==> Called(ws[p].s.log, n)) {
      UsedIffCalled(ws[p].s, n);
    }
  }
}
