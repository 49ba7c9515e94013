/**
 Checks recorded by any number of VUs at once: each call of recordCheck looks in its own
 cache, obtains the two counters and increments one, interleaved with all others
 (internal/engine/context.go:418-448) and with other metrics.
 */
module CheckRuns {
  import opened TagKeys
  import opened Checks
  import opened CheckSummaries

  datatype Handles = Handles(passed: nat, failed: nat)

  datatype PC =
    | Ready
    | NeedPassed(name: string, verdict: bool)
    | NeedFailed(name: string, verdict: bool, passed: nat)
    | Increment(name: string, verdict: bool, handle: nat)

  datatype Vu = Vu(cache: map<string, Handles>, pc: PC)

  /** `log` remembers the finished calls; a handle is an index into `values`. */
  datatype State = State(published: map<MetricKey, nat>, values: seq<int>, vus: seq<Vu>, log: seq<Checked>)

  datatype Checked = Checked(name: string, verdict: bool)

  const INIT := State(map[], [], [], [])

  /** Foreign stands for any other counter, of whatever tags, being created and added to. */
  datatype Act = NewVu | Check(i: nat, name: string, verdict: bool) | Step(i: nat) | Foreign(key: MetricKey, delta: int)

  predicate Enabled(s: State, act: Act) {
    match act
    case NewVu => true
    case Check(i, _, _) => i < |s.vus| && s.vus[i].pc == Ready
    case Step(i) => i < |s.vus| && s.vus[i].pc != Ready && (s.vus[i].pc.Increment? ==> s.vus[i].pc.handle < |s.values|)
    case Foreign(key, _) => !IsCheck(key) && (key in s.published ==> s.published[key] < |s.values|)
  }

  /** The atomic effect of asking the store for a counter. */
  function Obtain(s: State, key: MetricKey): State {
    if key in s.published then s else s.(published := s.published[key := |s.values|], values := s.values + [0])
  }

  function Handle(s: State, key: MetricKey): nat {
    if key in s.published then s.published[key] else |s.values|
  }

  function Chosen(h: Handles, verdict: bool): nat {
    if verdict then h.passed else h.failed
  }

  function Next(s: State, act: Act): State
    requires Enabled(s, act)
  {
    match act
    case NewVu => s.(vus := s.vus + [Vu(map[], Ready)])
    case Check(i, name, verdict) =>
      var cache := s.vus[i].cache;
      Put(s, i, cache, if name in cache then Increment(name, verdict, Chosen(cache[name], verdict)) else NeedPassed(name, verdict))
    case Foreign(key, delta) =>
      var s1 := Obtain(s, key);
      var h := s1.published[key];
      s1.(values := s1.values[h := s1.values[h] + delta])
    case Step(i) =>
      var cache := s.vus[i].cache;
      match s.vus[i].pc
      case Ready => s
      case NeedPassed(name, verdict) =>
        var key := CheckKey(name, true);
        Put(Obtain(s, key), i, cache, NeedFailed(name, verdict, Handle(s, key)))
      case NeedFailed(name, verdict, passed) =>
        var key := CheckKey(name, false);
        var pair := Handles(passed, Handle(s, key));
        Put(Obtain(s, key), i, cache[name := pair], Increment(name, verdict, Chosen(pair, verdict)))
      case Increment(name, verdict, handle) =>
        Put(s, i, cache, Ready).(values := s.values[handle := s.values[handle] + 1], log := s.log + [Checked(name, verdict)])
  }

  function Put(s: State, i: nat, cache: map<string, Handles>, pc: PC): State
    requires i < |s.vus|
  {
    s.(vus := s.vus[i := Vu(cache, pc)])
  }

  function Calls(log: seq<Checked>, name: string, verdict: bool): nat {
    if log == [] then 0
    else Calls(log[..|log| - 1], name, verdict) + (if log[|log| - 1] == Checked(name, verdict) then 1 else 0)
  }

  // ---------- Invariant ----------

  predicate HasHandle(s: State, key: MetricKey, h: nat) {
    key in s.published && s.published[key] == h
  }

  ghost predicate VuInv(s: State, vu: Vu) {
    && (forall n :: n in vu.cache ==> HasHandle(s, CheckKey(n, true), vu.cache[n].passed) && HasHandle(s, CheckKey(n, false), vu.cache[n].failed))
    && match vu.pc
       case Ready => true
       case NeedPassed(_, _) => true
       case NeedFailed(n, _, p) => HasHandle(s, CheckKey(n, true), p)
       case Increment(n, v, h) => HasHandle(s, CheckKey(n, v), h) && n in vu.cache
  }

  /** Handles are unique and exist, and only checks have the check counters. */
  ghost predicate PublishedInv(s: State) {
    && (forall k :: k in s.published ==> s.published[k] < |s.values|)
    && (forall j, k :: j in s.published && k in s.published && s.published[j] == s.published[k] ==> j == k)
    && (forall k :: k in s.published && IsCheck(k) ==> k == CheckKey(CheckName(k), k.name == PASSED))
  }

  ghost predicate CountInv(s: State, name: string, verdict: bool)
    requires PublishedInv(s)
  {
    var key := CheckKey(name, verdict);
    Calls(s.log, name, verdict) == if key in s.published then s.values[s.published[key]] else 0
  }

  predicate InProgress(vu: Vu, name: string) {
    vu.pc != Ready && vu.pc.name == name
  }

  /** A published check belongs to a call, finished or under way. */
  ghost predicate OriginInv(s: State, key: MetricKey) {
    || (exists j :: 0 <= j < |s.log| && s.log[j].name == CheckName(key))
    || (exists i :: 0 <= i < |s.vus| && InProgress(s.vus[i], CheckName(key)))
  }

  ghost predicate Inv(s: State) {
    && PublishedInv(s)
    && (forall i :: 0 <= i < |s.vus| ==> VuInv(s, s.vus[i]))
    && (forall name, verdict :: CountInv(s, name, verdict))
    && (forall k :: k in s.published && IsCheck(k) ==> OriginInv(s, k))
    && (forall j :: 0 <= j < |s.log| ==> CheckKey(s.log[j].name, true) in s.published && CheckKey(s.log[j].name, false) in s.published)
  }

  lemma ObtainKeepsPublished(s: State, key: MetricKey)
    requires PublishedInv(s) && (IsCheck(key) ==> key == CheckKey(CheckName(key), key.name == PASSED))
    ensures PublishedInv(Obtain(s, key)) && HasHandle(Obtain(s, key), key, Handle(s, key))
    ensures forall k, h :: HasHandle(s, k, h) ==> HasHandle(Obtain(s, key), k, h)
    ensures forall name, verdict :: CountInv(s, name, verdict) ==> CountInv(Obtain(s, key), name, verdict)
  {}

  lemma CheckKeyShape(name: string, verdict: bool)
    ensures var k := CheckKey(name, verdict); IsCheck(k) && CheckName(k) == name && k == CheckKey(CheckName(k), k.name == PASSED)
  {
    KindsDiffer();
    CheckKeyNames(name, verdict);
  }

  /** Published handles stay, so what a VU knows stays true. */
  lemma VuInvStays(s: State, s': State, vu: Vu)
    requires VuInv(s, vu) && forall k, h :: HasHandle(s, k, h) ==> HasHandle(s', k, h)
    ensures VuInv(s', vu)
  {}

  lemma HandlesStay(s: State, act: Act)
    requires Inv(s) && Enabled(s, act)
    ensures forall k, h :: HasHandle(s, k, h) ==> HasHandle(Next(s, act), k, h)
  {}

  lemma StepKeepsVus(s: State, act: Act, i: nat)
    requires Inv(s) && Enabled(s, act) && i < |Next(s, act).vus|
    ensures VuInv(Next(s, act), Next(s, act).vus[i])
  {
    HandlesStay(s, act);
    var s' := Next(s, act);
    if i < |s.vus| {
      VuInvStays(s, s', s.vus[i]);
    }
  }

  lemma StepKeepsPublished(s: State, act: Act)
    requires Inv(s) && Enabled(s, act)
    ensures PublishedInv(Next(s, act))
  {
    if act.Step? && s.vus[act.i].pc.NeedPassed? {
      CheckKeyShape(s.vus[act.i].pc.name, true);
    } else if act.Step? && s.vus[act.i].pc.NeedFailed? {
      CheckKeyShape(s.vus[act.i].pc.name, false);
    }
  }

  /** Incrementing the handle of one key changes the value of that key alone. */
  lemma IncrementHitsOne(s: State, h: nat, mine: MetricKey, key: MetricKey)
    requires PublishedInv(s) && HasHandle(s, mine, h) && key in s.published
    ensures s.values[h := s.values[h] + 1][s.published[key]] == s.values[s.published[key]] + (if key == mine then 1 else 0)
  {}

  lemma CallsStep(log: seq<Checked>, c: Checked, name: string, verdict: bool)
    ensures Calls(log + [c], name, verdict) == Calls(log, name, verdict) + (if CheckKey(name, verdict) == CheckKey(c.name, c.verdict) then 1 else 0)
  {
    assert (log + [c])[..|log|] == log;
    if CheckKey(name, verdict) == CheckKey(c.name, c.verdict) {
      CheckKeysDiffer(name, verdict, c.name, c.verdict);
    }
  }

  lemma IncrementKeepsCount(s: State, i: nat, name: string, verdict: bool)
    requires PublishedInv(s) && CountInv(s, name, verdict) && Enabled(s, Step(i)) && s.vus[i].pc.Increment?
    requires HasHandle(s, CheckKey(s.vus[i].pc.name, s.vus[i].pc.verdict), s.vus[i].pc.handle)
    ensures PublishedInv(Next(s, Step(i))) && CountInv(Next(s, Step(i)), name, verdict)
  {
    var pc := s.vus[i].pc;
    IncrementStep(s, i);
    CountedOnce(s, Next(s, Step(i)), pc.handle, Checked(pc.name, pc.verdict), name, verdict);
  }

  lemma IncrementStep(s: State, i: nat)
    requires Enabled(s, Step(i)) && s.vus[i].pc.Increment?
    ensures var pc, s' := s.vus[i].pc, Next(s, Step(i));
            && s'.published == s.published && s'.values == s.values[pc.handle := s.values[pc.handle] + 1]
            && s'.log == s.log + [Checked(pc.name, pc.verdict)]
  {
  }

  /** Logging a call and incrementing its counter go together. */
  lemma CountedOnce(s: State, s': State, h: nat, call: Checked, name: string, verdict: bool)
    requires PublishedInv(s) && CountInv(s, name, verdict) && HasHandle(s, CheckKey(call.name, call.verdict), h)
    requires s'.published == s.published && s'.values == s.values[h := s.values[h] + 1] && s'.log == s.log + [call]
    ensures PublishedInv(s') && CountInv(s', name, verdict)
  {
    var key, mine := CheckKey(name, verdict), CheckKey(call.name, call.verdict);
    CallsStep(s.log, call, name, verdict);
    if key in s.published {
      IncrementHitsOne(s, h, mine, key);
    }
  }

  lemma ForeignKeepsCount(s: State, key: MetricKey, delta: int, name: string, verdict: bool)
    requires Inv(s) && Enabled(s, Foreign(key, delta)) && PublishedInv(Next(s, Foreign(key, delta)))
    ensures CountInv(Next(s, Foreign(key, delta)), name, verdict)
  {
    assert CountInv(s, name, verdict);
    CheckKeyShape(name, verdict);
    ObtainKeepsPublished(s, key);
  }

  lemma ObtainKeepsCount(s: State, key: MetricKey, name: string, verdict: bool)
    requires PublishedInv(s) && PublishedInv(Obtain(s, key)) && CountInv(s, name, verdict)
    ensures CountInv(Obtain(s, key), name, verdict)
  {}

  lemma StepKeepsCount(s: State, act: Act, name: string, verdict: bool)
    requires Inv(s) && Enabled(s, act) && PublishedInv(Next(s, act))
    ensures CountInv(Next(s, act), name, verdict)
  {
    assert CountInv(s, name, verdict);
    match act
    case NewVu =>
    case Check(_, _, _) =>
    case Foreign(key, delta) => ForeignKeepsCount(s, key, delta, name, verdict);
    case Step(i) =>
      match s.vus[i].pc
      case NeedPassed(n, _) =>
        assert PublishedInv(Obtain(s, CheckKey(n, true)));
        ObtainKeepsCount(s, CheckKey(n, true), name, verdict);
      case NeedFailed(n, _, _) =>
        assert PublishedInv(Obtain(s, CheckKey(n, false)));
        ObtainKeepsCount(s, CheckKey(n, false), name, verdict);
      case Increment(_, _, _) =>
        assert VuInv(s, s.vus[i]);
        IncrementKeepsCount(s, i, name, verdict);
  }

  lemma StepKeepsOrigin(s: State, act: Act, key: MetricKey)
    requires Inv(s) && Enabled(s, act) && key in Next(s, act).published && IsCheck(key)
    ensures OriginInv(Next(s, act), key)
  {
    var s' := Next(s, act);
    if act.Step? {
      CheckKeyShape(s.vus[act.i].pc.name, true);
      CheckKeyShape(s.vus[act.i].pc.name, false);
      assert s'.vus[act.i].pc == Ready ==> s'.log[|s.log|].name == s.vus[act.i].pc.name;
    }
    if key in s.published {
      OriginStays(s, act, key);
    } else {
      assert act.Step? && InProgress(s'.vus[act.i], CheckName(key));
    }
  }

  lemma OriginStays(s: State, act: Act, key: MetricKey)
    requires Enabled(s, act) && OriginInv(s, key)
    ensures OriginInv(Next(s, act), key)
  {
    var s' := Next(s, act);
    if j :| 0 <= j < |s.log| && s.log[j].name == CheckName(key) {
      assert s'.log[j] == s.log[j];
    } else {
      var i :| 0 <= i < |s.vus| && InProgress(s.vus[i], CheckName(key));
      if act.Step? && act.i == i && s.vus[i].pc.Increment? {
        assert s'.log[|s.log|].name == CheckName(key);
      } else {
        assert InProgress(s'.vus[i], CheckName(key));
      }
    }
  }

  lemma StepKeepsInv(s: State, act: Act)
    requires Inv(s) && Enabled(s, act)
    ensures Inv(Next(s, act))
  {
    var s' := Next(s, act);
    StepKeepsPublished(s, act);
    forall i | 0 <= i < |s'.vus| ensures VuInv(s', s'.vus[i]) {
      StepKeepsVus(s, act, i);
    }
    forall name, verdict ensures CountInv(s', name, verdict) {
      StepKeepsCount(s, act, name, verdict);
    }
    forall k | k in s'.published && IsCheck(k) ensures OriginInv(s', k) {
      StepKeepsOrigin(s, act, k);
    }
    HandlesStay(s, act);
    forall j | 0 <= j < |s'.log| ensures CheckKey(s'.log[j].name, true) in s'.published && CheckKey(s'.log[j].name, false) in s'.published {
      LoggedIsPublished(s, act, j);
    }
  }

  lemma LoggedIsPublished(s: State, act: Act, j: nat)
    requires Inv(s) && Enabled(s, act) && j < |Next(s, act).log|
    ensures var s' := Next(s, act);
            CheckKey(s'.log[j].name, true) in s'.published && CheckKey(s'.log[j].name, false) in s'.published
  {
    HandlesStay(s, act);
    if j < |s.log| {
      var p, f := CheckKey(s.log[j].name, true), CheckKey(s.log[j].name, false);
      assert HasHandle(s, p, s.published[p]) && HasHandle(s, f, s.published[f]);
    } else {
      assert VuInv(s, s.vus[act.i]);
    }
  }

  // ---------- Runs ----------

  ghost predicate StepAt(acts: seq<Act>, ss: seq<State>, k: nat)
    requires |ss| == |acts| + 1 && k < |acts|
  {
    Enabled(ss[k], acts[k]) && ss[k + 1] == Next(ss[k], acts[k])
  }

  ghost predicate IsRun(acts: seq<Act>, ss: seq<State>) {
    |ss| == |acts| + 1 && ss[0] == INIT && forall k: nat :: k < |acts| ==> StepAt(acts, ss, k)
  }

  lemma {:induction false} RunInv(acts: seq<Act>, ss: seq<State>, k: nat)
    requires IsRun(acts, ss) && k < |ss|
    ensures Inv(ss[k])
  {
    if k > 0 {
      RunInv(acts, ss, k - 1);
      assert StepAt(acts, ss, k - 1);
      StepKeepsInv(ss[k - 1], acts[k - 1]);
    }
  }

  /** What the report reads. */
  ghost function CounterValues(s: State): Values {
    map k | k in s.published && s.published[k] < |s.values| :: s.values[s.published[k]]
  }

  lemma MatchingKeys(s: State, name: string, verdict: bool)
    requires PublishedInv(s)
    ensures var key := CheckKey(name, verdict);
            Matching(s.published.Keys, key.name, name) == if key in s.published then {key} else {}
  {
    CheckKeyShape(name, verdict);
    KindsDiffer();
    var key := CheckKey(name, verdict);
    forall k | k in s.published && k.name == key.name && CheckName(k) == name ensures k == key {
      assert IsCheck(k);
    }
  }

  lemma SumOne(v: Values, k: MetricKey)
    requires k in v
    ensures Sum(v, {k}) == v[k]
  {
    SumRemove(v, {k}, k);
    assert {k} - {k} == {};
  }

  lemma TallyIsCalls(s: State, name: string)
    requires Inv(s)
    ensures var v := CounterValues(s);
            TallyOf(v, v.Keys, name) == Tally(Calls(s.log, name, true), Calls(s.log, name, false))
  {
    var v := CounterValues(s);
    assert v.Keys == s.published.Keys;
    MatchingKeys(s, name, true);
    MatchingKeys(s, name, false);
    assert CountInv(s, name, true) && CountInv(s, name, false);
    if CheckKey(name, true) in v { SumOne(v, CheckKey(name, true)); }
    if CheckKey(name, false) in v { SumOne(v, CheckKey(name, false)); }
  }

  ghost predicate Quiescent(s: State) {
    forall i :: 0 <= i < |s.vus| ==> s.vus[i].pc == Ready
  }

  ghost predicate Called(log: seq<Checked>, name: string) {
    exists j :: 0 <= j < |log| && log[j].name == name
  }

  /** A finished call's name is listed at once; a listed name was called, or is being called right now. */
  lemma UsedIffCalled(s: State, name: string)
    requires Inv(s)
    ensures Called(s.log, name) ==> Used(s.published.Keys, name)
    ensures Used(s.published.Keys, name) && Quiescent(s) ==> Called(s.log, name)
  {
    if Called(s.log, name) {
      var j :| 0 <= j < |s.log| && s.log[j].name == name;
      CheckKeyShape(name, true);
      assert CheckKey(name, true) in s.published.Keys;
    }
    if Used(s.published.Keys, name) {
      var k :| k in s.published.Keys && IsCheck(k) && CheckName(k) == name;
      assert OriginInv(s, k);
    }
  }

  /** What an entry has to tell of the finished calls under its name. */
  predicate TellsCalls(log: seq<Checked>, entry: CheckSummary) {
    var passed, failed := Calls(log, entry.name, true), Calls(log, entry.name, false);
    && entry.passed == passed && entry.failed == failed && entry.total == passed + failed
    && (passed + failed > 0 ==> entry.passPct * (passed + failed) as real == 100.0 * passed as real)
    && (passed + failed == 0 ==> entry.passPct == 0.0)
    && 0.0 <= entry.passPct <= 100.0
    && (entry.passPct == 100.0 <==> passed > 0 && failed == 0)
  }

  lemma EntryTellsCalls(log: seq<Checked>, entry: CheckSummary)
    requires entry == Summary(entry.name, Tally(Calls(log, entry.name, true), Calls(log, entry.name, false)))
    ensures TellsCalls(log, entry)
  {
    SummaryAddsUp(entry.name, Tally(Calls(log, entry.name, true), Calls(log, entry.name, false)));
  }

  /**
   Whatever the interleaving, at every moment a report tells for every name it lists exactly
   the finished calls, how many there were and how many of a hundred passed, and it lists every
   non-empty name with a finished call.
   */
  lemma ReportIsExact(acts: seq<Act>, ss: seq<State>, k: nat, res: seq<CheckSummary>)
    requires IsRun(acts, ss) && k < |ss| && Summarises(CounterValues(ss[k]), res)
    ensures var log := ss[k].log;
      && (forall i :: 0 <= i < |res| ==> TellsCalls(log, res[i]))
      && (forall n :: n != "" && Called(log, n) ==> n in Names(res))
      && (Quiescent(ss[k]) ==> forall n :: n in Names(res) <==> n != "" && Called(log, n))
  {
    RunInv(acts, ss, k);
    var v := CounterValues(ss[k]);
    assert v.Keys == ss[k].published.Keys;
    forall i | 0 <= i < |res| ensures TellsCalls(ss[k].log, res[i]) {
      assert EntryOf(v, res[i]);
      TallyIsCalls(ss[k], res[i].name);
      EntryTellsCalls(ss[k].log, res[i]);
    }
    forall n ensures (Called(ss[k].log, n) ==> Used(v.Keys, n)) && (Used(v.Keys, n) && Quiescent(ss[k]) ==> Called(ss[k].log, n)) {
      UsedIffCalled(ss[k], n);
    }
  }

  /** The listed totals are the aggregated counters exactly if no finished check had the empty name. */
  lemma TotalsMatchIffNamed(acts: seq<Act>, ss: seq<State>, k: nat, res: seq<CheckSummary>)
    requires IsRun(acts, ss) && k < |ss| && Summarises(CounterValues(ss[k]), res)
    ensures var v := CounterValues(ss[k]);
      !Called(ss[k].log, "") <==>
        (PassedTotal(res) == Sum(v, OfKind(v.Keys, PASSED)) && FailedTotal(res) == Sum(v, OfKind(v.Keys, FAILED)))
  {
    RunInv(acts, ss, k);
    TotalsAreAggregated(CounterValues(ss[k]), res);
    TallyIsCalls(ss[k], "");
    CallsOfUncalled(ss[k].log, "");
  }

  lemma {:induction false} CallsOfUncalled(log: seq<Checked>, name: string)
    ensures Called(log, name) <==> Calls(log, name, true) + Calls(log, name, false) > 0
  {
    if log != [] {
      var n := |log| - 1;
      CallsOfUncalled(log[..n], name);
      if Called(log[..n], name) {
        var j :| 0 <= j < n && log[..n][j].name == name;
        assert log[j].name == name;
      }
      if Called(log, name) {
        var j :| 0 <= j < |log| && log[j].name == name;
        assert j < n ==> log[..n][j].name == name;
        assert j == n ==> log[n] == Checked(name, true) || log[n] == Checked(name, false);
      }
    }
  }

  // ---------- One VU alone ----------

  /** The counters after a number of checks, one after the other. */
  function Recorded(log: seq<Checked>): Values {
    if log == [] then map[]
    else AfterCheck(Recorded(log[..|log| - 1]), log[|log| - 1].name, log[|log| - 1].verdict)
  }

  /** From an empty store, both counters of each name that was checked exist, and each holds the number of its calls. */
  lemma {:induction false} RecordedCounts(log: seq<Checked>, name: string, verdict: bool)
    ensures var key := CheckKey(name, verdict);
            && (key in Recorded(log) <==> Called(log, name))
            && (key in Recorded(log) ==> Recorded(log)[key] == Calls(log, name, verdict))
  {
    CallsOfUncalled(log, name);
    if log != [] {
      var n := |log| - 1;
      var front, last := log[..n], log[n];
      RecordedCounts(front, name, verdict);
      CallsOfUncalled(front, name);
      KeyHit(name, verdict, last.name, true);
      KeyHit(name, verdict, last.name, false);
    }
  }

  lemma KeyHit(name: string, verdict: bool, other: string, passed: bool)
    ensures CheckKey(name, verdict) == CheckKey(other, passed) <==> name == other && verdict == passed
  {
    if CheckKey(name, verdict) == CheckKey(other, passed) {
      CheckKeysDiffer(name, verdict, other, passed);
    }
  }
}
