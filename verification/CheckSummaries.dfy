/** The per-check report (internal/metric/aggregator.go:98-108, 149-195). */
module CheckSummaries {
  import opened Strings
  import opened TagKeys
  import opened Checks

  datatype CheckSummary = CheckSummary(name: string, passed: int, failed: int, total: int, passPct: real)

  datatype Tally = Tally(passed: int, failed: int)

  predicate IsCheck(key: MetricKey) {
    key.name == PASSED || key.name == FAILED
  }

  /** The check a counter belongs to: its tags without the leading "name=". */
  function CheckName(key: MetricKey): string {
    if PREFIX <= key.tagsKey then key.tagsKey[|PREFIX|..] else key.tagsKey
  }

  lemma CheckKeyNames(name: string, passed: bool)
    ensures CheckName(CheckKey(name, passed)) == name
  {}

  ghost function Sum(v: Values, keys: set<MetricKey>): int
    requires keys <= v.Keys
  {
    if keys == {} then 0
    else
      var k :| k in keys;
      v[k] + Sum(v, keys - {k})
  }

  lemma {:induction false} SumRemove(v: Values, keys: set<MetricKey>, k: MetricKey)
    requires keys <= v.Keys && k in keys
    ensures Sum(v, keys) == v[k] + Sum(v, keys - {k})
  {
    var j :| j in keys && Sum(v, keys) == v[j] + Sum(v, keys - {j});
    if j != k {
      SumRemove(v, keys - {j}, k);
      SumRemove(v, keys - {k}, j);
      assert keys - {j} - {k} == keys - {k} - {j};
    }
  }

  lemma SumAdd(v: Values, keys: set<MetricKey>, k: MetricKey)
    requires keys <= v.Keys && k in v && k !in keys
    ensures Sum(v, keys + {k}) == Sum(v, keys) + v[k]
  {
    SumRemove(v, keys + {k}, k);
    assert keys + {k} - {k} == keys;
  }

  lemma {:induction false} SumUnion(v: Values, a: set<MetricKey>, b: set<MetricKey>)
    requires a <= v.Keys && b <= v.Keys && a !! b
    ensures Sum(v, a + b) == Sum(v, a) + Sum(v, b)
  {
    if a == {} {
      assert a + b == b;
    } else {
      var k :| k in a;
      SumUnion(v, a - {k}, b);
      SumRemove(v, a, k);
      SumRemove(v, a + b, k);
      assert a + b - {k} == (a - {k}) + b;
    }
  }

  /** The counters among `keys` of one kind that belong to one check. */
  ghost function Matching(keys: set<MetricKey>, kind: string, check: string): set<MetricKey> {
    set k | k in keys && k.name == kind && CheckName(k) == check
  }

  ghost function OfKind(keys: set<MetricKey>, kind: string): set<MetricKey> {
    set k | k in keys && k.name == kind
  }

  ghost function TallyOf(v: Values, keys: set<MetricKey>, check: string): Tally
    requires keys <= v.Keys
  {
    Tally(Sum(v, Matching(keys, PASSED, check)), Sum(v, Matching(keys, FAILED, check)))
  }

  ghost predicate Used(keys: set<MetricKey>, check: string) {
    exists k :: k in keys && IsCheck(k) && CheckName(k) == check
  }

  lemma MatchingAdd(v: Values, done: set<MetricKey>, k: MetricKey, kind: string, check: string)
    requires done <= v.Keys && k in v && k !in done
    ensures done + {k} <= v.Keys
    ensures Sum(v, Matching(done + {k}, kind, check)) ==
            Sum(v, Matching(done, kind, check)) + (if k.name == kind && CheckName(k) == check then v[k] else 0)
  {
    if k.name == kind && CheckName(k) == check {
      assert Matching(done + {k}, kind, check) == Matching(done, kind, check) + {k};
      SumAdd(v, Matching(done, kind, check), k);
    } else {
      assert Matching(done + {k}, kind, check) == Matching(done, kind, check);
    }
  }

  function Counted(t: Tally, key: MetricKey, value: int): Tally {
    if key.name == PASSED then t.(passed := t.passed + value) else t.(failed := t.failed + value)
  }

  lemma KindsDiffer()
    ensures PASSED != FAILED
  {
    assert PASSED[14] != FAILED[14];
  }

  lemma TallyAdd(v: Values, done: set<MetricKey>, k: MetricKey, check: string)
    requires done <= v.Keys && k in v && k !in done
    ensures done + {k} <= v.Keys
    ensures TallyOf(v, done + {k}, check) ==
            if IsCheck(k) && CheckName(k) == check then Counted(TallyOf(v, done, check), k, v[k]) else TallyOf(v, done, check)
    ensures Used(done + {k}, check) <==> Used(done, check) || (IsCheck(k) && CheckName(k) == check)
  {
    KindsDiffer();
    MatchingAdd(v, done, k, PASSED, check);
    MatchingAdd(v, done, k, FAILED, check);
    assert k in done + {k};
  }

  lemma UnusedTally(v: Values, done: set<MetricKey>, check: string)
    requires done <= v.Keys && !Used(done, check)
    ensures TallyOf(v, done, check) == Tally(0, 0)
  {
    assert Matching(done, PASSED, check) == {} && Matching(done, FAILED, check) == {};
  }

  function Summary(name: string, t: Tally): CheckSummary {
    var total := t.passed + t.failed;
    CheckSummary(name, t.passed, t.failed, total,
                 if total > 0 then (t.passed as real / total as real) * 100.0 else 0.0)
  }

  /**
   The total is the sum of both numbers, and the percentage their share of passed checks: 0.0 without checks, never
   outside 0 to 100, and 100 exactly if some passed and none failed.
   */
  predicate AddsUp(entry: CheckSummary) {
    && entry.total == entry.passed + entry.failed
    && (if entry.total > 0 then entry.passPct * entry.total as real == 100.0 * entry.passed as real else entry.passPct == 0.0)
    && 0.0 <= entry.passPct <= 100.0
    && (entry.passPct == 100.0 <==> entry.passed > 0 && entry.failed == 0)
  }

  lemma SummaryAddsUp(name: string, t: Tally)
    requires t.passed >= 0 && t.failed >= 0
    ensures AddsUp(Summary(name, t))
  {
    var total := t.passed + t.failed;
    if total > 0 {
      Percent(t.passed as real, total as real);
    }
  }

  lemma Percent(part: real, whole: real)
    requires 0.0 <= part <= whole && whole > 0.0
    ensures var pct := (part / whole) * 100.0;
            pct * whole == 100.0 * part && 0.0 <= pct <= 100.0 && (pct == 100.0 <==> part == whole)
  {
    var share := part / whole;
    assert share * whole == part;
    SameSign(share, whole);
    SameSign(1.0 - share, whole);
    assert (1.0 - share) * whole == whole - part;
  }

  lemma SameSign(x: real, whole: real)
    requires whole > 0.0
    ensures (x * whole > 0.0 <==> x > 0.0) && (x * whole == 0.0 <==> x == 0.0)
  {
    if x < 0.0 { assert x * whole < 0.0; }
    if x > 0.0 { assert x * whole > 0.0; }
  }

  /** Two counters of a kind are reported under one name exactly if their keys are equal but for a leading "name=". */
  lemma ShareANameIff(j: MetricKey, k: MetricKey)
    requires j.name == k.name
    ensures CheckName(j) == CheckName(k) <==>
              || j == k
              || (j.tagsKey == PREFIX + k.tagsKey && !(PREFIX <= k.tagsKey))
              || (k.tagsKey == PREFIX + j.tagsKey && !(PREFIX <= j.tagsKey))
  {
    if PREFIX <= j.tagsKey { assert j.tagsKey == PREFIX + CheckName(j); }
    if PREFIX <= k.tagsKey { assert k.tagsKey == PREFIX + CheckName(k); }
  }

  function Names(res: seq<CheckSummary>): (names: seq<string>)
    ensures |names| == |res| && forall i :: 0 <= i < |res| ==> names[i] == res[i].name
  {
    seq(|res|, i requires 0 <= i < |res| => res[i].name)
  }

  ghost predicate EntryOf(v: Values, entry: CheckSummary) {
    entry == Summary(entry.name, TallyOf(v, v.Keys, entry.name))
  }

  /** One entry for every named check, in order, with everything counted under that name. */
  ghost predicate Summarises(v: Values, res: seq<CheckSummary>) {
    && SortedStrings(Names(res)) && Distinct(Names(res))
    && (forall n :: n in Names(res) <==> n != "" && Used(v.Keys, n))
    && forall i :: 0 <= i < |res| ==> EntryOf(v, res[i])
  }

  /** The counters determine the report. */
  lemma ReportIsUnique(v: Values, a: seq<CheckSummary>, b: seq<CheckSummary>)
    requires Summarises(v, a) && Summarises(v, b)
    ensures a == b
  {
    SortedDistinctUnique(Names(a), Names(b));
    forall i | 0 <= i < |a| ensures a[i] == b[i] {
      assert Names(a)[i] == Names(b)[i];
      assert EntryOf(v, a[i]) && EntryOf(v, b[i]);
    }
  }

  /** The map built so far, after the counters in `done` have been visited. */
  ghost predicate Tallied(v: Values, done: set<MetricKey>, checkMap: map<string, Tally>)
    requires done <= v.Keys
  {
    && (forall n :: n in checkMap <==> n != "" && Used(done, n))
    && (forall n :: n in checkMap ==> checkMap[n] == TallyOf(v, done, n))
  }

  /** The callback of the first loop of CheckSummaries, for one counter. */
  method Visit(v: Values, ghost done: set<MetricKey>, checkMap: map<string, Tally>, key: MetricKey) returns (after: map<string, Tally>)
    requires done <= v.Keys && key in v && key !in done && Tallied(v, done, checkMap)
    ensures done + {key} <= v.Keys && Tallied(v, done + {key}, after)
  {
    forall n ensures
      && (Used(done + {key}, n) <==> Used(done, n) || (IsCheck(key) && CheckName(key) == n))
      && TallyOf(v, done + {key}, n) ==
           if IsCheck(key) && CheckName(key) == n then Counted(TallyOf(v, done, n), key, v[key]) else TallyOf(v, done, n)
    {
      TallyAdd(v, done, key, n);
    }
    if !IsCheck(key) {
      return checkMap;
    }
    var checkName := CheckName(key);
    if checkName == "" {
      return checkMap;
    }
    after := checkMap;
    if checkName !in checkMap {
      UnusedTally(v, done, checkName);
      after := checkMap[checkName := Tally(0, 0)];
    }
    after := after[checkName := Counted(after[checkName], key, v[key])];
  }

  /** The tallies by check, whatever order the counters are visited in. */
  method Tallies(v: Values) returns (checkMap: map<string, Tally>)
    ensures Tallied(v, v.Keys, checkMap)
  {
    checkMap := map[];
    var left := v.Keys;
    ghost var done: set<MetricKey> := {};
    while left != {}
      invariant left <= v.Keys && done == v.Keys - left
      invariant Tallied(v, done, checkMap)
      decreases |left|
    {
      var key :| key in left;
      checkMap := Visit(v, done, checkMap, key);
      left := left - {key};
      done := done + {key};
    }
    assert done == v.Keys;
  }

  method CheckSummaries(v: Values) returns (res: seq<CheckSummary>)
    ensures Summarises(v, res)
  {
    var checkMap := Tallies(v);
    var ns := SortedNames(checkMap);
    res := [];
    for i := 0 to |ns|
      invariant Names(res) == ns[..i]
      invariant forall j :: 0 <= j < i ==> EntryOf(v, res[j])
    {
      assert ns[i] in ns;
      res := res + [Summary(ns[i], checkMap[ns[i]])];
      assert ns[..i + 1] == ns[..i] + [ns[i]];
    }
    assert Names(res) == ns;
  }

  method SortedNames(checkMap: map<string, Tally>) returns (ns: seq<string>)
    ensures SortedStrings(ns) && Distinct(ns) && forall n :: n in ns <==> n in checkMap
  {
    ns := [];
    var left := checkMap.Keys;
    while left != {}
      invariant left <= checkMap.Keys && Distinct(ns)
      invariant forall n :: n in ns <==> n in checkMap && n !in left
      decreases |left|
    {
      var n :| n in left;
      ns := ns + [n];
      left := left - {n};
    }
    SortDistinct(ns);
    ns := SortStrings(ns);
  }

  method AggregatedCounterValue(v: Values, name: string) returns (total: int)
    ensures total == Sum(v, OfKind(v.Keys, name))
  {
    total := 0;
    var left := v.Keys;
    ghost var done: set<MetricKey> := {};
    while left != {}
      invariant left <= v.Keys && done == v.Keys - left
      invariant total == Sum(v, OfKind(done, name))
      decreases |left|
    {
      var key :| key in left;
      OfKindAdd(v, done, key, name);
      if key.name == name {
        total := total + v[key];
      }
      left := left - {key};
      done := done + {key};
    }
    assert done == v.Keys;
  }

  lemma OfKindAdd(v: Values, done: set<MetricKey>, key: MetricKey, kind: string)
    requires done <= v.Keys && key in v && key !in done
    ensures done + {key} <= v.Keys
    ensures Sum(v, OfKind(done + {key}, kind)) == Sum(v, OfKind(done, kind)) + (if key.name == kind then v[key] else 0)
  {
    if key.name == kind {
      assert OfKind(done + {key}, kind) == OfKind(done, kind) + {key};
      SumAdd(v, OfKind(done, kind), key);
    } else {
      assert OfKind(done + {key}, kind) == OfKind(done, kind);
    }
  }

  // ---------- The report adds up ----------

  function PassedTotal(res: seq<CheckSummary>): int {
    if res == [] then 0 else PassedTotal(res[..|res| - 1]) + res[|res| - 1].passed
  }

  function FailedTotal(res: seq<CheckSummary>): int {
    if res == [] then 0 else FailedTotal(res[..|res| - 1]) + res[|res| - 1].failed
  }

  ghost function Covered(v: Values, kind: string, names: seq<string>): set<MetricKey> {
    set k | k in v && k.name == kind && CheckName(k) in names
  }

  lemma CoveredStep(v: Values, kind: string, names: seq<string>, n: string)
    requires n !in names
    ensures Sum(v, Covered(v, kind, names + [n])) == Sum(v, Covered(v, kind, names)) + Sum(v, Matching(v.Keys, kind, n))
  {
    assert Covered(v, kind, names + [n]) == Covered(v, kind, names) + Matching(v.Keys, kind, n);
    SumUnion(v, Covered(v, kind, names), Matching(v.Keys, kind, n));
  }

  lemma {:induction false} TotalsCover(v: Values, res: seq<CheckSummary>)
    requires Distinct(Names(res))
    requires forall i :: 0 <= i < |res| ==> EntryOf(v, res[i])
    ensures PassedTotal(res) == Sum(v, Covered(v, PASSED, Names(res)))
    ensures FailedTotal(res) == Sum(v, Covered(v, FAILED, Names(res)))
  {
    var names := Names(res);
    if res == [] {
      assert Covered(v, PASSED, names) == {} && Covered(v, FAILED, names) == {};
    } else {
      var n := |res| - 1;
      assert Names(res[..n]) == names[..n] && EntryOf(v, res[n]);
      TotalsCover(v, res[..n]);
      CoveredStep(v, PASSED, names[..n], names[n]);
      CoveredStep(v, FAILED, names[..n], names[n]);
      assert names == names[..n] + [names[n]];
    }
  }

  lemma KindSplits(v: Values, names: seq<string>, kind: string)
    requires IsKind(kind) && forall n :: n in names <==> n != "" && Used(v.Keys, n)
    ensures Sum(v, OfKind(v.Keys, kind)) == Sum(v, Covered(v, kind, names)) + Sum(v, Matching(v.Keys, kind, ""))
  {
    assert OfKind(v.Keys, kind) == Covered(v, kind, names) + Matching(v.Keys, kind, "");
    SumUnion(v, Covered(v, kind, names), Matching(v.Keys, kind, ""));
  }

  predicate IsKind(kind: string) {
    kind == PASSED || kind == FAILED
  }

  /** The report's totals are the aggregated counters less what was counted under the empty name. */
  lemma TotalsAreAggregated(v: Values, res: seq<CheckSummary>)
    requires Summarises(v, res)
    ensures PassedTotal(res) == Sum(v, OfKind(v.Keys, PASSED)) - TallyOf(v, v.Keys, "").passed
    ensures FailedTotal(res) == Sum(v, OfKind(v.Keys, FAILED)) - TallyOf(v, v.Keys, "").failed
  {
    TotalsCover(v, res);
    KindSplits(v, Names(res), PASSED);
    KindSplits(v, Names(res), FAILED);
  }
}
