/**
 Inline checks: recordCheck with its per-VU cache of counters (internal/engine/context.go:418-448)
 and the per-check report (internal/metric/aggregator.go:98-108, 149-195).
 */
module Checks {
  import opened TagKeys

  const PASSED := "vuhive.checks.passed"
  const FAILED := "vuhive.checks.failed"
  const PREFIX := "name="

  /** The counter values by key. */
  type Values = map<MetricKey, int>

  function CheckKey(name: string, passed: bool): MetricKey {
    MetricKey(if passed then PASSED else FAILED, PREFIX + name)
  }

  lemma CheckKeyIsCanonical(name: string)
    ensures Canonical(PREFIX + name, map["name" := name])
  {
    assert Pair("name", name) == PREFIX + name;
    SingleKey(map["name" := name], "name");
  }

  lemma CheckKeysDiffer(m: string, p: bool, n: string, q: bool)
    requires CheckKey(m, p) == CheckKey(n, q)
    ensures m == n && p == q
  {
    assert PASSED[14] != FAILED[14];
    assert m == (PREFIX + m)[5..] && n == (PREFIX + n)[5..];
  }

  function WithCounter(v: Values, key: MetricKey): Values {
    if key in v then v else v[key := 0]
  }

  /** The counters after a VU's first check of that name, before it is counted. */
  function WithPair(v: Values, name: string): Values {
    WithCounter(WithCounter(v, CheckKey(name, true)), CheckKey(name, false))
  }

  function Bumped(v: Values, key: MetricKey): Values {
    if key in v then v[key := v[key] + 1] else v
  }

  /** The counters after one check. */
  function AfterCheck(v: Values, name: string, passed: bool): Values {
    Bumped(WithPair(v, name), CheckKey(name, passed))
  }

  class Counter {
    var val: int

    constructor ()
      ensures val == 0
    {
      val := 0;
    }

    method Inc()
      modifies this
      ensures val == old(val) + 1
    {
      val := val + 1;
    }
  }

  ghost predicate Extends(before: map<MetricKey, Counter>, after: map<MetricKey, Counter>) {
    forall k :: k in before ==> k in after && after[k] == before[k]
  }

  class CounterStore {
    var counters: map<MetricKey, Counter>

    ghost predicate Valid()
      reads this
    {
      forall j, k :: j in counters && k in counters && counters[j] == counters[k] ==> j == k
    }

    ghost function Values(): Values
      reads this, counters.Values
    {
      map k | k in counters :: counters[k].val
    }

    constructor ()
      ensures Valid() && counters == map[]
    {
      counters := map[];
    }

    method GetOrCreate(key: MetricKey) returns (c: Counter)
      requires Valid()
      modifies this
      ensures Valid() && key in counters && counters[key] == c
      ensures key in old(counters) ==> counters == old(counters)
      ensures key !in old(counters) ==> fresh(c) && c.val == 0 && counters == old(counters)[key := c]
      ensures Values() == WithCounter(old(Values()), key)
    {
      if key in counters {
        return counters[key];
      }
      c := new Counter();
      counters := counters[key := c];
    }

    method GetOrCreatePair(name: string) returns (pair: CounterPair)
      requires Valid()
      modifies this
      ensures Valid() && Extends(old(counters), counters) && Publishes(name, pair)
      ensures fresh(counters.Values - old(counters.Values))
      ensures Values() == WithPair(old(Values()), name)
    {
      var p := GetOrCreate(CheckKey(name, true));
      var f := GetOrCreate(CheckKey(name, false));
      pair := CounterPair(p, f);
    }

    /** Inc on a handle of this store. */
    method IncHandle(c: Counter, ghost key: MetricKey)
      requires Valid() && key in counters && counters[key] == c
      modifies c
      ensures Values() == Bumped(old(Values()), key)
    {
      c.Inc();
    }

    ghost predicate Publishes(name: string, pair: CounterPair)
      reads this
    {
      && CheckKey(name, true) in counters && counters[CheckKey(name, true)] == pair.passed
      && CheckKey(name, false) in counters && counters[CheckKey(name, false)] == pair.failed
    }
  }

  datatype CounterPair = CounterPair(passed: Counter, failed: Counter)

  class CheckContext {
    const metrics: CounterStore?
    var checkCache: map<string, CounterPair>

    /** A cached pair is the pair the store publishes. */
    ghost predicate Valid()
      reads this, metrics
    {
      metrics != null ==>
        && metrics.Valid()
        && forall n :: n in checkCache ==> metrics.Publishes(n, checkCache[n])
    }

    constructor (metrics: CounterStore?)
      requires metrics != null ==> metrics.Valid()
      ensures Valid() && this.metrics == metrics && checkCache == map[]
    {
      this.metrics := metrics;
      checkCache := map[];
    }

    method PairFor(name: string) returns (pair: CounterPair)
      requires Valid() && metrics != null
      modifies this, metrics
      ensures Valid() && name in checkCache && pair == checkCache[name]
      ensures fresh(metrics.counters.Values - old(metrics.counters.Values))
      ensures metrics.Values() == (if name in old(checkCache) then old(metrics.Values()) else WithPair(old(metrics.Values()), name))
    {
      if name in checkCache {
        return checkCache[name];
      }
      pair := metrics.GetOrCreatePair(name);
      checkCache := checkCache[name := pair];
    }

    /** Without a collector nothing is counted; with one, exactly this verdict under this name. */
    method RecordCheck(name: string, passed: bool) returns (r: bool)
      requires Valid()
      modifies this, metrics, if metrics == null then {} else metrics.counters.Values
      ensures Valid() && r == passed
      ensures metrics == null ==> checkCache == old(checkCache)
      ensures metrics != null ==> metrics.Values() == AfterCheck(old(metrics.Values()), name, passed)
    {
      if metrics == null {
        return passed;
      }
      var pair := PairFor(name);
      if passed {
        metrics.IncHandle(pair.passed, CheckKey(name, true));
        return true;
      }
      metrics.IncHandle(pair.failed, CheckKey(name, false));
      return false;
    }
  }
}
