/**
 The execution watchdog (internal/engine/watchdog.go): trackers marked by their VU and scanned
 for iterations that run too long.  Clock readings and thresholds are parameters.
 */
module Watchdog {

  // ---------- One tracker, each operation atomic ----------

  datatype Event = Begin(start: int) | End | Scan(now: int, threshold: int)

  datatype Tracker = Tracker(start: int, active: bool, stalled: bool, counted: nat)

  const NEW_TRACKER := Tracker(0, false, false, 0)

  predicate Overdue(start: int, now: int, threshold: int) {
    start != 0 && now - start >= threshold
  }

  /** What the scan does to one tracker; `counted` is its share of the stall counter. */
  function Scanned(t: Tracker, now: int, threshold: int): Tracker {
    if t.active && Overdue(t.start, now, threshold) && !t.stalled then t.(stalled := true, counted := t.counted + 1) else t
  }

  function Apply(t: Tracker, e: Event): Tracker {
    match e
    case Begin(start) => t.(start := start, stalled := false, active := true)
    case End => t.(active := false)
    case Scan(now, threshold) => Scanned(t, now, threshold)
  }

  function Run(log: seq<Event>): Tracker {
    if log == [] then NEW_TRACKER else Apply(Run(log[..|log| - 1]), log[|log| - 1])
  }

  /** The iteration begun at `b` is still running just before `k`. */
  predicate InFlight(log: seq<Event>, b: nat, k: nat)
    requires b < k <= |log|
  {
    log[b].Begin? && forall j :: b < j < k ==> log[j].Scan?
  }

  /** Scan `k` sees the iteration begun at `b` past the threshold. */
  predicate Sees(log: seq<Event>, b: nat, k: nat)
    requires b < k < |log|
  {
    InFlight(log, b, k) && log[k].Scan? && log[b].start != 0 && log[k].now >= log[b].start + log[k].threshold
  }

  predicate SeenOverdue(log: seq<Event>, b: nat)
    requires b < |log|
  {
    exists k :: b < k < |log| && Sees(log, b, k)
  }

  /** Iterations among the first `n` events that some scan sees past the threshold. */
  function SeenCount(log: seq<Event>, n: nat): nat
    requires n <= |log|
  {
    if n == 0 then 0 else SeenCount(log, n - 1) + (if SeenOverdue(log, n - 1) then 1 else 0)
  }

  lemma SeesPrefix(log: seq<Event>, e: Event, b: nat, k: nat)
    requires b < k < |log|
    ensures Sees(log + [e], b, k) <==> Sees(log, b, k)
  {
    var longer := log + [e];
    assert forall j :: 0 <= j < |log| ==> longer[j] == log[j];
  }

  lemma InFlightGrows(log: seq<Event>, e: Event, b: nat)
    requires b < |log|
    ensures InFlight(log + [e], b, |log|) <==> InFlight(log, b, |log|)
    ensures InFlight(log + [e], b, |log| + 1) <==> InFlight(log, b, |log|) && e.Scan?
  {
    var longer := log + [e];
    assert forall j :: 0 <= j < |log| ==> longer[j] == log[j];
    assert longer[|log|] == e;
  }

  /** One more event lets at most the running iteration be seen. */
  lemma SeenGrows(log: seq<Event>, e: Event, b: nat)
    requires b < |log|
    ensures SeenOverdue(log + [e], b) <==> SeenOverdue(log, b) || Sees(log + [e], b, |log|)
  {
    var longer := log + [e];
    if SeenOverdue(log, b) {
      var k :| b < k < |log| && Sees(log, b, k);
      SeesPrefix(log, e, b, k);
    }
    if SeenOverdue(longer, b) {
      var k :| b < k < |longer| && Sees(longer, b, k);
      if k < |log| {
        SeesPrefix(log, e, b, k);
      }
    }
  }

  lemma {:induction false} SeenCountUnchanged(log: seq<Event>, e: Event, n: nat)
    requires n <= |log| && forall b: nat :: b < n ==> !Sees(log + [e], b, |log|) || SeenOverdue(log, b)
    ensures SeenCount(log + [e], n) == SeenCount(log, n)
  {
    if n > 0 {
      SeenGrows(log, e, n - 1);
      SeenCountUnchanged(log, e, n - 1);
    }
  }

  /** Scan `k` catches only the last iteration begun, and catches it for the first time. */
  lemma {:induction false} SeenCountOneMore(log: seq<Event>, e: Event, b: nat, n: nat)
    requires b < n <= |log| && Sees(log + [e], b, |log|) && !SeenOverdue(log, b)
    ensures SeenCount(log + [e], n) == SeenCount(log, n) + 1
  {
    SeenGrows(log, e, n - 1);
    if n == b + 1 {
      forall a: nat | a < b ensures !Sees(log + [e], a, |log|) {
        assert (log + [e])[b].Begin?;
      }
      SeenCountUnchanged(log, e, b);
    } else {
      assert (log + [e])[n - 1].Scan?;
      SeenCountOneMore(log, e, b, n - 1);
    }
  }

  ghost predicate Matches(log: seq<Event>, t: Tracker) {
    && (t.active ==> exists b: nat :: b < |log| && Running(log, t, b))
    && (!t.active ==> forall b: nat :: b < |log| ==> !InFlight(log, b, |log|))
  }

  ghost predicate Running(log: seq<Event>, t: Tracker, b: nat)
    requires b < |log|
  {
    InFlight(log, b, |log|) && log[b].start == t.start && (t.stalled <==> SeenOverdue(log, b))
  }

  lemma {:induction false} TrackerMatches(log: seq<Event>)
    ensures Matches(log, Run(log))
  {
    if log != [] {
      var n := |log| - 1;
      var before, e := log[..n], log[n];
      TrackerMatches(before);
      assert log == before + [e];
      MatchesStep(before, e, Run(before));
    }
  }

  lemma MatchesStep(log: seq<Event>, e: Event, t: Tracker)
    requires Matches(log, t)
    ensures Matches(log + [e], Apply(t, e))
  {
    var longer := log + [e];
    var n := |log|;
    match e
    case Begin(_) =>
      assert Running(longer, Apply(t, e), n);
    case End =>
      assert longer[n] == End;
    case Scan(now, threshold) =>
      if t.active {
        var b: nat :| b < n && Running(log, t, b);
        SeenGrows(log, e, b);
        assert longer[n] == e && longer[b] == log[b];
        InFlightGrows(log, e, b);
        assert Running(longer, Apply(t, e), b);
      } else {
        forall b: nat | b < |longer| ensures !InFlight(longer, b, |longer|) {
          if b < n {
            InFlightGrows(log, e, b);
          }
        }
      }
  }

  /** An iteration is counted exactly once if some scan sees it past the threshold, and otherwise never. */
  lemma {:induction false} CountedOnceIfSeen(log: seq<Event>)
    ensures Run(log).counted == SeenCount(log, |log|)
  {
    if log != [] {
      var n := |log| - 1;
      var before, e := log[..n], log[n];
      CountedOnceIfSeen(before);
      TrackerMatches(before);
      assert log == before + [e];
      assert !SeenOverdue(log, n);
      CountStep(before, e, Run(before));
    }
  }

  lemma CountStep(log: seq<Event>, e: Event, t: Tracker)
    requires Matches(log, t) && t.counted == SeenCount(log, |log|)
    ensures Apply(t, e).counted == SeenCount(log + [e], |log|)
  {
    var longer := log + [e];
    var n := |log|;
    assert longer[n] == e;
    if t.active {
      var b: nat :| b < n && Running(log, t, b);
      forall a: nat | a < n && a != b ensures !Sees(longer, a, n) {
        assert longer[b] == log[b] && log[b].Begin?;
        if a < b {} else { assert longer[a] == log[a] && log[a].Scan?; }
      }
      InFlightGrows(log, e, b);
      if e.Scan? && Overdue(t.start, e.now, e.threshold) && !t.stalled {
        SeenCountOneMore(log, e, b, n);
      } else {
        SeenCountUnchanged(log, e, n);
      }
    } else {
      forall a: nat | a < n ensures !Sees(longer, a, n) {
        InFlightGrows(log, e, a);
      }
      SeenCountUnchanged(log, e, n);
    }
  }

  // ---------- The objects ----------

  const DEFAULT_GUARD_DEADLINE := 30_000_000_000

  /** The stall threshold fixed when the watchdog is created. */
  function BaseThreshold(configured: int, vuTimeout: int): int {
    if configured > 0 then configured
    else if vuTimeout > 0 then vuTimeout
    else DEFAULT_GUARD_DEADLINE
  }

  /** A configured threshold always wins; otherwise 3 x P99 adapts it, but never beyond the VU timeout. */
  function EffectiveThreshold(configured: int, vuTimeout: int, count: int, p99: int): (threshold: int)
    ensures threshold > 0
    ensures configured > 0 ==> threshold == configured
    ensures configured <= 0 && vuTimeout > 0 ==> threshold <= vuTimeout && (count <= 0 || p99 <= 0 || 3 * p99 >= vuTimeout ==> threshold == vuTimeout)
    ensures configured <= 0 && vuTimeout <= 0 && (count <= 0 || p99 <= 0) ==> threshold == 30_000_000_000
    ensures configured <= 0 && count > 0 && p99 > 0 && (vuTimeout <= 0 || 3 * p99 <= vuTimeout) ==> threshold == 3 * p99
  {
    if configured <= 0 && count > 0 && p99 > 0 then
      (var dyn := 3 * p99;
       if vuTimeout > 0 && dyn > vuTimeout then vuTimeout else dyn)
    else BaseThreshold(configured, vuTimeout)
  }

  class VuTracker {
    const vuid: int
    var iteration: int
    var startNano: int
    var active: bool
    var stalled: bool
    /** How often this tracker has raised the stall counter. */
    ghost var counted: nat

    constructor (vuid: int)
      ensures this.vuid == vuid && Value() == NEW_TRACKER
    {
      this.vuid := vuid;
      iteration, startNano, active, stalled, counted := 0, 0, false, false, 0;
    }

    ghost function Value(): Tracker
      reads this
    {
      Tracker(startNano, active, stalled, counted)
    }

    method Begin(iteration: int, clock: int)
      modifies this
      ensures Value() == Apply(old(Value()), Event.Begin(clock)) && this.iteration == iteration
    {
      this.iteration := iteration;
      startNano := clock;
      stalled := false;
      active := true;
    }

    method End()
      modifies this
      ensures Value() == Apply(old(Value()), Event.End) && iteration == old(iteration)
    {
      active := false;
    }
  }

  /** How many of the trackers a scan catches. */
  ghost function Caught(trackers: seq<VuTracker>, n: nat, now: int, threshold: int): nat
    requires n <= |trackers|
    reads trackers
  {
    if n == 0 then 0
    else Caught(trackers, n - 1, now, threshold) + Scanned(trackers[n - 1].Value(), now, threshold).counted - trackers[n - 1].counted
  }

  class ExecutionWatchdog {
    const configured: int
    const vuTimeout: int
    var trackers: seq<VuTracker>
    var stalledCounter: nat

    ghost predicate Valid()
      reads this
    {
      forall i, j :: 0 <= i < j < |trackers| ==> trackers[i] != trackers[j]
    }

    constructor (configured: int, vuTimeout: int)
      ensures Valid() && trackers == [] && stalledCounter == 0
      ensures this.configured == configured && this.vuTimeout == vuTimeout
    {
      this.configured, this.vuTimeout := configured, vuTimeout;
      trackers, stalledCounter := [], 0;
    }

    method RegisterVU(vuid: int) returns (t: VuTracker)
      requires Valid()
      modifies this
      ensures Valid() && fresh(t) && trackers == old(trackers) + [t] && stalledCounter == old(stalledCounter)
      ensures t.vuid == vuid && t.Value() == NEW_TRACKER
    {
      t := new VuTracker(vuid);
      trackers := trackers + [t];
    }

    /** Removes exactly that tracker and keeps the order of the others. */
    method Unregister(t: VuTracker)
      requires Valid()
      modifies this, t
      ensures Valid() && stalledCounter == old(stalledCounter)
      ensures t.Value() == Apply(old(t.Value()), Event.End) && t !in trackers
      ensures t !in old(trackers) ==> trackers == old(trackers)
      ensures forall i :: 0 <= i < |old(trackers)| && old(trackers)[i] == t ==> trackers == old(trackers)[..i] + old(trackers)[i + 1..]
    {
      t.End();
      var i := 0;
      while i < |trackers|
        invariant 0 <= i <= |trackers| && trackers == old(trackers) && stalledCounter == old(stalledCounter)
        invariant t !in trackers[..i]
      {
        if trackers[i] == t {
          trackers := trackers[..i] + trackers[i + 1..];
          break;
        }
        i := i + 1;
      }
    }

    /** One tick: every tracker past the threshold is marked, and the counter grows by those not marked before. */
    method CheckStalledIterations(now: int, count: int, p99: int)
      requires Valid()
      modifies this`stalledCounter, trackers
      ensures Valid() && trackers == old(trackers)
      ensures var threshold := EffectiveThreshold(configured, vuTimeout, count, p99);
              && (forall i :: 0 <= i < |trackers| ==> trackers[i].Value() == Scanned(old(trackers[i].Value()), now, threshold))
              && stalledCounter == old(stalledCounter) + old(Caught(trackers, |trackers|, now, threshold))
      ensures forall i :: 0 <= i < |trackers| ==> trackers[i].iteration == old(trackers[i].iteration)
    {
      var threshold := BaseThreshold(configured, vuTimeout);
      if configured <= 0 {
        if count > 0 && p99 > 0 {
          var dyn := 3 * p99;
          if vuTimeout > 0 && dyn > vuTimeout {
            threshold := vuTimeout;
          } else if dyn > 0 {
            threshold := dyn;
          }
        }
      }
      for i := 0 to |trackers|
        invariant Valid() && trackers == old(trackers)
        invariant forall j :: 0 <= j < i ==> trackers[j].Value() == Scanned(old(trackers[j].Value()), now, threshold)
        invariant forall j :: i <= j < |trackers| ==> trackers[j].Value() == old(trackers[j].Value())
        invariant forall j :: 0 <= j < |trackers| ==> trackers[j].iteration == old(trackers[j].iteration)
        invariant stalledCounter == old(stalledCounter) + old(Caught(trackers, i, now, threshold))
      {
        var t := trackers[i];
        if !t.active {
          continue;
        }
        if t.startNano == 0 {
          continue;
        }
        var elapsed := now - t.startNano;
        if elapsed >= threshold {
          if !t.stalled {
            t.stalled := true;
            t.counted := t.counted + 1;
            stalledCounter := stalledCounter + 1;
          }
        }
      }
    }
  }
}
