/**
 Little's law for the arrival_rate pacer: when the ready workers sustain the target rate, no run
 ever drops an iteration, and the pools that validation rejects are those that can be found saturated.
 */
module Capacity {
  import opened ArrivalRate

  /** `timeout` nanoseconds, in clock units. */
  function Units(sc: Scenario, timeout: int): int {
    sc.targetTPS * timeout
  }

  /** Time passes only while no iteration outlives its timeout and no idle worker ignores a queued token. */
  predicate Prompt(sc: Scenario, timeout: int, s: State, dt: int) {
    && (forall k :: k in s.running ==> s.now + dt <= s.running[k] + Units(sc, timeout))
    && (s.ch.queue != [] ==> |s.running| >= s.ready)
  }

  /** Moreover the ramp-up token, which comes up to an interval early, has left when the workers are needed again. */
  predicate OutlastsRamp(sc: Scenario, workers: int, timeout: int) {
    sc.rampUp > 0 ==> Units(sc, timeout) <= RemainingRamp(sc) + (workers - 1) * INTERVAL
  }

  /** What the workers must sustain: the target rate, and for exact starts also the ramp-up token. */
  predicate Absorbs(sc: Scenario, workers: int, timeout: int, exact: bool) {
    Sustains(sc, workers, timeout) && (exact ==> OutlastsRamp(sc, workers, timeout))
  }

  /** The assumptions of the capacity rule, on one step. */
  predicate Obeys(sc: Scenario, timeout: int, exact: bool, s: State, act: Act) {
    && (act.Tick? ==> Prompt(sc, timeout, s, act.dt))
    && (Dispatches(act) ==> Absorbs(sc, s.ready, timeout, exact))
    && act != Cancel
  }

  ghost predicate IsPromptRun(sc: Scenario, timeout: int, exact: bool, acts: seq<Act>, ss: seq<State>) {
    IsRun(sc, acts, ss) && forall k: nat :: k < |acts| ==> Obeys(sc, timeout, exact, ss[k], acts[k])
  }

  /** Token j starts no later than this: exactly when it is dispatched, or when an even pace from the first token reaches it. */
  function Slot(times: seq<int>, j: nat, exact: bool): int
    requires j < |times|
  {
    if exact || times[j] >= times[0] + j * INTERVAL then times[j] else times[0] + j * INTERVAL
  }

  /** The limiter's tokens are an interval apart; the ramp-up token precedes them by the second half of the ramp. */
  ghost predicate Spaced(sc: Scenario, s: State) {
    && (forall j: nat :: j + 1 < |s.times| ==>
          s.times[j] + (if j < RampTokens(sc) then RemainingRamp(sc) else INTERVAL) <= s.times[j + 1])
    && (|s.times| > 0 ==> s.times[|s.times| - 1] <= s.now)
    && (s.phase == RampWait ==> sc.rampUp > 0 && s.times == [])
    && (s.phase == RampRest ==> sc.rampUp > 0 && |s.times| == 1)
    && (s.phase == Steady ==> |s.times| >= RampTokens(sc))
    && (s.phase == Steady && |s.times| <= RampTokens(sc) && s.times != [] ==> s.times[0] + RemainingRamp(sc) <= s.now)
  }

  /** Nothing was dropped, so the queue is the run of numbers that follow the taken ones, and everything is on schedule. */
  ghost predicate OnSchedule(sc: Scenario, timeout: int, exact: bool, s: State) {
    && |s.times| == s.ch.next
    && s.ch.dropped == []
    && (forall i :: 0 <= i < |s.ch.queue| ==> s.ch.queue[i] == |s.ch.taken| + i)
    && |s.ch.taken| + |s.ch.queue| == s.ch.next
    && (forall k :: k in s.running ==>
          k < |s.ch.taken| && s.running[k] <= Slot(s.times, k, exact) && s.now <= s.running[k] + Units(sc, timeout))
    && (forall j: nat :: |s.ch.taken| <= j < s.ch.next ==> s.now <= Slot(s.times, j, exact))
    && (s.ch.queue != [] ==> Absorbs(sc, s.ready, timeout, exact))
  }

  /** Among r running tokens below j, the oldest is at least r places back. */
  lemma {:induction false} OldestRunning(running: set<nat>, j: nat, r: nat) returns (k: nat)
    requires 1 <= r <= |running| && forall t :: t in running ==> t < j
    ensures k in running && k + r <= j
  {
    var t :| t in running;
    assert t < j;
    if r == 1 {
      k := t;
    } else if j - 1 in running {
      k := OldestRunning(running - {j - 1}, j - 1, r - 1);
    } else {
      k := OldestRunning(running, j - 1, r);
    }
  }

  lemma RemainingRampPositive(sc: Scenario)
    requires sc.targetTPS > 0 && sc.rampUp > 0
    ensures RemainingRamp(sc) > 0
  {
  }

  /** Dispatch times are at least an interval apart, but for the ramp-up token. */
  lemma {:induction false} TimesSpaced(sc: Scenario, s: State, i: nat, j: nat)
    requires sc.targetTPS > 0 && Spaced(sc, s) && i < j < |s.times|
    ensures s.times[j] >= s.times[i] + (if i < RampTokens(sc) then RemainingRamp(sc) + (j - i - 1) * INTERVAL else (j - i) * INTERVAL)
  {
    assert s.times[j - 1] + (if j - 1 < RampTokens(sc) then RemainingRamp(sc) else INTERVAL) <= s.times[j - 1 + 1];
    if i < j - 1 {
      TimesSpaced(sc, s, i, j - 1);
    }
  }

  lemma TimesAscend(sc: Scenario, s: State, i: nat, j: nat)
    requires sc.targetTPS > 0 && Spaced(sc, s) && i <= j < |s.times|
    ensures s.times[i] <= s.times[j] && (j >= 1 ==> s.times[j] > s.times[0] + (j - 1) * INTERVAL)
  {
    if sc.rampUp > 0 { RemainingRampPositive(sc); }
    if i < j { TimesSpaced(sc, s, i, j); }
    if j >= 1 { TimesSpaced(sc, s, 0, j); }
  }

  /** Slots ascend. */
  lemma SlotsAscend(sc: Scenario, s: State, exact: bool, i: nat, j: nat)
    requires sc.targetTPS > 0 && Spaced(sc, s) && i <= j < |s.times|
    ensures Slot(s.times, i, exact) <= Slot(s.times, j, exact)
  {
    TimesAscend(sc, s, i, j);
  }

  /** As many slots as there are workers span a timeout. */
  lemma SlotsSpanTimeout(sc: Scenario, timeout: int, exact: bool, s: State, i: nat, j: nat, workers: nat)
    requires sc.targetTPS > 0 && Spaced(sc, s) && i + workers <= j < |s.times|
    requires workers >= 1 && Absorbs(sc, workers, timeout, exact)
    ensures Slot(s.times, i, exact) + Units(sc, timeout) <= Slot(s.times, j, exact)
  {
    TimesSpaced(sc, s, i, j);
    assert (j - i) * INTERVAL >= workers * INTERVAL;
  }

  lemma AbsorbingNeedsWorkers(sc: Scenario, workers: nat, timeout: int, exact: bool)
    requires sc.targetTPS > 0 && timeout > 0 && Absorbs(sc, workers, timeout, exact)
    ensures workers >= 1
  {
    assert sc.targetTPS * timeout > 0;
  }

  /** When every ready worker is busy with tokens before j, one of them is at its deadline by the time of slot j. */
  lemma BusyUntilSlot(sc: Scenario, timeout: int, exact: bool, s: State, j: nat) returns (k: nat)
    requires sc.targetTPS > 0 && timeout > 0
    requires Spaced(sc, s) && OnSchedule(sc, timeout, exact, s) && j < |s.times|
    requires |s.running| >= s.ready && Absorbs(sc, s.ready, timeout, exact) && forall t :: t in s.running ==> t < j
    ensures k in s.running && s.running[k] + Units(sc, timeout) <= Slot(s.times, j, exact)
  {
    AbsorbingNeedsWorkers(sc, s.ready, timeout, exact);
    k := OldestRunning(s.running.Keys, j, s.ready);
    SlotsSpanTimeout(sc, timeout, exact, s, k, j, s.ready);
  }

  lemma TickStaysOnSchedule(sc: Scenario, timeout: int, exact: bool, s: State, dt: int)
    requires sc.targetTPS > 0 && timeout > 0 && dt > 0
    requires Spaced(sc, s) && OnSchedule(sc, timeout, exact, s) && Prompt(sc, timeout, s, dt)
    ensures OnSchedule(sc, timeout, exact, s.(now := s.now + dt))
  {
    if s.ch.queue != [] {
      var head := |s.ch.taken|;
      var k := BusyUntilSlot(sc, timeout, exact, s, head);
      forall j: nat | head <= j < s.ch.next ensures s.now + dt <= Slot(s.times, j, exact) {
        SlotsAscend(sc, s, exact, head, j);
      }
    }
  }

  lemma StepStaysSpaced(sc: Scenario, s: State, act: Act)
    requires sc.targetTPS > 0 && Spaced(sc, s) && Enabled(sc, s, act)
    ensures Spaced(sc, Next(sc, s, act))
  {
    if sc.rampUp > 0 {
      RemainingRampPositive(sc);
    }
  }

  /** By the time of a dispatch the queue has been emptied, so even the smallest buffer has room. */
  lemma QueueEmptyAtDispatch(sc: Scenario, timeout: int, exact: bool, s: State, act: Act)
    requires sc.targetTPS > 0 && Spaced(sc, s) && OnSchedule(sc, timeout, exact, s) && Enabled(sc, s, act) && Dispatches(act)
    ensures s.ch.queue == []
  {
    if s.ch.queue != [] {
      var j := s.ch.next - 1;
      assert s.now <= Slot(s.times, j, exact);
      TimesAscend(sc, s, 0, j);
      if sc.rampUp > 0 { RemainingRampPositive(sc); }
      assert false;
    }
  }

  lemma DispatchStaysOnSchedule(sc: Scenario, timeout: int, exact: bool, s: State, act: Act)
    requires sc.targetTPS > 0 && s.ch.capacity >= 1 && Absorbs(sc, s.ready, timeout, exact)
    requires Spaced(sc, s) && OnSchedule(sc, timeout, exact, s) && Enabled(sc, s, act) && Dispatches(act)
    ensures OnSchedule(sc, timeout, exact, Next(sc, s, act))
  {
    QueueEmptyAtDispatch(sc, timeout, exact, s, act);
    QueuesOne(sc, timeout, exact, s);
    PhaseIsNoMatter(sc, timeout, exact, s.(ch := Dispatched(s.ch), times := s.times + [s.now]), Next(sc, s, act));
  }

  lemma SlotsStay(times: seq<int>, now: int, j: nat, exact: bool)
    requires j < |times|
    ensures Slot(times + [now], j, exact) == Slot(times, j, exact)
  {
  }

  /** Queueing a token in an empty channel keeps the schedule. */
  lemma QueuesOne(sc: Scenario, timeout: int, exact: bool, s: State)
    requires s.ch.capacity >= 1 && s.ch.queue == [] && OnSchedule(sc, timeout, exact, s) && Absorbs(sc, s.ready, timeout, exact)
    ensures OnSchedule(sc, timeout, exact, s.(ch := Dispatched(s.ch), times := s.times + [s.now]))
  {
    forall j: nat | j < |s.times| ensures Slot(s.times + [s.now], j, exact) == Slot(s.times, j, exact) {
      SlotsStay(s.times, s.now, j, exact);
    }
  }

  lemma PhaseIsNoMatter(sc: Scenario, timeout: int, exact: bool, s: State, s': State)
    requires OnSchedule(sc, timeout, exact, s)
    requires s'.ch == s.ch && s'.times == s.times && s'.running == s.running && s'.now == s.now && s'.ready == s.ready
    ensures OnSchedule(sc, timeout, exact, s')
  {
  }

  lemma TakeStaysOnSchedule(sc: Scenario, timeout: int, exact: bool, s: State)
    requires sc.targetTPS > 0 && timeout > 0 && OnSchedule(sc, timeout, exact, s) && Enabled(sc, s, Take)
    ensures OnSchedule(sc, timeout, exact, Next(sc, s, Take))
  {
    assert sc.targetTPS * timeout >= 0;
  }

  lemma StepStaysOnSchedule(sc: Scenario, timeout: int, exact: bool, s: State, act: Act)
    requires sc.targetTPS > 0 && timeout > 0 && s.ch.capacity >= 1
    requires Spaced(sc, s) && OnSchedule(sc, timeout, exact, s) && Enabled(sc, s, act) && Obeys(sc, timeout, exact, s, act)
    requires !s.cancelled
    ensures OnSchedule(sc, timeout, exact, Next(sc, s, act))
  {
    match act
    case Tick(dt) => TickStaysOnSchedule(sc, timeout, exact, s, dt);
    case RampToken => DispatchStaysOnSchedule(sc, timeout, exact, s, act);
    case SteadyToken => DispatchStaysOnSchedule(sc, timeout, exact, s, act);
    case Take => TakeStaysOnSchedule(sc, timeout, exact, s);
    case _ =>
  }

  lemma PromptStep(sc: Scenario, timeout: int, exact: bool, acts: seq<Act>, ss: seq<State>, k: nat)
    requires sc.targetTPS > 0 && sc.maxVUs > 0 && timeout > 0
    requires IsPromptRun(sc, timeout, exact, acts, ss) && k < |acts|
    requires Spaced(sc, ss[k]) && OnSchedule(sc, timeout, exact, ss[k]) && !ss[k].cancelled
    ensures Spaced(sc, ss[k + 1]) && OnSchedule(sc, timeout, exact, ss[k + 1]) && !ss[k + 1].cancelled
  {
    RunInv(sc, acts, ss, k);
    assert StepAt(sc, acts, ss, k) && Obeys(sc, timeout, exact, ss[k], acts[k]);
    StepStaysSpaced(sc, ss[k], acts[k]);
    StepStaysOnSchedule(sc, timeout, exact, ss[k], acts[k]);
  }

  lemma {:induction false} PromptRunOnSchedule(sc: Scenario, timeout: int, exact: bool, acts: seq<Act>, ss: seq<State>, k: nat)
    requires sc.targetTPS > 0 && sc.maxVUs > 0 && timeout > 0
    requires IsPromptRun(sc, timeout, exact, acts, ss) && k < |ss|
    ensures Spaced(sc, ss[k]) && OnSchedule(sc, timeout, exact, ss[k]) && !ss[k].cancelled
  {
    if k > 0 {
      PromptRunOnSchedule(sc, timeout, exact, acts, ss, k - 1);
      PromptStep(sc, timeout, exact, acts, ss, k - 1);
    }
  }

  /**
   The capacity theorem: with enough ready workers at every dispatch and iterations no longer than
   `timeout`, dropped_iterations stays 0 for ever, with or without the ramp-up token and for every
   buffer size; at most one token ever waits.
   */
  lemma NeverDrops(sc: Scenario, timeout: int, acts: seq<Act>, ss: seq<State>, k: nat)
    requires sc.targetTPS > 0 && sc.maxVUs > 0 && timeout > 0
    requires IsPromptRun(sc, timeout, false, acts, ss) && k < |ss|
    ensures ss[k].ch.dropped == []
    ensures k < |acts| && Dispatches(acts[k]) ==> ss[k].ch.queue == []
  {
    PromptRunOnSchedule(sc, timeout, false, acts, ss, k);
    if k < |acts| && Dispatches(acts[k]) {
      assert StepAt(sc, acts, ss, k);
      QueueEmptyAtDispatch(sc, timeout, false, ss[k], acts[k]);
    }
  }

  lemma IdleOrAtDeadline(sc: Scenario, timeout: int, s: State, act: Act)
    requires sc.targetTPS > 0 && timeout > 0 && Inv(sc, s)
    requires Spaced(sc, s) && OnSchedule(sc, timeout, true, s) && Absorbs(sc, s.ready, timeout, true)
    requires Enabled(sc, s, act) && Dispatches(act)
    ensures |s.running| < s.ready || exists t :: t in s.running && s.now == s.running[t] + Units(sc, timeout)
  {
    var s' := Next(sc, s, act);
    if |s.running| >= s.ready {
      DispatchStaysOnSchedule(sc, timeout, true, s, act);
      StepStaysSpaced(sc, s, act);
      var t := BusyUntilSlot(sc, timeout, true, s', s.ch.next);
      assert s.now == s.running[t] + Units(sc, timeout);
    }
  }

  /**
   When the workers also outlast the ramp-up token, or there is none, each dispatch moreover finds an
   idle worker, unless some iteration reaches its timeout at that very instant.
   */
  lemma DispatchFindsIdleWorker(sc: Scenario, timeout: int, acts: seq<Act>, ss: seq<State>, k: nat)
    requires sc.targetTPS > 0 && sc.maxVUs > 0 && timeout > 0
    requires IsPromptRun(sc, timeout, true, acts, ss) && k < |acts| && Dispatches(acts[k])
    ensures |ss[k].running| < ss[k].ready
            || exists t :: t in ss[k].running && ss[k].now == ss[k].running[t] + Units(sc, timeout)
  {
    PromptRunOnSchedule(sc, timeout, true, acts, ss, k);
    RunInv(sc, acts, ss, k);
    assert StepAt(sc, acts, ss, k) && Obeys(sc, timeout, true, ss[k], acts[k]);
    IdleOrAtDeadline(sc, timeout, ss[k], acts[k]);
  }

  // ---------- Validated scenarios ----------

  /** Idle workers pick up tokens at once, iterations respect the timeout, and all workers are ready whenever a token is dispatched. */
  ghost predicate IsFairRun(sc: Scenario, acts: seq<Act>, ss: seq<State>) {
    && IsRun(sc, acts, ss)
    && forall k: nat :: k < |acts| ==> IsFair(sc, ss[k], acts[k])
  }

  predicate IsFair(sc: Scenario, s: State, act: Act) {
    && (act.Tick? ==> Prompt(sc, sc.vuTimeout, s, act.dt))
    && (Dispatches(act) ==> s.ready == sc.maxVUs)
    && act != Cancel
  }

  lemma FairIsPrompt(sc: Scenario, exact: bool, acts: seq<Act>, ss: seq<State>)
    requires IsFairRun(sc, acts, ss) && Absorbs(sc, sc.maxVUs, sc.vuTimeout, exact)
    ensures IsPromptRun(sc, sc.vuTimeout, exact, acts, ss)
  {
    forall k: nat | k < |acts| ensures Obeys(sc, sc.vuTimeout, exact, ss[k], acts[k]) {
      assert IsFair(sc, ss[k], acts[k]);
    }
  }

  /** For a scenario validation accepts with an explicit timeout, all workers ready is enough. */
  lemma AcceptedScenarioNeverDrops(sc: Scenario, acts: seq<Act>, ss: seq<State>, k: nat)
    requires Validate(sc).Success? && sc.vuTimeout > 0
    requires IsFairRun(sc, acts, ss) && k < |ss|
    ensures ss[k].ch.dropped == []
  {
    AcceptedIffSustained(sc);
    FairIsPrompt(sc, false, acts, ss);
    NeverDrops(sc, sc.vuTimeout, acts, ss, k);
  }
}
