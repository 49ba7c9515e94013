/**
 The capacity rule is exact: which pools a run can find saturated, and that every pool validation
 rejects for its timeout drops iterations in some run.  Runs are as long as they need to be.
 */
module Saturation {
  import opened Iterations
  import opened ArrivalRate
  import opened Capacity

  /** A token may be dispatched now, every worker is busy and none is about to reach its timeout. */
  ghost predicate Saturated(sc: Scenario, s: State) {
    && Enabled(sc, s, SteadyToken) && s.ready == sc.maxVUs && |s.running| == s.ready
    && forall t :: t in s.running ==> s.now < s.running[t] + Units(sc, sc.vuTimeout)
  }

  /** What makes saturation possible: too few workers for the rate, or for the rate and the ramp-up token. */
  predicate TooSmall(sc: Scenario) {
    !Absorbs(sc, sc.maxVUs, sc.vuTimeout, true)
  }

  /** No run of a pool that is not too small finds it saturated. */
  lemma SaturatedOnlyIfTooSmall(sc: Scenario, acts: seq<Act>, ss: seq<State>, k: nat)
    requires sc.targetTPS > 0 && sc.maxVUs > 0 && sc.vuTimeout > 0
    requires IsFairRun(sc, acts, ss) && k < |ss| && Saturated(sc, ss[k])
    ensures TooSmall(sc)
  {
    if !TooSmall(sc) {
      FairIsPrompt(sc, true, acts, ss);
      PromptRunOnSchedule(sc, sc.vuTimeout, true, acts, ss, k);
      RunInv(sc, acts, ss, k);
      IdleOrAtDeadline(sc, sc.vuTimeout, ss[k], SteadyToken);
    }
  }

  // ---------- Building runs ----------

  lemma ExtendFairRun(sc: Scenario, acts: seq<Act>, ss: seq<State>, act: Act) returns (acts': seq<Act>, ss': seq<State>)
    requires IsFairRun(sc, acts, ss) && Enabled(sc, ss[|acts|], act) && IsFair(sc, ss[|acts|], act)
    ensures IsFairRun(sc, acts', ss') && |ss'| == |acts'| + 1 && ss'[|acts'|] == Next(sc, ss[|acts|], act)
  {
    acts', ss' := acts + [act], ss + [Next(sc, ss[|acts|], act)];
    forall k: nat | k < |acts'| ensures StepAt(sc, acts', ss', k) && IsFair(sc, ss'[k], acts'[k]) {
      assert k < |acts| ==> StepAt(sc, acts, ss, k) && IsFair(sc, ss[k], acts[k]);
    }
  }

  lemma {:induction false} AllBecomeReady(sc: Scenario, n: nat) returns (acts: seq<Act>, ss: seq<State>)
    requires n <= sc.maxVUs
    ensures IsFairRun(sc, acts, ss) && ss[|acts|] == Init(sc).(ready := n)
  {
    if n == 0 {
      acts, ss := [], [Init(sc)];
    } else {
      acts, ss := AllBecomeReady(sc, n - 1);
      acts, ss := ExtendFairRun(sc, acts, ss, BecomeReady);
    }
  }

  /** When the limiter's first token is due in the runs below. */
  function SteadyBegin(sc: Scenario): int {
    if sc.rampUp > 0 then RemainingRamp(sc) else 0
  }

  /** A worker is still busy with the ramp-up token; it started at time 0. */
  predicate KeepsRampToken(sc: Scenario, kept: bool) {
    kept ==> sc.rampUp > 0
  }

  /**
   After n intervals with a token each, n workers are still in their first iteration, and one more
   if the ramp-up token is kept.
   */
  ghost predicate FirstWave(sc: Scenario, kept: bool, s: State, n: nat) {
    var base, begin := RampTokens(sc), SteadyBegin(sc);
    && s.phase == Steady && s.now == begin + n * INTERVAL && s.ready == sc.maxVUs
    && s.ch == Channel(BurstBuffer(sc), base + n, [], false, [], s.ch.taken) && |s.ch.taken| == base + n
    && |s.times| == base + n && (n > 0 ==> s.times[base + n - 1] == begin + (n - 1) * INTERVAL)
    && |s.running| == n + (if kept then 1 else 0)
    && (forall t :: t in s.running <==> base <= t < base + n || (kept && t == 0))
    && (forall t :: t in s.running ==> s.running[t] == if t < base then 0 else begin + (t - base) * INTERVAL)
  }

  /** The workers begun so far reach no deadline before n intervals are over. */
  predicate Lasts(sc: Scenario, kept: bool, n: nat) {
    n * INTERVAL + (if kept then RemainingRamp(sc) else 0) <= Units(sc, sc.vuTimeout)
  }

  lemma RampTokenRun(sc: Scenario, kept: bool) returns (acts: seq<Act>, ss: seq<State>)
    requires sc.targetTPS > 0 && sc.maxVUs > 0 && sc.rampUp > 0
    requires KeepsRampToken(sc, kept) && Lasts(sc, kept, 0)
    ensures IsFairRun(sc, acts, ss)
    ensures ss[|acts|] == Init(sc).(ready := sc.maxVUs, phase := RampRest, times := [0],
                                    ch := Channel(BurstBuffer(sc), 1, [], false, [], [0]),
                                    running := if kept then map[0 := 0] else map[],
                                    endings := if kept then [] else [Panicked])
  {
    acts, ss := AllBecomeReady(sc, sc.maxVUs);
    acts, ss := ExtendFairRun(sc, acts, ss, RampToken);
    assert [] + [0 as nat] == [0] && [] + [0] == [0] && [0 as nat][1..] == [];
    acts, ss := ExtendFairRun(sc, acts, ss, Take);
    assert map[][0 as nat := 0] == map[0 := 0];
    if !kept {
      acts, ss := ExtendFairRun(sc, acts, ss, Finish(0, Panicked));
      assert map[0 as nat := 0] - {0} == map[];
      assert [] + [Panicked] == [Panicked];
    }
  }

  lemma WaveBegins(sc: Scenario, kept: bool) returns (acts: seq<Act>, ss: seq<State>)
    requires sc.targetTPS > 0 && sc.maxVUs > 0 && sc.vuTimeout > 0
    requires KeepsRampToken(sc, kept) && Lasts(sc, kept, 0)
    ensures IsFairRun(sc, acts, ss) && FirstWave(sc, kept, ss[|acts|], 0)
  {
    if sc.rampUp > 0 {
      RemainingRampPositive(sc);
      acts, ss := RampTokenRun(sc, kept);
      acts, ss := ExtendFairRun(sc, acts, ss, Tick(RemainingRamp(sc)));
      acts, ss := ExtendFairRun(sc, acts, ss, RampOver);
    } else {
      acts, ss := AllBecomeReady(sc, sc.maxVUs);
    }
  }

  lemma WaveTakes(sc: Scenario, kept: bool, acts: seq<Act>, ss: seq<State>, n: nat) returns (acts': seq<Act>, ss': seq<State>)
    requires sc.targetTPS > 0 && sc.maxVUs > 0
    requires KeepsRampToken(sc, kept) && n + (if kept then 1 else 0) < sc.maxVUs
    requires IsFairRun(sc, acts, ss) && FirstWave(sc, kept, ss[|acts|], n)
    ensures IsFairRun(sc, acts', ss') && |ss'| == |acts'| + 1
    ensures var s, token := ss[|acts|], RampTokens(sc) + n;
            ss'[|acts'|] == s.(times := s.times + [s.now], running := s.running[token := s.now],
                               ch := Channel(BurstBuffer(sc), token + 1, [], false, [], s.ch.taken + [token]))
  {
    acts', ss' := ExtendFairRun(sc, acts, ss, SteadyToken);
    assert [] + [RampTokens(sc) + n] == [RampTokens(sc) + n] && [RampTokens(sc) + n][1..] == [];
    acts', ss' := ExtendFairRun(sc, acts', ss', Take);
  }

  lemma WaveGrows(sc: Scenario, kept: bool, acts: seq<Act>, ss: seq<State>, n: nat) returns (acts': seq<Act>, ss': seq<State>)
    requires sc.targetTPS > 0 && sc.maxVUs > 0
    requires KeepsRampToken(sc, kept) && n + (if kept then 1 else 0) < sc.maxVUs && Lasts(sc, kept, n + 1)
    requires IsFairRun(sc, acts, ss) && FirstWave(sc, kept, ss[|acts|], n)
    ensures IsFairRun(sc, acts', ss') && FirstWave(sc, kept, ss'[|acts'|], n + 1)
  {
    if sc.rampUp > 0 { RemainingRampPositive(sc); }
    acts', ss' := WaveTakes(sc, kept, acts, ss, n);
    acts', ss' := ExtendFairRun(sc, acts', ss', Tick(INTERVAL));
  }

  lemma {:induction false} FirstWaveRun(sc: Scenario, kept: bool, n: nat) returns (acts: seq<Act>, ss: seq<State>)
    requires sc.targetTPS > 0 && sc.maxVUs > 0 && sc.vuTimeout > 0
    requires KeepsRampToken(sc, kept) && n + (if kept then 1 else 0) <= sc.maxVUs && Lasts(sc, kept, n)
    ensures IsFairRun(sc, acts, ss) && FirstWave(sc, kept, ss[|acts|], n)
  {
    if n == 0 {
      acts, ss := WaveBegins(sc, kept);
    } else {
      acts, ss := FirstWaveRun(sc, kept, n - 1);
      acts, ss := WaveGrows(sc, kept, acts, ss, n - 1);
    }
  }

  /** Every pool that is too small is found saturated by some fair run, with or without a ramp-up. */
  lemma TooSmallSaturates(sc: Scenario) returns (acts: seq<Act>, ss: seq<State>)
    requires sc.targetTPS > 0 && sc.maxVUs > 0 && sc.vuTimeout > 0 && TooSmall(sc)
    ensures IsFairRun(sc, acts, ss) && Saturated(sc, ss[|acts|])
  {
    if sc.rampUp > 0 { RemainingRampPositive(sc); }
    if Sustains(sc, sc.maxVUs, sc.vuTimeout) {
      acts, ss := FirstWaveRun(sc, true, sc.maxVUs - 1);
    } else {
      acts, ss := FirstWaveRun(sc, false, sc.maxVUs);
    }
  }

  /** Among them is every pool that validation rejects for its timeout. */
  lemma RejectedIsTooSmall(sc: Scenario)
    requires sc.vuTimeout > 0 && sc.maxVUs < RequiredVUs(sc)
    ensures TooSmall(sc) && !Sustains(sc, sc.maxVUs, sc.vuTimeout)
  {
    CeilDivIsCeiling(sc.targetTPS * sc.vuTimeout, SECOND, sc.maxVUs);
  }

  /** And with a ramp-up also some pools it accepts: there a dispatch finds every worker busy. */
  lemma AcceptedRampCanSaturate() returns (sc: Scenario, acts: seq<Act>, ss: seq<State>)
    ensures Validate(sc).Success? && sc.vuTimeout > 0 && sc.rampUp > 0
    ensures IsFairRun(sc, acts, ss) && Saturated(sc, ss[|acts|])
  {
    sc := Scenario(10, 10, 60 * SECOND, 0, SECOND, false, SECOND / 10);
    assert RemainingRamp(sc) == SECOND / 2;
    acts, ss := TooSmallSaturates(sc);
  }

  // ---------- Rejected pools drop ----------

  /** How much later than a whole number of intervals ago the a-th oldest of the busy workers began. */
  function Lag(workers: int, e: int, i: int, a: int): int {
    if a >= workers - i then e + 1 else e
  }

  /**
   A token is due, `q` wait, all workers are busy, and each began a whole number of intervals ago and a
   bit later: the i youngest by e + 1 units, the others by e.  Iterations last one unit longer than
   the workers can afford, so the lag grows by one in a round, and in an interval's worth of rounds
   one more token is left waiting.
   */
  ghost predicate Backlog(sc: Scenario, s: State, q: nat, e: nat, i: nat) {
    var N, m := sc.maxVUs, |s.ch.taken|;
    && s.phase == Steady && s.ready == N && |s.running| == N
    && m >= N && s.ch.next == m + q && |s.ch.queue| == q && (forall j :: 0 <= j < q ==> s.ch.queue[j] == m + j)
    && s.ch.dropped == [] && !s.ch.closed && s.ch.capacity == BurstBuffer(sc)
    && s.times != [] && s.now == s.times[|s.times| - 1] + INTERVAL
    && q <= BurstBuffer(sc) && e <= INTERVAL && i <= N && (i > 0 ==> e < INTERVAL)
    && (forall t :: t in s.running <==> m - N <= t < m)
    && (forall t :: t in s.running ==> s.running[t] == s.now - (m - t) * INTERVAL + Lag(N, e, i, t - (m - N)))
  }

  predicate Overloaded(sc: Scenario) {
    sc.targetTPS > 0 && sc.maxVUs > 0 && sc.vuTimeout > 0 && sc.maxVUs * INTERVAL < Units(sc, sc.vuTimeout)
  }

  lemma FirstWaveIsBacklog(sc: Scenario, s: State)
    requires Overloaded(sc) && FirstWave(sc, false, s, sc.maxVUs)
    ensures Backlog(sc, s, 0, 0, 0)
  {
  }

  /** Dispatch into the queue, and wait for the oldest iteration to end. */
  lemma OldestEnds(sc: Scenario, acts: seq<Act>, ss: seq<State>, q: nat, e: nat, i: nat) returns (acts': seq<Act>, ss': seq<State>)
    requires Overloaded(sc) && IsFairRun(sc, acts, ss) && Backlog(sc, ss[|acts|], q, e, i)
    requires q < BurstBuffer(sc) && e < INTERVAL && i < sc.maxVUs
    ensures IsFairRun(sc, acts', ss') && |ss'| == |acts'| + 1
    ensures var s := ss[|acts|];
            var oldest := |s.ch.taken| - sc.maxVUs;
            ss'[|acts'|] == s.(times := s.times + [s.now], now := s.now + e + 1, running := s.running - {oldest},
                               endings := s.endings + [Panicked],
                               ch := s.ch.(next := s.ch.next + 1, queue := s.ch.queue + [s.ch.next]))
  {
    var oldest: nat := |ss[|acts|].ch.taken| - sc.maxVUs;
    acts', ss' := ExtendFairRun(sc, acts, ss, SteadyToken);
    acts', ss' := ExtendFairRun(sc, acts', ss', Tick(e + 1));
    acts', ss' := ExtendFairRun(sc, acts', ss', Finish(oldest, Panicked));
  }

  /** The freed worker takes the token at the head of the queue; the rest of the interval passes. */
  lemma HeadBegins(sc: Scenario, acts: seq<Act>, ss: seq<State>, q: nat, e: nat, i: nat) returns (acts': seq<Act>, ss': seq<State>)
    requires Overloaded(sc) && IsFairRun(sc, acts, ss) && Backlog(sc, ss[|acts|], q, e, i)
    requires q < BurstBuffer(sc) && e < INTERVAL && i < sc.maxVUs
    ensures IsFairRun(sc, acts', ss') && |ss'| == |acts'| + 1
    ensures var s := ss[|acts|];
            var m := |s.ch.taken|;
            ss'[|acts'|] == s.(times := s.times + [s.now], now := s.now + INTERVAL,
                               running := (s.running - {m - sc.maxVUs})[m := s.now + e + 1],
                               endings := s.endings + [Panicked],
                               ch := s.ch.(next := s.ch.next + 1, queue := (s.ch.queue + [s.ch.next])[1..], taken := s.ch.taken + [m]))
  {
    acts', ss' := OldestEnds(sc, acts, ss, q, e, i);
    assert (ss[|acts|].ch.queue + [ss[|acts|].ch.next])[0] == |ss[|acts|].ch.taken|;
    acts', ss' := ExtendFairRun(sc, acts', ss', Take);
    if e + 1 < INTERVAL {
      acts', ss' := ExtendFairRun(sc, acts', ss', Tick(INTERVAL - e - 1));
    }
  }

  lemma LagMoves(sc: Scenario, acts: seq<Act>, ss: seq<State>, q: nat, e: nat, i: nat) returns (acts': seq<Act>, ss': seq<State>)
    requires Overloaded(sc) && IsFairRun(sc, acts, ss) && Backlog(sc, ss[|acts|], q, e, i)
    requires q < BurstBuffer(sc) && e < INTERVAL && i < sc.maxVUs
    ensures IsFairRun(sc, acts', ss') && Backlog(sc, ss'[|acts'|], q, e, i + 1)
  {
    acts', ss' := HeadBegins(sc, acts, ss, q, e, i);
  }

  /** One round: every worker begins once more, a unit later than an even pace asks for. */
  lemma {:induction false} Round(sc: Scenario, acts: seq<Act>, ss: seq<State>, q: nat, e: nat, i: nat) returns (acts': seq<Act>, ss': seq<State>)
    requires Overloaded(sc) && IsFairRun(sc, acts, ss) && Backlog(sc, ss[|acts|], q, e, i)
    requires q < BurstBuffer(sc) && e < INTERVAL
    ensures IsFairRun(sc, acts', ss') && Backlog(sc, ss'[|acts'|], q, e + 1, 0)
    decreases sc.maxVUs - i
  {
    acts', ss' := acts, ss;
    if i < sc.maxVUs {
      acts', ss' := LagMoves(sc, acts, ss, q, e, i);
      acts', ss' := Round(sc, acts', ss', q, e, i + 1);
    }
  }

  lemma {:induction false} Rounds(sc: Scenario, acts: seq<Act>, ss: seq<State>, q: nat, e: nat) returns (acts': seq<Act>, ss': seq<State>)
    requires Overloaded(sc) && IsFairRun(sc, acts, ss) && Backlog(sc, ss[|acts|], q, e, 0) && q < BurstBuffer(sc)
    ensures IsFairRun(sc, acts', ss') && Backlog(sc, ss'[|acts'|], q, INTERVAL, 0)
    decreases INTERVAL - e
  {
    acts', ss' := acts, ss;
    if e < INTERVAL {
      acts', ss' := Round(sc, acts, ss, q, e, 0);
      acts', ss' := Rounds(sc, acts', ss', q, e + 1);
    }
  }

  /** With a lag of a whole interval nobody is free when the next token comes. */
  lemma QueueGrows(sc: Scenario, acts: seq<Act>, ss: seq<State>, q: nat) returns (acts': seq<Act>, ss': seq<State>)
    requires Overloaded(sc) && IsFairRun(sc, acts, ss) && Backlog(sc, ss[|acts|], q, INTERVAL, 0) && q < BurstBuffer(sc)
    ensures IsFairRun(sc, acts', ss') && Backlog(sc, ss'[|acts'|], q + 1, 0, 0)
  {
    acts', ss' := ExtendFairRun(sc, acts, ss, SteadyToken);
    acts', ss' := ExtendFairRun(sc, acts', ss', Tick(INTERVAL));
  }

  lemma {:induction false} BacklogRun(sc: Scenario, q: nat) returns (acts: seq<Act>, ss: seq<State>)
    requires Overloaded(sc) && q <= BurstBuffer(sc)
    ensures IsFairRun(sc, acts, ss) && Backlog(sc, ss[|acts|], q, 0, 0)
  {
    if q == 0 {
      acts, ss := FirstWaveRun(sc, false, sc.maxVUs);
      FirstWaveIsBacklog(sc, ss[|acts|]);
    } else {
      acts, ss := BacklogRun(sc, q - 1);
      acts, ss := Rounds(sc, acts, ss, q - 1, 0);
      acts, ss := QueueGrows(sc, acts, ss, q - 1);
    }
  }

  /** The converse of the capacity theorem: every pool rejected for its timeout drops an iteration in some fair run. */
  lemma RejectedPoolDrops(sc: Scenario) returns (acts: seq<Act>, ss: seq<State>)
    requires sc.targetTPS > 0 && sc.maxVUs > 0 && sc.vuTimeout > 0 && sc.maxVUs < RequiredVUs(sc)
    ensures IsFairRun(sc, acts, ss) && ss[|acts|].ch.dropped != []
  {
    RejectedIsTooSmall(sc);
    acts, ss := BacklogRun(sc, BurstBuffer(sc));
    acts, ss := ExtendFairRun(sc, acts, ss, SteadyToken);
  }
}
