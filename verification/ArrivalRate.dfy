/**
 The arrival_rate pacer: validation, the bounded token channel, the dispatcher and the worker
 pool, interleaved step by step under a clock.

 The clock counts units of 1/target_tps nanoseconds, so that a second is a whole number of
 token intervals: INTERVAL units separate two tokens, and d nanoseconds are d * target_tps units.
 */
module ArrivalRate {
  import opened Wrappers
  import opened Iterations

  const INTERVAL: int := 1_000_000_000
  const SECOND: int := 1_000_000_000
  const DEFAULT_GUARD_DEADLINE: int := 30 * SECOND

  /** The arrival_rate part of a scenario configuration; durations in nanoseconds. */
  datatype Scenario = Scenario(targetTPS: int, maxVUs: int, runPeriod: int, burstBuffer: int, vuTimeout: int,
                               allowUnbounded: bool, rampUp: int)

  function CeilDiv(a: int, b: int): int
    requires b > 0
  {
    (a + b - 1) / b
  }

  /** ceil(target_tps * vu_timeout in seconds). */
  function RequiredVUs(sc: Scenario): int {
    CeilDiv(sc.targetTPS * sc.vuTimeout, SECOND)
  }

  /** validateScenario for arrival_rate, in the source's order of checks; success carries the defaulted timeout. */
  function Validate(sc: Scenario): (r: Result<Scenario, string>)
  {
    if sc.targetTPS <= 0 then Failure("target_tps")
    else if sc.maxVUs <= 0 then Failure("max_vus")
    else if sc.runPeriod <= 0 then Failure("run_period")
    else if sc.vuTimeout > 0 && sc.maxVUs < RequiredVUs(sc) then Failure("max_vus")
    else if sc.burstBuffer < 0 then Failure("burst_buffer")
    else if sc.vuTimeout < 0 then Failure("vu_timeout")
    else
      var defaulted := if sc.vuTimeout == 0 && !sc.allowUnbounded then sc.(vuTimeout := DEFAULT_GUARD_DEADLINE) else sc;
      if defaulted.rampUp < 0 then Failure("ramp_up") else Success(defaulted)
  }

  /** getEffectiveVUTimeout: None is an unbounded iteration. */
  function EffectiveTimeout(sc: Scenario): Option<int> {
    if sc.vuTimeout > 0 then Some(sc.vuTimeout)
    else if sc.allowUnbounded then None
    else Some(DEFAULT_GUARD_DEADLINE)
  }

  /** Little's law: `workers` workers absorb the target rate when every iteration lasts at most `timeout`. */
  predicate Sustains(sc: Scenario, workers: int, timeout: int) {
    workers * INTERVAL >= sc.targetTPS * timeout
  }

  lemma CeilDivIsCeiling(a: int, b: int, n: int)
    requires b > 0
    ensures n >= CeilDiv(a, b) <==> n * b >= a
  {
    var q := CeilDiv(a, b);
    assert a <= q * b < a + b;
    if n >= q {
      assert n * b >= q * b;
    } else {
      assert n * b <= (q - 1) * b;
    }
  }

  /** With an explicit timeout the accepted pools are exactly those that sustain it. */
  lemma AcceptedIffSustained(sc: Scenario)
    requires sc.targetTPS > 0 && sc.maxVUs > 0 && sc.runPeriod > 0 && sc.burstBuffer >= 0 && sc.rampUp >= 0 && sc.vuTimeout > 0
    ensures Validate(sc).Success? <==> Sustains(sc, sc.maxVUs, sc.vuTimeout)
    ensures Validate(sc).Success? ==> Validate(sc).value == sc && EffectiveTimeout(sc) == Some(sc.vuTimeout)
  {
    CeilDivIsCeiling(sc.targetTPS * sc.vuTimeout, SECOND, sc.maxVUs);
  }

  /** What makes a field unacceptable. */
  predicate BadField(sc: Scenario, field: string) {
    || (field == "target_tps" && sc.targetTPS <= 0)
    || (field == "max_vus" && (sc.maxVUs <= 0 || (sc.vuTimeout > 0 && !Sustains(sc, sc.maxVUs, sc.vuTimeout))))
    || (field == "run_period" && sc.runPeriod <= 0)
    || (field == "burst_buffer" && sc.burstBuffer < 0)
    || (field == "vu_timeout" && sc.vuTimeout < 0)
    || (field == "ramp_up" && sc.rampUp < 0)
  }

  /** A scenario is accepted exactly if no field is bad, and otherwise rejected for one that is; only a timeout left out is changed. */
  lemma AcceptedIffNoBadField(sc: Scenario)
    ensures Validate(sc).Success? <==> forall field :: !BadField(sc, field)
    ensures Validate(sc).Failure? ==> BadField(sc, Validate(sc).error)
    ensures Validate(sc).Success? ==>
              Validate(sc).value == if sc.vuTimeout == 0 && !sc.allowUnbounded then sc.(vuTimeout := 30 * SECOND) else sc
  {
    CeilDivIsCeiling(sc.targetTPS * sc.vuTimeout, SECOND, sc.maxVUs);
    if Validate(sc).Failure? {
      assert BadField(sc, Validate(sc).error);
    }
  }

  /**
   The check precedes the defaulting of vu_timeout, so an accepted scenario sustains the timeout
   its iterations really get exactly when that timeout was explicit, or is absent, or the pool
   happens to hold 30 seconds of tokens.
   */
  lemma AcceptedEffectiveTimeout(sc: Scenario)
    requires Validate(sc).Success?
    ensures var t := EffectiveTimeout(Validate(sc).value);
            && ((t.Some? ==> Sustains(sc, sc.maxVUs, t.value)) <==>
                (sc.vuTimeout > 0 || sc.allowUnbounded || sc.maxVUs >= 30 * sc.targetTPS))
            && EffectiveTimeout(sc) == t
            && (t == None <==> sc.vuTimeout == 0 && sc.allowUnbounded)
            && (t.Some? ==> t.value > 0 && (t.value == sc.vuTimeout || (sc.vuTimeout == 0 && t.value == 30_000_000_000)))
  {
    if sc.vuTimeout > 0 {
      AcceptedIffSustained(sc);
    }
  }

  function BurstBuffer(sc: Scenario): (b: int)
    ensures sc.maxVUs > 0 ==> b >= 1
    ensures sc.burstBuffer > 0 ==> b == sc.burstBuffer
    ensures sc.burstBuffer <= 0 && sc.maxVUs > 0 ==> b >= sc.maxVUs && b >= 2 * sc.targetTPS && (b == sc.maxVUs || b == 2 * sc.targetTPS)
  {
    var maxVUs := if sc.maxVUs <= 0 then 1 else sc.maxVUs;
    if sc.burstBuffer > 0 then sc.burstBuffer
    else if 2 * sc.targetTPS < maxVUs then maxVUs
    else 2 * sc.targetTPS
  }

  // ---------- The token channel ----------

  /** `dropped` and `taken` remember what became of every number issued so far. */
  datatype Channel = Channel(capacity: int, next: nat, queue: seq<nat>, closed: bool, dropped: seq<nat>, taken: seq<nat>)

  /** dispatchToken: a non-blocking send of the next number. */
  function Dispatched(ch: Channel): Channel {
    if |ch.queue| < ch.capacity
    then ch.(next := ch.next + 1, queue := ch.queue + [ch.next])
    else ch.(next := ch.next + 1, dropped := ch.dropped + [ch.next])
  }

  function Received(ch: Channel): Channel
    requires ch.queue != []
  {
    ch.(queue := ch.queue[1..], taken := ch.taken + [ch.queue[0]])
  }

  predicate Ascending(s: seq<nat>, bound: nat) {
    && (forall i, j :: 0 <= i < j < |s| ==> s[i] < s[j])
    && (forall i :: 0 <= i < |s| ==> s[i] < bound)
  }

  /** Every issued number was dropped, is queued or was taken, never two of these, and never twice. */
  ghost predicate Conserved(ch: Channel) {
    && Ascending(ch.taken + ch.queue, ch.next)
    && Ascending(ch.dropped, ch.next)
    && (forall n :: 0 <= n < ch.next ==> (n in ch.dropped <==> n !in ch.taken + ch.queue))
    && |ch.dropped| + |ch.queue| + |ch.taken| == ch.next
    && |ch.queue| <= ch.capacity
  }

  class TokenChannel {
    const capacity: int
    var iterSeq: nat
    var buffer: seq<nat>
    var closed: bool
    var droppedIterations: nat
    ghost var dropped: seq<nat>
    ghost var taken: seq<nat>

    ghost function State(): Channel
      reads this
    {
      Channel(capacity, iterSeq, buffer, closed, dropped, taken)
    }

    ghost predicate Valid()
      reads this
    {
      capacity >= 1 && Conserved(State()) && droppedIterations == |dropped|
    }

    constructor (sc: Scenario)
      requires sc.maxVUs > 0
      ensures Valid() && State() == Channel(BurstBuffer(sc), 0, [], false, [], [])
    {
      capacity := BurstBuffer(sc);
      iterSeq, buffer, closed, droppedIterations := 0, [], false, 0;
      dropped, taken := [], [];
    }

    /** A send on a closed channel would panic, hence the precondition. */
    method DispatchToken()
      requires Valid() && !closed
      modifies this
      ensures Valid() && State() == Dispatched(old(State()))
      ensures droppedIterations == old(droppedIterations) + (if |old(buffer)| == capacity then 1 else 0)
    {
      DispatchKeepsConserved(State());
      var nextIter := iterSeq;
      iterSeq := iterSeq + 1;
      if |buffer| < capacity {
        buffer := buffer + [nextIter];
      } else {
        droppedIterations := droppedIterations + 1;
        dropped := dropped + [nextIter];
      }
    }

    /** Only the first call closes; later ones, as sync.OnceFunc has it, do nothing. */
    method CloseTokens()
      requires Valid()
      modifies this`closed
      ensures Valid() && closed && State() == old(State()).(closed := true)
    {
      if !closed {
        closed := true;
      }
    }

    /** A worker's receive: a token, or the news that the channel is closed and empty. */
    method Receive() returns (token: Option<nat>)
      requires Valid() && (buffer == [] ==> closed)
      modifies this
      ensures Valid()
      ensures old(buffer) == [] ==> token == None && State() == old(State())
      ensures old(buffer) != [] ==> token == Some(old(buffer[0])) && State() == Received(old(State())) && token.value !in old(taken)
    {
      if buffer == [] {
        token := None;
      } else {
        ReceiveKeepsConserved(State());
        token := Some(buffer[0]);
        taken := taken + [buffer[0]];
        buffer := buffer[1..];
      }
    }
  }

  lemma DispatchKeepsConserved(ch: Channel)
    requires Conserved(ch)
    ensures Conserved(Dispatched(ch))
  {
    var ch' := Dispatched(ch);
    if |ch.queue| < ch.capacity {
      assert ch'.taken + ch'.queue == (ch.taken + ch.queue) + [ch.next];
      assert forall n :: n in ch'.taken + ch'.queue <==> n in ch.taken + ch.queue || n == ch.next;
    } else {
      assert forall n :: n in ch'.dropped <==> n in ch.dropped || n == ch.next;
    }
  }

  lemma ReceiveKeepsConserved(ch: Channel)
    requires Conserved(ch) && ch.queue != []
    ensures Conserved(Received(ch)) && ch.queue[0] !in ch.taken
  {
    var ch' := Received(ch);
    assert ch'.taken + ch'.queue == ch.taken + ch.queue;
    forall i | 0 <= i < |ch.taken| ensures ch.taken[i] < ch.queue[0] {
      assert (ch.taken + ch.queue)[i] < (ch.taken + ch.queue)[|ch.taken|];
    }
  }

  // ---------- The run ----------

  /** RampWait and RampRest are the two waits of the ramp-up phase. */
  datatype Phase = RampWait | RampRest | Steady | Finished

  /** `running` maps each token being executed to the time its iteration began; `times` are the dispatch times. */
  datatype State = State(ch: Channel, phase: Phase, now: int, times: seq<int>, ready: nat, running: map<nat, int>,
                         endings: seq<Ending>, cancelled: bool)

  datatype Act =
    | Tick(dt: int)
    | RampToken
    | RampOver
    | SteadyToken
    | CloseTokens
    | Cancel
    | BecomeReady
    | WorkerLeaves
    | Take
    | Finish(token: nat, ending: Ending)

  function Init(sc: Scenario): State {
    State(Channel(BurstBuffer(sc), 0, [], false, [], []), if sc.rampUp > 0 then RampWait else Steady, 0, [], 0, map[], [], false)
  }

  /** The second half of the ramp-up, in clock units. */
  function RemainingRamp(sc: Scenario): int {
    (sc.rampUp - sc.rampUp / 2) * sc.targetTPS
  }

  /** Half of it, up to the nanosecond that an odd ramp-up cannot halve. */
  lemma RemainingRampIsHalf(sc: Scenario)
    requires sc.targetTPS > 0 && sc.rampUp >= 0
    ensures sc.rampUp * sc.targetTPS <= 2 * RemainingRamp(sc) <= (sc.rampUp + 1) * sc.targetTPS
  {
    var rest := sc.rampUp - sc.rampUp / 2;
    assert 2 * RemainingRamp(sc) == (2 * rest) * sc.targetTPS;
    assert sc.rampUp <= 2 * rest <= sc.rampUp + 1;
    Scaled(sc.rampUp, 2 * rest, sc.targetTPS);
    Scaled(2 * rest, sc.rampUp + 1, sc.targetTPS);
  }

  lemma Scaled(a: int, b: int, d: int)
    requires a <= b && d >= 0
    ensures a * d <= b * d
  {
  }

  /** Tokens that are not the rate limiter's: the one at the middle of a ramp-up. */
  function RampTokens(sc: Scenario): nat {
    if sc.rampUp > 0 then 1 else 0
  }

  predicate Enabled(sc: Scenario, s: State, act: Act) {
    match act
    case Tick(dt) => dt > 0
    case RampToken => s.phase == RampWait
    case RampOver => s.phase == RampRest && s.times != [] && s.now >= s.times[|s.times| - 1] + RemainingRamp(sc)
    case SteadyToken => s.phase == Steady && (|s.times| <= RampTokens(sc) || s.now >= s.times[|s.times| - 1] + INTERVAL)
    case CloseTokens => s.phase != Finished
    case Cancel => true
    case BecomeReady => s.ready < sc.maxVUs
    case WorkerLeaves => |s.running| < s.ready && (s.cancelled || (s.ch.closed && s.ch.queue == []))
    case Take => |s.running| < s.ready && s.ch.queue != []
    case Finish(token, ending) => token in s.running
  }

  function Next(sc: Scenario, s: State, act: Act): State
    requires Enabled(sc, s, act)
  {
    match act
    case Tick(dt) => s.(now := s.now + dt)
    case RampToken => s.(phase := RampRest, ch := Dispatched(s.ch), times := s.times + [s.now])
    case RampOver => s.(phase := Steady)
    case SteadyToken => s.(ch := Dispatched(s.ch), times := s.times + [s.now])
    case CloseTokens => s.(phase := Finished, ch := s.ch.(closed := true))
    case Cancel => s.(cancelled := true)
    case BecomeReady => s.(ready := s.ready + 1)
    case WorkerLeaves => s.(ready := s.ready - 1)
    case Take => s.(ch := Received(s.ch), running := s.running[s.ch.queue[0] := s.now])
    case Finish(token, ending) => s.(running := s.running - {token}, endings := s.endings + [ending])
  }

  ghost predicate StepAt(sc: Scenario, acts: seq<Act>, ss: seq<State>, k: nat)
    requires |ss| == |acts| + 1 && k < |acts|
  {
    Enabled(sc, ss[k], acts[k]) && ss[k + 1] == Next(sc, ss[k], acts[k])
  }

  ghost predicate IsRun(sc: Scenario, acts: seq<Act>, ss: seq<State>) {
    |ss| == |acts| + 1 && ss[0] == Init(sc) && forall k: nat :: k < |acts| ==> StepAt(sc, acts, ss, k)
  }

  // ---------- Conservation ----------

  ghost predicate Inv(sc: Scenario, s: State) {
    && Conserved(s.ch)
    && s.ch.capacity >= 1
    && |s.times| == s.ch.next
    && (s.ch.closed <==> s.phase == Finished)
    && (forall k :: k in s.running ==> k in s.ch.taken)
    && |s.ch.taken| == |s.endings| + |s.running|
    && |s.running| <= s.ready <= sc.maxVUs
  }

  lemma StepKeepsInv(sc: Scenario, s: State, act: Act)
    requires Inv(sc, s) && Enabled(sc, s, act)
    ensures Inv(sc, Next(sc, s, act))
  {
    match act
    case RampToken => DispatchKeepsInv(sc, s, act);
    case SteadyToken => DispatchKeepsInv(sc, s, act);
    case Take => TakeKeepsInv(sc, s);
    case Finish(token, ending) => FinishKeepsInv(sc, s, token, ending);
    case _ =>
  }

  lemma DispatchKeepsInv(sc: Scenario, s: State, act: Act)
    requires Inv(sc, s) && Dispatches(act) && Enabled(sc, s, act)
    ensures Inv(sc, Next(sc, s, act))
  {
    DispatchKeepsConserved(s.ch);
  }

  lemma TakeKeepsInv(sc: Scenario, s: State)
    requires Inv(sc, s) && Enabled(sc, s, Take)
    ensures Inv(sc, Next(sc, s, Take))
  {
    ReceiveKeepsConserved(s.ch);
    assert s.ch.queue[0] !in s.running;
  }

  lemma FinishKeepsInv(sc: Scenario, s: State, token: nat, ending: Ending)
    requires Inv(sc, s) && Enabled(sc, s, Finish(token, ending))
    ensures Inv(sc, Next(sc, s, Finish(token, ending)))
  {
    assert (s.running - {token}).Keys == s.running.Keys - {token};
    assert |(s.running - {token}).Keys| == |s.running.Keys| - 1;
  }

  lemma InitInv(sc: Scenario)
    requires sc.maxVUs > 0
    ensures Inv(sc, Init(sc))
  {
  }

  lemma {:induction false} RunInv(sc: Scenario, acts: seq<Act>, ss: seq<State>, k: nat)
    requires sc.maxVUs > 0 && IsRun(sc, acts, ss) && k < |ss|
    ensures Inv(sc, ss[k])
  {
    if k == 0 {
      InitInv(sc);
    } else {
      RunInv(sc, acts, ss, k - 1);
      assert StepAt(sc, acts, ss, k - 1);
      StepKeepsInv(sc, ss[k - 1], acts[k - 1]);
    }
  }

  /** Conservation in every state of every run, and the accounting of the iterations that are over. */
  lemma TokensConserved(sc: Scenario, acts: seq<Act>, ss: seq<State>, k: nat)
    requires sc.maxVUs > 0 && IsRun(sc, acts, ss) && k < |ss|
    ensures Conserved(ss[k].ch)
    ensures forall i, j :: 0 <= i < j < |ss[k].ch.taken| ==> ss[k].ch.taken[i] < ss[k].ch.taken[j]
    ensures var es := ss[k].endings;
            && |ss[k].ch.taken| == Total(es) + Count(Interrupted, es) + |ss[k].running|
            && Failed(es) <= Total(es)
  {
    RunInv(sc, acts, ss, k);
    VerdictsPartition(ss[k].endings);
    var t := ss[k].ch.taken;
    forall i, j | 0 <= i < j < |t| ensures t[i] < t[j] {
      assert (t + ss[k].ch.queue)[i] < (t + ss[k].ch.queue)[j];
    }
  }

  predicate Dispatches(act: Act) {
    act == RampToken || act == SteadyToken
  }

  /** A drop happens only on a full buffer, and no token is ever sent on the closed channel. */
  lemma DispatchIsSafe(sc: Scenario, acts: seq<Act>, ss: seq<State>, k: nat)
    requires sc.maxVUs > 0 && IsRun(sc, acts, ss) && k < |acts| && Dispatches(acts[k])
    ensures !ss[k].ch.closed
    ensures |ss[k + 1].ch.dropped| > |ss[k].ch.dropped| <==> |ss[k].ch.queue| == BurstBuffer(sc)
  {
    RunInv(sc, acts, ss, k);
    assert StepAt(sc, acts, ss, k);
    CapacityFixed(sc, acts, ss, k);
  }

  lemma {:induction false} CapacityFixed(sc: Scenario, acts: seq<Act>, ss: seq<State>, k: nat)
    requires IsRun(sc, acts, ss) && k < |ss|
    ensures ss[k].ch.capacity == BurstBuffer(sc)
  {
    if k > 0 {
      CapacityFixed(sc, acts, ss, k - 1);
      assert StepAt(sc, acts, ss, k - 1);
    }
  }

  /** Ready workers stay until the run is cancelled, or the closed channel is empty and stays so. */
  predicate LeavesInv(s: State, left: bool) {
    left && !s.cancelled ==> s.ch.closed && s.ch.queue == []
  }

  lemma {:induction false} LeavesRun(sc: Scenario, acts: seq<Act>, ss: seq<State>, k: nat)
    requires sc.maxVUs > 0 && IsRun(sc, acts, ss) && k < |ss|
    ensures LeavesInv(ss[k], WorkerLeaves in acts[..k])
  {
    if k > 0 {
      LeavesRun(sc, acts, ss, k - 1);
      RunInv(sc, acts, ss, k - 1);
      assert StepAt(sc, acts, ss, k - 1);
      assert acts[..k] == acts[..k - 1] + [acts[k - 1]];
    }
  }

  /**
   In a run that is not cancelled no queued token is lost: workers leave only when all tokens are taken, and
   when nobody is left to run an iteration each number issued was dropped on a full buffer or had one ending.
   */
  lemma DrainTakesEveryToken(sc: Scenario, acts: seq<Act>, ss: seq<State>, k: nat)
    requires sc.maxVUs > 0 && IsRun(sc, acts, ss) && k < |ss| && !ss[k].cancelled && WorkerLeaves in acts[..k]
    ensures ss[k].ch.closed && ss[k].ch.queue == []
    ensures ss[k].ready == 0 ==> ss[k].ch.next == |ss[k].ch.dropped| + |ss[k].endings|
  {
    LeavesRun(sc, acts, ss, k);
    RunInv(sc, acts, ss, k);
  }
}
