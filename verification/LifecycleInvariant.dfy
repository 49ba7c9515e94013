/**
 What every step of `Lifecycle` keeps.  Counters shared by the workers are tied to
 sums over the workers; each worker's own facts only mention shared values that grow.
 */
module LifecycleInvariant {
  import opened Wrappers
  import opened Quorum
  import opened Lifecycle

  // ---------- Sums over the workers ----------

  datatype Meter = ReadyMeter | FailedMeter | GatedMeter | LiveMeter | GaugeMeter | OnceMeter | IterationMeter | RankMeter(maxRetries: nat)

  function Weight(m: Meter, w: Worker): nat {
    match m
    case ReadyMeter => if w.record == AsReady then 1 else 0
    case FailedMeter => if w.record == AsFailed then 1 else 0
    case GatedMeter => if w.gated then 1 else 0
    case LiveMeter => if w.pc == Exited then 0 else 1
    case GaugeMeter => if w.pc == Born || w.pc == WaitGroupDone || w.pc == Exited then 0 else 1
    case OnceMeter => if w.pc.AbortPublish? || w.pc == AbortClose then 1 else 0
    case IterationMeter => w.iterations
    case RankMeter(maxRetries) => Rank(maxRetries, w)
  }

  /** An upper bound on the steps a worker can still take once its pacer has signalled the stop. */
  function Rank(maxRetries: nat, w: Worker): nat {
    var retries := if w.fails <= maxRetries then maxRetries + 1 - w.fails else 0;
    match w.pc
    case Born => 12 + 2 * (maxRetries + 1)
    case PreTest => 9 + 2 * retries
    case Backoff => 10 + 2 * retries
    case ReportReady => 7
    case OpenGate(_) => 6
    case WaitGate => 5
    case ReportFailed => 8
    case CheckFailed(_) => 7
    case AbortDo => 6
    case AbortPublish(_) => 5
    case AbortClose => 4
    case Loop => 4
    case Iterating => 5
    case Deferred => 3
    case GaugeDown => 2
    case WaitGroupDone => 1
    case Exited => 0
  }

  function Sum(m: Meter, ws: seq<Worker>): nat {
    if ws == [] then 0 else Weight(m, ws[0]) + Sum(m, ws[1..])
  }

  lemma {:induction false} SumUpdate(m: Meter, ws: seq<Worker>, i: nat, w: Worker)
    requires i < |ws|
    ensures Sum(m, ws[i := w]) == Sum(m, ws) - Weight(m, ws[i]) + Weight(m, w)
  {
    if i == 0 {
      assert ws[0 := w][1..] == ws[1..];
    } else {
      SumUpdate(m, ws[1..], i - 1, w);
      assert ws[i := w][1..] == ws[1..][i - 1 := w];
    }
  }

  lemma {:induction false} SumAppend(m: Meter, ws: seq<Worker>, w: Worker)
    ensures Sum(m, ws + [w]) == Sum(m, ws) + Weight(m, w)
  {
    if ws == [] {
      assert ws + [w] == [w];
    } else {
      SumAppend(m, ws[1..], w);
      assert (ws + [w])[1..] == ws[1..] + [w];
    }
  }

  lemma {:induction false} SumAtLeast(m: Meter, ws: seq<Worker>, i: nat)
    requires i < |ws|
    ensures Sum(m, ws) >= Weight(m, ws[i])
  {
    if i > 0 {
      SumAtLeast(m, ws[1..], i - 1);
    }
  }

  lemma {:induction false} SumWitness(m: Meter, ws: seq<Worker>) returns (i: nat)
    requires Sum(m, ws) > 0
    ensures i < |ws| && Weight(m, ws[i]) > 0
  {
    if Weight(m, ws[0]) > 0 {
      i := 0;
    } else {
      i := SumWitness(m, ws[1..]);
      i := i + 1;
    }
  }

  lemma {:induction false} SumBound(m: Meter, n: Meter, k: Meter, ws: seq<Worker>)
    requires forall i | 0 <= i < |ws| :: Weight(m, ws[i]) + Weight(n, ws[i]) <= Weight(k, ws[i])
    ensures Sum(m, ws) + Sum(n, ws) <= Sum(k, ws)
  {
    if ws != [] {
      SumBound(m, n, k, ws[1..]);
    }
  }

  lemma {:induction false} GatedAtMostAll(ws: seq<Worker>)
    ensures Sum(GatedMeter, ws) <= |ws|
  {
    if ws != [] {
      GatedAtMostAll(ws[1..]);
    }
  }

  // ---------- The invariant ----------

  ghost predicate GateInv(c: Config, g: Gate) {
    && g.target == Target(c.planned)
    && g.required == Required(c.planned, c.ratio)
    && 1 <= g.required <= g.target
    && g.ready >= 0 && g.failed >= 0
    && (g.readyClosed ==> g.ready >= g.required)
    && (g.abortClosed <==> g.abortOnce == Finished)
    && (g.abortOnce == Fresh ==> g.abortErr == None)
    && (g.abortOnce == Finished ==> g.abortErr.Some?)
    && (g.abortErr.Some? ==> ErrorInv(g, g.abortErr.value))
  }

  ghost predicate ErrorInv(g: Gate, e: QuorumError) {
    && e.target == g.target && e.required == g.required
    && (e.cause == WorkerFailed ==> g.failed > g.target - g.required)
  }

  function Repeat(h: Hook, n: nat): seq<Hook> {
    if n == 0 then [] else Repeat(h, n - 1) + [h]
  }

  function Shape(fails: nat, passed: bool, iterations: nat, finished: bool): seq<Hook> {
    Repeat(PreFailed, fails) + (if passed then [PrePassed] else []) + Repeat(RunVU, iterations)
    + (if finished then [AfterTest] else [])
  }

  predicate Finishing(pc: WorkerPC) {
    pc == GaugeDown || pc == WaitGroupDone || pc == Exited
  }

  /** The hooks a worker has run so far are exactly those its counters and position account for. */
  ghost predicate TraceInv(c: Config, w: Worker) {
    && w.trace == Shape(w.fails, w.passed && c.hasPreTest, w.iterations, Finishing(w.pc) && c.hasAfterTest)
    && (!c.hasPreTest ==> w.fails == 0)
    && w.fails <= c.maxRetries + (if w.passed then 0 else 1)
    && (w.iterations > 0 ==> w.passed)
    && match w.pc
       case Born => w.fails == 0 && !w.passed
       case PreTest => w.fails <= c.maxRetries && !w.passed && c.hasPreTest
       case Backoff => w.fails <= c.maxRetries && !w.passed && c.hasPreTest
       case ReportReady => w.passed && w.iterations == 0
       case OpenGate(_) => w.passed && w.iterations == 0
       case WaitGate => w.passed && w.iterations == 0
       case Loop => w.passed
       case Iterating => w.passed
       case _ => true
  }

  /** What a worker has reported to the gate, and what that says about the gate's counters. */
  ghost predicate RecordInv(c: Config, g: Gate, w: Worker) {
    && (w.gated ==> c.gated)
    && (w.record != Unrecorded ==> w.gated)
    && (c.gated && (w.iterations > 0 || !w.gated) ==> g.ready >= g.required)
    && match w.pc
       case Born => w.record == Unrecorded
       case PreTest => w.record == Unrecorded
       case Backoff => w.record == Unrecorded
       case ReportReady => w.record == Unrecorded && w.gated
       case OpenGate(n) => w.record == AsReady && 1 <= n <= g.ready
       case WaitGate => w.record == AsReady
       case ReportFailed => w.record == Unrecorded && w.gated
       case CheckFailed(n) => w.record == AsFailed && 1 <= n <= g.failed
       case AbortDo => w.record == AsFailed && g.failed > g.target - g.required
       case AbortPublish(e) => w.record == AsFailed && ErrorInv(g, e) && e.cause == WorkerFailed
       case AbortClose => w.record == AsFailed && g.failed > g.target - g.required && g.abortErr.Some?
       case Loop => c.gated ==> g.ready >= g.required
       case Iterating => c.gated ==> g.ready >= g.required
       case _ => true
  }

  ghost predicate WorkerInv(c: Config, g: Gate, w: Worker) {
    TraceInv(c, w) && RecordInv(c, g, w)
  }

  predicate PacerHoldsOnce(p: PacerPC) {
    p.GracePublish? || p == GraceClose
  }

  /** The pacer reached its run phase with no error. */
  predicate PassedStartup(p: PacerPC) {
    || p == Running
    || ((p.Stopping? || p.Draining? || p.DrainWait? || p.Returned? || p.TearingDown? || p.Done?) && p.outcome == NoError)
  }

  predicate StopSignalled(p: PacerPC) {
    p.Draining? || p.DrainWait? || p.Returned? || p.TearingDown? || (p.Done? && p.outcome != SetupFailed)
  }

  predicate Joined(p: PacerPC) {
    p.Returned? || p.TearingDown? || (p.Done? && p.outcome != SetupFailed)
  }

  ghost predicate PacerInv(c: Config, s: State) {
    var p, g := s.pacer, s.sh.gate;
    && (c.gated && PassedStartup(p) ==> g.ready >= g.required)
    && (p.GracePublish? ==> ErrorInv(g, p.error) && p.error.cause == GraceExpired)
    && (p == GraceClose ==> g.abortErr.Some?)
    && (p == Setup || p == Spawning ==> |s.workers| <= if Initial(c) < 0 then 0 else Initial(c))
    && (p == Setup || p == Done(SetupFailed) ==> s.workers == [])
    && (p.Cancelling? || p.Stopping? || p.Draining? || p.DrainWait? || p.Returned? || p.TearingDown? || p.Done? ==>
          && (p.outcome == SetupFailed ==> p.Done?)
          && (p.outcome.QuorumFailed? ==> g.abortOnce == Finished && p.outcome.error == g.abortErr))
    && (p.Cancelling? ==> p.outcome != NoError)
    && (StopSignalled(p) <==> s.sh.stopAll)
    && (p.DrainWait? ==> s.sh.cancelled)
    && (Joined(p) ==> s.sh.waitGroup == 0)
    && s.teardowns == (if p.Done? && p.outcome != SetupFailed then 1 else 0)
    && ((p == Awaiting || p == GraceDo || p.GracePublish? || p == GraceClose) ==> c.gated)
  }

  ghost predicate MonitorInv(s: State) {
    && (s.monitor == ReasonStored || s.monitor == RunCancelled || s.monitor == AbortedClosed <==> s.reason != "")
    && (s.monitor == RunCancelled || s.monitor == AbortedClosed ==> s.parentCancelled)
    && (s.parentCancelled ==> s.sh.cancelled)
    && (s.aborted ==> s.abortReason != "" && s.abortReason == s.reason)
    && (s.aborted ==> (s.pacer.TearingDown? || s.pacer.Done?) && s.pacer.outcome == NoError)
    && (!Monitored(s.pacer) ==> s.monitor == Watching)
  }

  ghost predicate SumsInv(c: Config, s: State) {
    var g := s.sh.gate;
    && g.ready == Sum(ReadyMeter, s.workers)
    && g.failed == Sum(FailedMeter, s.workers)
    && Sum(GatedMeter, s.workers) <= g.target
    && s.sh.waitGroup == Sum(LiveMeter, s.workers)
    && s.sh.gauge == c.gauge0 + Sum(GaugeMeter, s.workers)
    && Sum(OnceMeter, s.workers) + (if PacerHoldsOnce(s.pacer) then 1 else 0) == (if g.abortOnce == Entered then 1 else 0)
  }

  predicate WillOpen(g: Gate, w: Worker) {
    w.pc.OpenGate? && w.pc.currentReady >= g.required
  }

  predicate WillAbort(g: Gate, w: Worker) {
    w.pc == AbortDo || (w.pc.CheckFailed? && TooManyFailures(g, w.pc.currentFailed))
  }

  /** Whoever moved a counter past its bound still has to act on it, or has. */
  ghost predicate PendingInv(s: State) {
    var g := s.sh.gate;
    && (g.ready >= g.required ==> g.readyClosed || exists i :: 0 <= i < |s.workers| && WillOpen(g, s.workers[i]))
    && (g.failed > g.target - g.required ==> g.abortOnce != Fresh || exists i :: 0 <= i < |s.workers| && WillAbort(g, s.workers[i]))
  }

  ghost predicate Inv(c: Config, s: State) {
    && GateInv(c, s.sh.gate)
    && SumsInv(c, s)
    && PendingInv(s)
    && PacerInv(c, s)
    && MonitorInv(s)
    && forall i :: 0 <= i < |s.workers| ==> WorkerInv(c, s.sh.gate, s.workers[i])
  }

  /** Gates only move forward, so the facts other workers rely on survive every step. */
  predicate Grows(g: Gate, g': Gate) {
    && g'.target == g.target && g'.required == g.required
    && g'.ready >= g.ready && g'.failed >= g.failed
    && (g.readyClosed ==> g'.readyClosed)
    && (g.abortClosed ==> g'.abortClosed)
    && (g.abortErr.Some? ==> g'.abortErr.Some?)
    && (g.abortOnce == Finished ==> g'.abortOnce == Finished && g'.abortErr == g.abortErr)
  }

  predicate RunsHook(a: WorkerAct) {
    a == PreTestPasses || a == PreTestFails || a == Iterate || a == RunDeferred
  }

  lemma ShapeGrows(fails: nat, passed: bool, iterations: nat)
    ensures Shape(fails + 1, false, 0, false) == Shape(fails, false, 0, false) + [PreFailed]
    ensures Shape(fails, true, 0, false) == Shape(fails, false, 0, false) + [PrePassed]
    ensures Shape(fails, passed, iterations + 1, false) == Shape(fails, passed, iterations, false) + [RunVU]
    ensures Shape(fails, passed, iterations, true) == Shape(fails, passed, iterations, false) + [AfterTest]
  {
  }

  lemma PreTestStep(c: Config, sh: Shared, w: Worker, a: WorkerAct)
    requires TraceInv(c, w) && WorkerEnabled(c, sh, w, a) && (a == PreTestPasses || a == PreTestFails)
    ensures TraceInv(c, WorkerStep(c, sh, w, a).1)
  {
    ShapeGrows(w.fails, w.passed && c.hasPreTest, w.iterations);
  }

  lemma HookStep(c: Config, sh: Shared, w: Worker, a: WorkerAct)
    requires TraceInv(c, w) && WorkerEnabled(c, sh, w, a) && RunsHook(a)
    ensures TraceInv(c, WorkerStep(c, sh, w, a).1)
  {
    if a == PreTestPasses || a == PreTestFails {
      PreTestStep(c, sh, w, a);
    } else {
      ShapeGrows(w.fails, w.passed && c.hasPreTest, w.iterations);
    }
  }

  lemma QuietStep(c: Config, sh: Shared, w: Worker, a: WorkerAct)
    requires TraceInv(c, w) && WorkerEnabled(c, sh, w, a) && !RunsHook(a)
    ensures TraceInv(c, WorkerStep(c, sh, w, a).1)
  {
  }

  lemma GateStep(c: Config, sh: Shared, w: Worker, a: WorkerAct)
    requires GateInv(c, sh.gate) && RecordInv(c, sh.gate, w)
    requires WorkerEnabled(c, sh, w, a)
    requires w.pc.AbortPublish? || w.pc == AbortClose ==> sh.gate.abortOnce == Entered
    ensures var g' := WorkerStep(c, sh, w, a).0.gate;
            GateInv(c, g') && Grows(sh.gate, g')
  {
  }

  /** The steps of RecordReady, of RecordFailed and of triggerAbort. */
  predicate Reports(a: WorkerAct) {
    a == CountReady || a == SignalReady || a == CountFailed || a == JudgeFailed
  }

  predicate Aborts(a: WorkerAct) {
    a == EnterAbort || a == SkipAbort || a == StoreError || a == SignalAbort
  }

  /** No other step touches the gate or the worker's report. */
  lemma OtherStep(c: Config, sh: Shared, w: Worker, a: WorkerAct)
    requires WorkerEnabled(c, sh, w, a) && !Reports(a) && !Aborts(a)
    ensures var (sh', w') := WorkerStep(c, sh, w, a);
            sh'.gate == sh.gate && w'.record == w.record && w'.gated == w.gated && w'.stop == w.stop
  {
  }

  lemma ReportKeepsRecord(c: Config, sh: Shared, w: Worker, a: WorkerAct)
    requires GateInv(c, sh.gate) && RecordInv(c, sh.gate, w) && WorkerEnabled(c, sh, w, a) && Reports(a)
    ensures var (sh', w') := WorkerStep(c, sh, w, a); RecordInv(c, sh'.gate, w')
  {
  }

  lemma AbortKeepsRecord(c: Config, sh: Shared, w: Worker, a: WorkerAct)
    requires GateInv(c, sh.gate) && RecordInv(c, sh.gate, w) && WorkerEnabled(c, sh, w, a) && Aborts(a)
    ensures var (sh', w') := WorkerStep(c, sh, w, a); RecordInv(c, sh'.gate, w')
  {
  }

  lemma OtherKeepsRecord(c: Config, sh: Shared, w: Worker, a: WorkerAct)
    requires GateInv(c, sh.gate) && RecordInv(c, sh.gate, w) && WorkerEnabled(c, sh, w, a) && !Reports(a) && !Aborts(a)
    ensures var (sh', w') := WorkerStep(c, sh, w, a); RecordInv(c, sh'.gate, w')
  {
  }

  lemma RecordStep(c: Config, sh: Shared, w: Worker, a: WorkerAct)
    requires GateInv(c, sh.gate) && RecordInv(c, sh.gate, w)
    requires WorkerEnabled(c, sh, w, a)
    ensures var (sh', w') := WorkerStep(c, sh, w, a);
            RecordInv(c, sh'.gate, w')
  {
    if Reports(a) { ReportKeepsRecord(c, sh, w, a); }
    else if Aborts(a) { AbortKeepsRecord(c, sh, w, a); }
    else { OtherKeepsRecord(c, sh, w, a); }
  }

  /** Counters move with the workers that moved them. */
  lemma MeterStep(c: Config, sh: Shared, w: Worker, a: WorkerAct)
    requires WorkerEnabled(c, sh, w, a) && RecordInv(c, sh.gate, w)
    ensures var (sh', w') := WorkerStep(c, sh, w, a);
            && sh'.gate.ready - sh.gate.ready == Weight(ReadyMeter, w') - Weight(ReadyMeter, w)
            && sh'.gate.failed - sh.gate.failed == Weight(FailedMeter, w') - Weight(FailedMeter, w)
            && w'.gated == w.gated && w'.stop == w.stop
  {
    if Reports(a) { ReportMoves(c, sh, w, a); }
    else if Aborts(a) { AbortMoves(c, sh, w, a); }
    else { OtherStep(c, sh, w, a); }
  }

  lemma ReportMoves(c: Config, sh: Shared, w: Worker, a: WorkerAct)
    requires WorkerEnabled(c, sh, w, a) && RecordInv(c, sh.gate, w) && Reports(a)
    ensures var (sh', w') := WorkerStep(c, sh, w, a);
            && sh'.gate.ready - sh.gate.ready == Weight(ReadyMeter, w') - Weight(ReadyMeter, w)
            && sh'.gate.failed - sh.gate.failed == Weight(FailedMeter, w') - Weight(FailedMeter, w)
            && w'.gated == w.gated && w'.stop == w.stop
  {
  }

  lemma AbortMoves(c: Config, sh: Shared, w: Worker, a: WorkerAct)
    requires WorkerEnabled(c, sh, w, a) && Aborts(a)
    ensures var (sh', w') := WorkerStep(c, sh, w, a);
            && sh'.gate.ready == sh.gate.ready && sh'.gate.failed == sh.gate.failed
            && w'.record == w.record && w'.gated == w.gated && w'.stop == w.stop
  {
  }

  lemma SharedKept(c: Config, sh: Shared, w: Worker, a: WorkerAct)
    requires WorkerEnabled(c, sh, w, a)
    ensures var sh' := WorkerStep(c, sh, w, a).0;
            sh'.stopAll == sh.stopAll && sh'.cancelled == sh.cancelled
  {
  }

  lemma LiveStep(c: Config, sh: Shared, w: Worker, a: WorkerAct)
    requires WorkerEnabled(c, sh, w, a)
    ensures var (sh', w') := WorkerStep(c, sh, w, a);
            && sh'.waitGroup - sh.waitGroup == Weight(LiveMeter, w') - Weight(LiveMeter, w)
            && sh'.gauge - sh.gauge == Weight(GaugeMeter, w') - Weight(GaugeMeter, w)
  {
    GaugeStep(c, sh, w, a);
  }

  lemma GaugeStep(c: Config, sh: Shared, w: Worker, a: WorkerAct)
    requires WorkerEnabled(c, sh, w, a)
    ensures var (sh', w') := WorkerStep(c, sh, w, a);
            sh'.gauge - sh.gauge == Weight(GaugeMeter, w') - Weight(GaugeMeter, w)
  {
  }

  lemma OnceStep(c: Config, sh: Shared, w: Worker, a: WorkerAct)
    requires WorkerEnabled(c, sh, w, a)
    requires w.pc.AbortPublish? || w.pc == AbortClose ==> sh.gate.abortOnce == Entered
    ensures var (sh', w') := WorkerStep(c, sh, w, a);
            Weight(OnceMeter, w') - Weight(OnceMeter, w) ==
            (if sh'.gate.abortOnce == Entered then 1 else 0) - (if sh.gate.abortOnce == Entered then 1 else 0)
  {
  }

  lemma OnceHolder(c: Config, s: State, i: nat)
    requires SumsInv(c, s) && i < |s.workers|
    ensures s.workers[i].pc.AbortPublish? || s.workers[i].pc == AbortClose ==> s.sh.gate.abortOnce == Entered
  {
    SumAtLeast(OnceMeter, s.workers, i);
  }

  lemma SumsMove(c: Config, s: State, i: nat, sh': Shared, w': Worker)
    requires SumsInv(c, s) && i < |s.workers|
    requires var sh, w := s.sh, s.workers[i];
             && sh'.gate.target == sh.gate.target && w'.gated == w.gated
             && sh'.gate.ready - sh.gate.ready == Weight(ReadyMeter, w') - Weight(ReadyMeter, w)
             && sh'.gate.failed - sh.gate.failed == Weight(FailedMeter, w') - Weight(FailedMeter, w)
             && sh'.waitGroup - sh.waitGroup == Weight(LiveMeter, w') - Weight(LiveMeter, w)
             && sh'.gauge - sh.gauge == Weight(GaugeMeter, w') - Weight(GaugeMeter, w)
             && Weight(OnceMeter, w') - Weight(OnceMeter, w) ==
                (if sh'.gate.abortOnce == Entered then 1 else 0) - (if sh.gate.abortOnce == Entered then 1 else 0)
    ensures SumsInv(c, s.(sh := sh', workers := s.workers[i := w']))
  {
    SumUpdate(ReadyMeter, s.workers, i, w');
    SumUpdate(FailedMeter, s.workers, i, w');
    SumUpdate(GatedMeter, s.workers, i, w');
    SumUpdate(LiveMeter, s.workers, i, w');
    SumUpdate(GaugeMeter, s.workers, i, w');
    SumUpdate(OnceMeter, s.workers, i, w');
  }

  lemma WorkerKeepsSums(c: Config, s: State, i: nat, a: WorkerAct)
    requires SumsInv(c, s) && i < |s.workers| && WorkerEnabled(c, s.sh, s.workers[i], a)
    requires RecordInv(c, s.sh.gate, s.workers[i])
    requires Grows(s.sh.gate, Next(c, s, ByWorker(i, a)).sh.gate)
    ensures SumsInv(c, Next(c, s, ByWorker(i, a)))
  {
    OnceHolder(c, s, i);
    MeterStep(c, s.sh, s.workers[i], a);
    LiveStep(c, s.sh, s.workers[i], a);
    OnceStep(c, s.sh, s.workers[i], a);
    var (sh', w') := WorkerStep(c, s.sh, s.workers[i], a);
    SumsMove(c, s, i, sh', w');
  }

  /** A step that does not open the gate keeps its own pending duty or has done it. */
  lemma PendingStep(c: Config, sh: Shared, w: Worker, a: WorkerAct)
    requires WorkerEnabled(c, sh, w, a) && RecordInv(c, sh.gate, w)
    ensures var (sh', w') := WorkerStep(c, sh, w, a);
            && (WillOpen(sh.gate, w) ==> sh'.gate.readyClosed)
            && (sh'.gate.ready > sh.gate.ready && sh'.gate.ready >= sh'.gate.required ==> WillOpen(sh'.gate, w'))
            && (WillAbort(sh.gate, w) ==> sh'.gate.abortOnce != Fresh || WillAbort(sh'.gate, w'))
            && (sh'.gate.failed > sh.gate.failed && sh'.gate.failed > sh'.gate.target - sh'.gate.required ==> WillAbort(sh'.gate, w'))
            && (sh.gate.abortOnce != Fresh ==> sh'.gate.abortOnce != Fresh)
  {
  }

  lemma WorkerKeepsPending(c: Config, s: State, i: nat, a: WorkerAct)
    requires PendingInv(s) && i < |s.workers| && WorkerEnabled(c, s.sh, s.workers[i], a)
    requires RecordInv(c, s.sh.gate, s.workers[i])
    requires Grows(s.sh.gate, Next(c, s, ByWorker(i, a)).sh.gate)
    ensures PendingInv(Next(c, s, ByWorker(i, a)))
  {
    var s' := Next(c, s, ByWorker(i, a));
    PendingStep(c, s.sh, s.workers[i], a);
    var g, g' := s.sh.gate, s'.sh.gate;
    if g'.ready >= g'.required && !g'.readyClosed {
      if g'.ready > g.ready {
        assert WillOpen(g', s'.workers[i]);
      } else {
        var k :| 0 <= k < |s.workers| && WillOpen(g, s.workers[k]);
        assert WillOpen(g', s'.workers[k]);
      }
    }
    if g'.failed > g'.target - g'.required && g'.abortOnce == Fresh {
      if g'.failed > g.failed {
        assert WillAbort(g', s'.workers[i]);
      } else {
        var k :| 0 <= k < |s.workers| && WillAbort(g, s.workers[k]);
        assert WillAbort(g', s'.workers[k]);
      }
    }
  }

  lemma WorkerKeepsPacer(c: Config, s: State, i: nat, a: WorkerAct)
    requires PacerInv(c, s) && SumsInv(c, s) && i < |s.workers| && WorkerEnabled(c, s.sh, s.workers[i], a)
    requires RecordInv(c, s.sh.gate, s.workers[i])
    requires Grows(s.sh.gate, Next(c, s, ByWorker(i, a)).sh.gate)
    ensures PacerInv(c, Next(c, s, ByWorker(i, a)))
  {
    SumAtLeast(LiveMeter, s.workers, i);
    SharedKept(c, s.sh, s.workers[i], a);
    LiveStep(c, s.sh, s.workers[i], a);
  }

  lemma OthersUnaffected(c: Config, g: Gate, g': Gate, w: Worker)
    requires WorkerInv(c, g, w) && Grows(g, g')
    ensures WorkerInv(c, g', w)
  {
  }

  lemma WorkerKeepsInv(c: Config, s: State, i: nat, a: WorkerAct)
    requires Inv(c, s) && i < |s.workers| && WorkerEnabled(c, s.sh, s.workers[i], a)
    ensures Inv(c, Next(c, s, ByWorker(i, a)))
  {
    var w, s' := s.workers[i], Next(c, s, ByWorker(i, a));
    OnceHolder(c, s, i);
    GateStep(c, s.sh, w, a);
    RecordStep(c, s.sh, w, a);
    if RunsHook(a) { HookStep(c, s.sh, w, a); } else { QuietStep(c, s.sh, w, a); }
    WorkerKeepsSums(c, s, i, a);
    WorkerKeepsPending(c, s, i, a);
    WorkerKeepsPacer(c, s, i, a);
    SharedKept(c, s.sh, w, a);
    forall k | 0 <= k < |s.workers| ensures WorkerInv(c, s'.sh.gate, s'.workers[k]) {
      if k != i { OthersUnaffected(c, s.sh.gate, s'.sh.gate, s.workers[k]); }
    }
  }

  // ---------- Steps of the pacer, the executor, the monitor and the environment ----------

  predicate Spawns(act: Act) {
    act == Spawn || act == Grow
  }

  predicate TouchesGate(act: Act) {
    act == GraceEnter || act == GraceStore || act == GraceSignal
  }

  /** Workers may be added or have their stop channel closed; the gate keeps its counters. */
  lemma KeepsPending(s: State, s': State)
    requires PendingInv(s)
    requires var g, g' := s.sh.gate, s'.sh.gate;
             && g'.ready == g.ready && g'.failed == g.failed && g'.target == g.target && g'.required == g.required
             && (g.readyClosed ==> g'.readyClosed) && (g.abortOnce != Fresh ==> g'.abortOnce != Fresh)
    requires |s.workers| <= |s'.workers| && forall k | 0 <= k < |s.workers| :: s'.workers[k].pc == s.workers[k].pc
    ensures PendingInv(s')
  {
    var g, g' := s.sh.gate, s'.sh.gate;
    if g.ready >= g.required && !g'.readyClosed {
      var k :| 0 <= k < |s.workers| && WillOpen(g, s.workers[k]);
      assert WillOpen(g', s'.workers[k]);
    }
    if g.failed > g.target - g.required && g'.abortOnce == Fresh {
      var k :| 0 <= k < |s.workers| && WillAbort(g, s.workers[k]);
      assert WillAbort(g', s'.workers[k]);
    }
  }

  lemma SpawnKeepsSums(c: Config, s: State, gated: bool)
    requires SumsInv(c, s) && (gated ==> |s.workers| < s.sh.gate.target)
    ensures SumsInv(c, SpawnOne(s, gated))
  {
    var w := NewWorker(gated);
    SumAppend(ReadyMeter, s.workers, w);
    SumAppend(FailedMeter, s.workers, w);
    SumAppend(GatedMeter, s.workers, w);
    SumAppend(LiveMeter, s.workers, w);
    SumAppend(GaugeMeter, s.workers, w);
    SumAppend(OnceMeter, s.workers, w);
    GatedAtMostAll(s.workers);
  }

  lemma SpawnKeepsPacer(c: Config, s: State, act: Act)
    requires PacerInv(c, s) && Spawns(act) && Enabled(c, s, act)
    ensures PacerInv(c, Next(c, s, act))
  {
  }

  lemma NewWorkerInv(c: Config, g: Gate, gated: bool)
    requires gated ==> c.gated
    requires c.gated && !gated ==> g.ready >= g.required
    ensures WorkerInv(c, g, NewWorker(gated))
  {
    assert Shape(0, false, 0, false) == [];
  }

  lemma SpawnKeepsInv(c: Config, s: State, act: Act)
    requires Inv(c, s) && Spawns(act) && Enabled(c, s, act)
    ensures Inv(c, Next(c, s, act))
  {
    var gated := act == Spawn && c.gated;
    var s' := SpawnOne(s, gated);
    assert s' == Next(c, s, act);
    SpawnKeepsSums(c, s, gated);
    SpawnKeepsPacer(c, s, act);
    KeepsPending(s, s');
    NewWorkerInv(c, s.sh.gate, gated);
  }

  lemma GraceKeepsGate(c: Config, s: State, act: Act)
    requires GateInv(c, s.sh.gate) && PacerInv(c, s) && TouchesGate(act) && Enabled(c, s, act)
    requires PacerHoldsOnce(s.pacer) ==> s.sh.gate.abortOnce == Entered
    ensures GateInv(c, Next(c, s, act).sh.gate) && Grows(s.sh.gate, Next(c, s, act).sh.gate)
  {
    var g := s.sh.gate;
    match act
    case GraceEnter => GateMoves(c, g, EnterOnce(g));
    case GraceStore => GateMoves(c, g, PublishError(g, s.pacer.error));
    case GraceSignal => GateMoves(c, g, CloseAbort(g));
  }

  /** triggerAbort's three steps are the only ones a gate can make here. */
  lemma GateMoves(c: Config, g: Gate, g': Gate)
    requires GateInv(c, g)
    requires || (g' == EnterOnce(g) && g.abortOnce == Fresh)
             || (g.abortOnce == Entered && g'.abortErr.Some? && g' == PublishError(g, g'.abortErr.value) && ErrorInv(g, g'.abortErr.value))
             || (g' == CloseAbort(g) && g.abortErr.Some?)
    ensures GateInv(c, g') && Grows(g, g')
  {
  }

  lemma GraceKeepsSums(c: Config, s: State, act: Act)
    requires SumsInv(c, s) && TouchesGate(act) && Enabled(c, s, act)
    ensures SumsInv(c, Next(c, s, act))
  {
  }

  lemma GraceKeepsPacer(c: Config, s: State, act: Act)
    requires GateInv(c, s.sh.gate) && PacerInv(c, s) && TouchesGate(act) && Enabled(c, s, act)
    ensures PacerInv(c, Next(c, s, act))
  {
  }

  lemma GraceKeepsInv(c: Config, s: State, act: Act)
    requires Inv(c, s) && TouchesGate(act) && Enabled(c, s, act)
    ensures Inv(c, Next(c, s, act))
  {
    var s' := Next(c, s, act);
    GraceKeepsGate(c, s, act);
    GraceKeepsSums(c, s, act);
    GraceKeepsPacer(c, s, act);
    KeepsPending(s, s');
    forall k | 0 <= k < |s.workers| ensures WorkerInv(c, s'.sh.gate, s'.workers[k]) {
      OthersUnaffected(c, s.sh.gate, s'.sh.gate, s.workers[k]);
    }
  }

  lemma StopKeepsWorker(c: Config, g: Gate, w: Worker)
    requires WorkerInv(c, g, w)
    ensures WorkerInv(c, g, w.(stop := true))
  {
  }

  lemma ShrinkKeepsPacer(c: Config, s: State, j: nat)
    requires PacerInv(c, s) && Enabled(c, s, Shrink(j))
    ensures PacerInv(c, Next(c, s, Shrink(j)))
  {
  }

  lemma ShrinkKeepsInv(c: Config, s: State, j: nat)
    requires Inv(c, s) && Enabled(c, s, Shrink(j))
    ensures Inv(c, Next(c, s, Shrink(j)))
  {
    var w', s' := s.workers[j].(stop := true), Next(c, s, Shrink(j));
    SumsMove(c, s, j, s.sh, w');
    ShrinkKeepsPacer(c, s, j);
    StopKeepsWorker(c, s.sh.gate, s.workers[j]);
    KeepsPending(s, s');
  }

  predicate StartsUp(act: Act) {
    act == SetupPasses || act == SetupFails || act == SpawnInterrupted || act == SpawnFinished
  }

  predicate Decides(act: Act) {
    act == QuorumReady || act == QuorumAborted || act == QuorumCancelled || act == GraceTimer || act == GraceSkip || act == CancelRun
  }

  predicate Stops(act: Act) {
    act == Dispatch || act == EndRun || act == CloseStop || act == DrainTimeout
  }

  predicate Finishes(act: Act) {
    act == Drained || act == CheckAborted || act == Teardown
  }

  predicate FromOutside(act: Act) {
    act == ParentCancels || act.Breach? || act == MonitorCancels || act == MonitorCloses || act == MonitorQuits
  }

  /** Everything but the pacer and the monitor depends on the workers and the gate alone. */
  lemma SameWorkers(c: Config, s: State, s': State)
    requires Inv(c, s) && PacerInv(c, s') && MonitorInv(s')
    requires s'.workers == s.workers && s'.sh.gate == s.sh.gate && s'.sh.waitGroup == s.sh.waitGroup && s'.sh.gauge == s.sh.gauge
    requires PacerHoldsOnce(s'.pacer) == PacerHoldsOnce(s.pacer)
    ensures Inv(c, s')
  {
    KeepsPending(s, s');
  }

  lemma StartUpKeepsControl(c: Config, s: State, act: Act)
    requires PacerInv(c, s) && MonitorInv(s) && StartsUp(act) && Enabled(c, s, act)
    ensures PacerInv(c, Next(c, s, act)) && MonitorInv(Next(c, s, act))
  {
  }

  lemma StartUpKeepsInv(c: Config, s: State, act: Act)
    requires Inv(c, s) && StartsUp(act) && Enabled(c, s, act)
    ensures Inv(c, Next(c, s, act))
  {
    StartUpKeepsControl(c, s, act);
    SameWorkers(c, s, Next(c, s, act));
  }

  lemma CancelKeepsControl(c: Config, s: State)
    requires PacerInv(c, s) && MonitorInv(s) && Enabled(c, s, CancelRun)
    ensures PacerInv(c, Next(c, s, CancelRun)) && MonitorInv(Next(c, s, CancelRun))
  {
  }

  lemma TimerKeepsControl(c: Config, s: State)
    requires PacerInv(c, s) && MonitorInv(s) && Enabled(c, s, GraceTimer)
    ensures PacerInv(c, Next(c, s, GraceTimer)) && MonitorInv(Next(c, s, GraceTimer))
  {
  }

  lemma SkipKeepsControl(c: Config, s: State)
    requires PacerInv(c, s) && MonitorInv(s) && Enabled(c, s, GraceSkip)
    ensures PacerInv(c, Next(c, s, GraceSkip)) && MonitorInv(Next(c, s, GraceSkip))
  {
  }

  lemma QuorumKeepsControl(c: Config, s: State, act: Act)
    requires PacerInv(c, s) && MonitorInv(s) && GateInv(c, s.sh.gate) && Enabled(c, s, act)
    requires act == QuorumReady || act == QuorumAborted || act == QuorumCancelled
    ensures PacerInv(c, Next(c, s, act)) && MonitorInv(Next(c, s, act))
  {
  }

  lemma CancelKeepsInv(c: Config, s: State)
    requires Inv(c, s) && Enabled(c, s, CancelRun)
    ensures Inv(c, Next(c, s, CancelRun))
  {
    CancelKeepsControl(c, s);
    SameWorkers(c, s, Next(c, s, CancelRun));
  }

  lemma TimerKeepsInv(c: Config, s: State)
    requires Inv(c, s) && Enabled(c, s, GraceTimer)
    ensures Inv(c, Next(c, s, GraceTimer))
  {
    TimerKeepsControl(c, s);
    SameWorkers(c, s, Next(c, s, GraceTimer));
  }

  lemma SkipKeepsInv(c: Config, s: State)
    requires Inv(c, s) && Enabled(c, s, GraceSkip)
    ensures Inv(c, Next(c, s, GraceSkip))
  {
    SkipKeepsControl(c, s);
    SameWorkers(c, s, Next(c, s, GraceSkip));
  }

  lemma QuorumKeepsInv(c: Config, s: State, act: Act)
    requires Inv(c, s) && Enabled(c, s, act)
    requires act == QuorumReady || act == QuorumAborted || act == QuorumCancelled
    ensures Inv(c, Next(c, s, act))
  {
    QuorumKeepsControl(c, s, act);
    SameWorkers(c, s, Next(c, s, act));
  }

  lemma DecisionKeepsInv(c: Config, s: State, act: Act)
    requires Inv(c, s) && Decides(act) && Enabled(c, s, act)
    ensures Inv(c, Next(c, s, act))
  {
    if act == CancelRun { CancelKeepsInv(c, s); }
    else if act == GraceTimer { TimerKeepsInv(c, s); }
    else if act == GraceSkip { SkipKeepsInv(c, s); }
    else { QuorumKeepsInv(c, s, act); }
  }

  lemma StopKeepsControl(c: Config, s: State, act: Act)
    requires PacerInv(c, s) && MonitorInv(s) && Stops(act) && Enabled(c, s, act)
    ensures PacerInv(c, Next(c, s, act)) && MonitorInv(Next(c, s, act))
  {
    if act == CloseStop || act == DrainTimeout {
      DrainKeepsControl(c, s, act);
    }
  }

  lemma DrainKeepsControl(c: Config, s: State, act: Act)
    requires PacerInv(c, s) && MonitorInv(s) && (act == CloseStop || act == DrainTimeout) && Enabled(c, s, act)
    ensures PacerInv(c, Next(c, s, act)) && MonitorInv(Next(c, s, act))
  {
  }

  lemma StopKeepsInv(c: Config, s: State, act: Act)
    requires Inv(c, s) && Stops(act) && Enabled(c, s, act)
    ensures Inv(c, Next(c, s, act))
  {
    StopKeepsControl(c, s, act);
    SameWorkers(c, s, Next(c, s, act));
  }

  lemma FinishKeepsControl(c: Config, s: State, act: Act)
    requires PacerInv(c, s) && MonitorInv(s) && Finishes(act) && Enabled(c, s, act)
    ensures PacerInv(c, Next(c, s, act)) && MonitorInv(Next(c, s, act))
  {
  }

  lemma FinishKeepsInv(c: Config, s: State, act: Act)
    requires Inv(c, s) && Finishes(act) && Enabled(c, s, act)
    ensures Inv(c, Next(c, s, act))
  {
    FinishKeepsControl(c, s, act);
    SameWorkers(c, s, Next(c, s, act));
  }

  lemma OutsideKeepsControl(c: Config, s: State, act: Act)
    requires PacerInv(c, s) && MonitorInv(s) && FromOutside(act) && Enabled(c, s, act)
    ensures PacerInv(c, Next(c, s, act)) && MonitorInv(Next(c, s, act))
  {
    OutsideKeepsPacer(c, s, act);
    OutsideKeepsMonitor(c, s, act);
  }

  /** The pacer sees of these at most that the run is cancelled. */
  lemma OutsideKeepsPacer(c: Config, s: State, act: Act)
    requires PacerInv(c, s) && FromOutside(act) && Enabled(c, s, act)
    ensures PacerInv(c, Next(c, s, act))
  {
    CancelledKeepsPacer(c, s, Next(c, s, act));
  }

  lemma CancelledKeepsPacer(c: Config, s: State, s': State)
    requires PacerInv(c, s) && s'.pacer == s.pacer && s'.workers == s.workers && s'.teardowns == s.teardowns
    requires s'.sh == s.sh || s'.sh == s.sh.(cancelled := true)
    ensures PacerInv(c, s')
  {
  }

  lemma OutsideKeepsMonitor(c: Config, s: State, act: Act)
    requires MonitorInv(s) && FromOutside(act) && Enabled(c, s, act)
    ensures MonitorInv(Next(c, s, act))
  {
  }

  lemma OutsideKeepsInv(c: Config, s: State, act: Act)
    requires Inv(c, s) && FromOutside(act) && Enabled(c, s, act)
    ensures Inv(c, Next(c, s, act))
  {
    OutsideKeepsControl(c, s, act);
    SameWorkers(c, s, Next(c, s, act));
  }

  lemma InitInv(c: Config)
    ensures Inv(c, Init(c))
  {
  }

  /** The invariant holds after every step, whatever the interleaving. */
  lemma StepKeepsInv(c: Config, s: State, act: Act)
    requires Inv(c, s) && Enabled(c, s, act)
    ensures Inv(c, Next(c, s, act))
  {
    if act.ByWorker? { WorkerKeepsInv(c, s, act.i, act.a); }
    else if Spawns(act) { SpawnKeepsInv(c, s, act); }
    else if TouchesGate(act) { GraceKeepsInv(c, s, act); }
    else if act.Shrink? { ShrinkKeepsInv(c, s, act.j); }
    else if StartsUp(act) { StartUpKeepsInv(c, s, act); }
    else if Decides(act) { DecisionKeepsInv(c, s, act); }
    else if Stops(act) { StopKeepsInv(c, s, act); }
    else if Finishes(act) { FinishKeepsInv(c, s, act); }
    else { OutsideKeepsInv(c, s, act); }
  }
}
