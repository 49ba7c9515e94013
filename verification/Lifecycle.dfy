/**
 A scenario run as a transition system: the worker goroutines, the startup gate,
 the pacer that spawns, releases, stops and drains them, the executor around the
 pacer and the abort monitor.  Every step is one atomic operation of the program
 or one choice of the environment (a hook's outcome, a timer, a cancellation).
 */
module Lifecycle {
  import opened Wrappers
  import opened Quorum

  datatype Kind = Constant | Arrival | Ramping

  /** `planned` is vus, max_vus or the first stage's target; `gated` says that a gate was built. */
  datatype Config = Config(kind: Kind, planned: int, gated: bool, ratio: real, maxRetries: nat,
                           hasPreTest: bool, hasAfterTest: bool, gauge0: int)

  datatype Hook = PreFailed | PrePassed | RunVU | AfterTest

  datatype Record = Unrecorded | AsReady | AsFailed

  datatype WorkerPC =
    | Born
    | PreTest
    | Backoff
    | ReportReady
    | OpenGate(currentReady: int)
    | WaitGate
    | ReportFailed
    | CheckFailed(currentFailed: int)
    | AbortDo
    | AbortPublish(error: QuorumError)
    | AbortClose
    | Loop
    | Iterating
    | Deferred
    | GaugeDown
    | WaitGroupDone
    | Exited

  /** `stop` is the worker's own stop channel; the last five fields are its history. */
  datatype Worker = Worker(pc: WorkerPC, gated: bool, stop: bool, record: Record,
                           fails: nat, passed: bool, iterations: nat, trace: seq<Hook>)

  /** What workers share: `stopAll` is the common stop channel or the closed token channel. */
  datatype Shared = Shared(gate: Gate, cancelled: bool, stopAll: bool, tokens: nat, gauge: int, waitGroup: int)

  datatype Outcome = NoError | QuorumFailed(error: Option<QuorumError>) | ContextError | SetupFailed

  datatype PacerPC =
    | Setup
    | Spawning
    | Awaiting
    | GraceDo
    | GracePublish(error: QuorumError)
    | GraceClose
    | Cancelling(outcome: Outcome)
    | Running
    | Stopping(outcome: Outcome)
    | Draining(outcome: Outcome)
    | DrainWait(outcome: Outcome)
    | Returned(outcome: Outcome)
    | TearingDown(outcome: Outcome)
    | Done(outcome: Outcome)

  datatype MonitorPC = Watching | ReasonStored | RunCancelled | AbortedClosed | MonitorLeft

  /** `parentCancelled` is the executor's pacing context, `sh.cancelled` the run context derived from it. */
  datatype State = State(sh: Shared, workers: seq<Worker>, pacer: PacerPC, teardowns: nat, parentCancelled: bool,
                         monitor: MonitorPC, reason: string, aborted: bool, abortReason: string)

  /** Workers spawned before the pacer awaits the quorum or starts running. */
  function Initial(c: Config): int {
    if c.kind == Ramping && !c.gated then 0 else c.planned
  }

  function Init(c: Config): State {
    State(Shared(NewGate(c.planned, c.ratio), false, false, 0, c.gauge0, 0), [], Setup, 0, false, Watching, "", false, "")
  }

  function NewWorker(gated: bool): Worker {
    Worker(Born, gated, false, Unrecorded, 0, false, 0, [])
  }

  // ---------- Worker goroutine ----------

  datatype WorkerAct =
    | Start
    | PreTestPasses
    | PreTestFails
    | RetryNow
    | GiveUp
    | CountReady
    | SignalReady
    | PassGate
    | LeaveGate
    | CountFailed
    | JudgeFailed
    | EnterAbort
    | SkipAbort
    | StoreError
    | SignalAbort
    | Iterate
    | FinishIteration
    | LeaveLoop
    | RunDeferred
    | LowerGauge
    | LeaveGroup

  predicate Stopped(sh: Shared, w: Worker) {
    sh.stopAll || w.stop
  }

  predicate WorkerEnabled(c: Config, sh: Shared, w: Worker, a: WorkerAct) {
    match a
    case Start => w.pc == Born
    case PreTestPasses => w.pc == PreTest
    case PreTestFails => w.pc == PreTest
    case RetryNow => w.pc == Backoff
    case GiveUp => w.pc == Backoff && (sh.cancelled || (c.kind != Arrival && Stopped(sh, w)))
    case CountReady => w.pc == ReportReady
    case SignalReady => w.pc.OpenGate?
    case PassGate => w.pc == WaitGate && sh.gate.readyClosed
    case LeaveGate => w.pc == WaitGate && (sh.gate.abortClosed || sh.cancelled)
    case CountFailed => w.pc == ReportFailed
    case JudgeFailed => w.pc.CheckFailed?
    case EnterAbort => w.pc == AbortDo && sh.gate.abortOnce == Fresh
    case SkipAbort => w.pc == AbortDo && sh.gate.abortOnce == Finished
    case StoreError => w.pc.AbortPublish?
    case SignalAbort => w.pc == AbortClose
    case Iterate => w.pc == Loop && if c.kind == Arrival then sh.tokens > 0 else !Stopped(sh, w) && !sh.cancelled
    case FinishIteration => w.pc == Iterating
    case LeaveLoop => w.pc == Loop &&
                      (sh.cancelled || if c.kind == Arrival then sh.stopAll && sh.tokens == 0 else Stopped(sh, w))
    case RunDeferred => w.pc == Deferred
    case LowerGauge => w.pc == GaugeDown
    case LeaveGroup => w.pc == WaitGroupDone
  }

  function AfterPreTest(w: Worker): WorkerPC {
    if w.gated then ReportReady else Loop
  }

  function AfterGivingUp(w: Worker): WorkerPC {
    if w.gated then ReportFailed else Deferred
  }

  function WorkerStep(c: Config, sh: Shared, w: Worker, a: WorkerAct): (r: (Shared, Worker))
    requires WorkerEnabled(c, sh, w, a)
  {
    var g := sh.gate;
    match a
    case Start =>
      (sh.(gauge := sh.gauge + 1),
       if c.hasPreTest then w.(pc := PreTest) else w.(pc := AfterPreTest(w), passed := true))
    case PreTestPasses =>
      (sh, w.(pc := AfterPreTest(w), passed := true, trace := w.trace + [PrePassed]))
    case PreTestFails =>
      (sh, w.(pc := if w.fails >= c.maxRetries then AfterGivingUp(w) else Backoff,
              fails := w.fails + 1, trace := w.trace + [PreFailed]))
    case RetryNow => (sh, w.(pc := PreTest))
    case GiveUp => (sh, w.(pc := AfterGivingUp(w)))
    case CountReady => (sh.(gate := AddReady(g)), w.(pc := OpenGate(g.ready + 1), record := AsReady))
    case SignalReady => (sh.(gate := OpenIfReached(g, w.pc.currentReady)), w.(pc := WaitGate))
    case PassGate => (sh, w.(pc := Loop))
    case LeaveGate => (sh, w.(pc := Deferred))
    case CountFailed => (sh.(gate := AddFailed(g)), w.(pc := CheckFailed(g.failed + 1), record := AsFailed))
    case JudgeFailed => (sh, w.(pc := if TooManyFailures(g, w.pc.currentFailed) then AbortDo else Deferred))
    case EnterAbort => (sh.(gate := EnterOnce(g)), w.(pc := AbortPublish(AbortErrorNow(g, WorkerFailed))))
    case SkipAbort => (sh, w.(pc := Deferred))
    case StoreError => (sh.(gate := PublishError(g, w.pc.error)), w.(pc := AbortClose))
    case SignalAbort => (sh.(gate := CloseAbort(g)), w.(pc := Deferred))
    case Iterate =>
      (if c.kind == Arrival then sh.(tokens := sh.tokens - 1) else sh,
       w.(pc := Iterating, iterations := w.iterations + 1, trace := w.trace + [RunVU]))
    case FinishIteration => (sh, w.(pc := Loop))
    case LeaveLoop => (sh, w.(pc := Deferred))
    case RunDeferred =>
      (sh, w.(pc := GaugeDown, trace := if c.hasAfterTest then w.trace + [AfterTest] else w.trace))
    case LowerGauge => (sh.(gauge := sh.gauge - 1), w.(pc := WaitGroupDone))
    case LeaveGroup => (sh.(waitGroup := sh.waitGroup - 1), w.(pc := Exited))
  }

  // ---------- Pacer, executor, monitor and environment ----------

  datatype Act =
    | ByWorker(i: nat, a: WorkerAct)
    | SetupPasses
    | SetupFails
    | Spawn
    | SpawnInterrupted
    | SpawnFinished
    | QuorumReady
    | QuorumAborted
    | QuorumCancelled
    | GraceTimer
    | GraceEnter
    | GraceSkip
    | GraceStore
    | GraceSignal
    | CancelRun
    | Dispatch
    | Grow
    | Shrink(j: nat)
    | EndRun
    | CloseStop
    | Drained
    | DrainTimeout
    | CheckAborted
    | Teardown
    | ParentCancels
    | Breach(why: string)
    | MonitorCancels
    | MonitorCloses
    | MonitorQuits

  /** The monitor is started once Setup has succeeded. */
  predicate Monitored(p: PacerPC) {
    p != Setup && p != Done(SetupFailed)
  }

  predicate Enabled(c: Config, s: State, act: Act) {
    match act
    case ByWorker(i, a) => i < |s.workers| && WorkerEnabled(c, s.sh, s.workers[i], a)
    case SetupPasses => s.pacer == Setup
    case SetupFails => s.pacer == Setup
    case Spawn => s.pacer == Spawning && |s.workers| < Initial(c)
    case SpawnInterrupted =>
      s.pacer == Spawning && c.kind == Constant && 1 <= |s.workers| < Initial(c) && s.sh.cancelled
    case SpawnFinished => s.pacer == Spawning && |s.workers| >= Initial(c)
    case QuorumReady => s.pacer == Awaiting && s.sh.gate.readyClosed
    case QuorumAborted => s.pacer == Awaiting && s.sh.gate.abortClosed
    case QuorumCancelled => s.pacer == Awaiting && s.sh.cancelled
    case GraceTimer => s.pacer == Awaiting
    case GraceEnter => s.pacer == GraceDo && s.sh.gate.abortOnce == Fresh
    case GraceSkip => s.pacer == GraceDo && s.sh.gate.abortOnce == Finished
    case GraceStore => s.pacer.GracePublish?
    case GraceSignal => s.pacer == GraceClose
    case CancelRun => s.pacer.Cancelling?
    case Dispatch => s.pacer == Running && c.kind == Arrival
    case Grow => s.pacer == Running && c.kind == Ramping
    case Shrink(j) => (s.pacer == Running || s.pacer.Stopping?) && c.kind == Ramping && j < |s.workers| && !s.workers[j].stop
    case EndRun => s.pacer == Running
    case CloseStop => s.pacer.Stopping? && (c.kind == Ramping ==> forall j | 0 <= j < |s.workers| :: s.workers[j].stop)
    case Drained => (s.pacer.Draining? || s.pacer.DrainWait?) && s.sh.waitGroup == 0
    case DrainTimeout => s.pacer.Draining?
    case CheckAborted => s.pacer.Returned?
    case Teardown => s.pacer.TearingDown?
    case ParentCancels => true
    case Breach(why) => s.monitor == Watching && Monitored(s.pacer) && why != ""
    case MonitorCancels => s.monitor == ReasonStored
    case MonitorCloses => s.monitor == RunCancelled
    case MonitorQuits => s.monitor == Watching && Monitored(s.pacer) && (s.parentCancelled || s.pacer.Done?)
  }

  function SpawnOne(s: State, gated: bool): State {
    s.(workers := s.workers + [NewWorker(gated)], sh := s.sh.(waitGroup := s.sh.waitGroup + 1))
  }

  function Next(c: Config, s: State, act: Act): State
    requires Enabled(c, s, act)
  {
    var g := s.sh.gate;
    match act
    case ByWorker(i, a) =>
      var (sh', w') := WorkerStep(c, s.sh, s.workers[i], a);
      s.(sh := sh', workers := s.workers[i := w'])
    case SetupPasses => s.(pacer := Spawning)
    case SetupFails => s.(pacer := Done(SetupFailed))
    case Spawn => SpawnOne(s, c.gated)
    case SpawnInterrupted => s.(pacer := Stopping(ContextError))
    case SpawnFinished => s.(pacer := if c.gated then Awaiting else Running)
    case QuorumReady => s.(pacer := Running)
    case QuorumAborted => s.(pacer := Cancelling(QuorumFailed(g.abortErr)))
    case QuorumCancelled => s.(pacer := Cancelling(ContextError))
    case GraceTimer => s.(pacer := if g.ready >= g.required then Running else GraceDo)
    case GraceEnter => s.(pacer := GracePublish(AbortErrorNow(g, GraceExpired)), sh := s.sh.(gate := EnterOnce(g)))
    case GraceSkip => s.(pacer := Cancelling(QuorumFailed(g.abortErr)))
    case GraceStore => s.(pacer := GraceClose, sh := s.sh.(gate := PublishError(g, s.pacer.error)))
    case GraceSignal => s.(pacer := Cancelling(QuorumFailed(g.abortErr)), sh := s.sh.(gate := CloseAbort(g)))
    case CancelRun => s.(pacer := Stopping(s.pacer.outcome), sh := s.sh.(cancelled := true))
    case Dispatch => s.(sh := s.sh.(tokens := s.sh.tokens + 1))
    case Grow => SpawnOne(s, false)
    case Shrink(j) => s.(workers := s.workers[j := s.workers[j].(stop := true)])
    case EndRun => s.(pacer := Stopping(NoError))
    case CloseStop => s.(pacer := Draining(s.pacer.outcome), sh := s.sh.(stopAll := true))
    case Drained => s.(pacer := Returned(s.pacer.outcome))
    case DrainTimeout => s.(pacer := DrainWait(s.pacer.outcome), sh := s.sh.(cancelled := true))
    case CheckAborted =>
      s.(pacer := TearingDown(s.pacer.outcome),
         aborted := s.pacer.outcome == NoError && (s.monitor == AbortedClosed || s.reason != ""),
         abortReason := if s.pacer.outcome == NoError then s.reason else "")
    case Teardown => s.(pacer := Done(s.pacer.outcome), teardowns := s.teardowns + 1)
    case ParentCancels => s.(parentCancelled := true, sh := s.sh.(cancelled := true))
    case Breach(why) => s.(monitor := ReasonStored, reason := why)
    case MonitorCancels => s.(monitor := RunCancelled, parentCancelled := true, sh := s.sh.(cancelled := true))
    case MonitorCloses => s.(monitor := AbortedClosed)
    case MonitorQuits => s.(monitor := MonitorLeft)
  }
}
