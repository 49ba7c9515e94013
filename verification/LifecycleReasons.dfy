/**
 Why things happen in a run: each worker that gives up, leaves or reports does so for a reason, the pacer spawns
 what it planned and ends for a cause, every stop channel is closed once, and iterations are made of tokens.
 */
module LifecycleReasons {
  import opened Wrappers
  import opened Quorum
  import opened Lifecycle
  import opened LifecycleInvariant
  import opened LifecycleTheorems

  // ---------- Why a worker leaves ----------

  predicate HasLeft(pc: WorkerPC) {
    pc == Deferred || Finishing(pc)
  }

  predicate Reporting(pc: WorkerPC) {
    pc == ReportFailed || pc.CheckFailed? || pc == AbortDo || pc.AbortPublish? || pc == AbortClose
  }

  /** The supervised PreTest is over without success. */
  predicate GaveUp(w: Worker) {
    !w.passed && (Reporting(w.pc) || HasLeft(w.pc))
  }

  /** All retries are used up, or a backoff was interrupted: an arrival worker's only by the context. */
  predicate MayGiveUp(c: Config, sh: Shared, w: Worker) {
    w.fails == c.maxRetries + 1 || sh.cancelled || (c.kind != Arrival && Stopped(sh, w))
  }

  /** The run is cancelled, the gate aborted, or the stop has come: for an arrival worker, with all tokens taken. */
  predicate MayLeave(c: Config, sh: Shared, w: Worker) {
    || sh.cancelled
    || (w.gated && sh.gate.abortClosed)
    || (if c.kind == Arrival then sh.stopAll && sh.tokens == 0 else Stopped(sh, w))
  }

  predicate ReasonInv(c: Config, sh: Shared, w: Worker) {
    && (Reporting(w.pc) ==> !w.passed)
    && (GaveUp(w) ==> MayGiveUp(c, sh, w))
    && (w.passed && HasLeft(w.pc) ==> MayLeave(c, sh, w))
    && (w.fails > c.maxRetries ==> GaveUp(w))
  }

  /** Past the gate's bookkeeping every gated worker has reported what became of its PreTest. */
  predicate ReportInv(w: Worker) {
    && (w.record == AsReady ==> w.passed)
    && (w.record == AsFailed ==> !w.passed && (Reporting(w.pc) || HasLeft(w.pc)))
    && (w.gated && (w.pc == WaitGate || w.pc == Loop || w.pc == Iterating || HasLeft(w.pc)) ==> w.record != Unrecorded)
  }

  /** What a worker saw of the shared state remains true. */
  predicate StaysTrue(sh: Shared, sh': Shared) {
    && (sh.cancelled ==> sh'.cancelled) && (sh.stopAll ==> sh'.stopAll)
    && (sh.gate.abortClosed ==> sh'.gate.abortClosed)
    && (sh.stopAll && sh.tokens == 0 ==> sh'.tokens == 0)
  }

  lemma WorkerStaysTrue(c: Config, sh: Shared, w: Worker, a: WorkerAct)
    requires WorkerEnabled(c, sh, w, a)
    ensures StaysTrue(sh, WorkerStep(c, sh, w, a).0)
  {
    SharedKept(c, sh, w, a);
    if Reports(a) || Aborts(a) {
      ReportRankDecreases(c, sh, w, a);
    }
  }

  lemma OwnReason(c: Config, sh: Shared, w: Worker, a: WorkerAct)
    requires TraceInv(c, w) && RecordInv(c, sh.gate, w) && ReasonInv(c, sh, w) && WorkerEnabled(c, sh, w, a)
    ensures var (sh', w') := WorkerStep(c, sh, w, a); ReasonInv(c, sh', w')
  {
    if Reports(a) {
      ReportKeepsReason(c, sh, w, a);
    } else if Aborts(a) {
      AbortKeepsReason(c, sh, w, a);
    } else {
      OtherActKeepsReason(c, sh, w, a);
    }
  }

  lemma ReportKeepsReason(c: Config, sh: Shared, w: Worker, a: WorkerAct)
    requires RecordInv(c, sh.gate, w) && ReasonInv(c, sh, w) && WorkerEnabled(c, sh, w, a) && Reports(a)
    ensures var (sh', w') := WorkerStep(c, sh, w, a); ReasonInv(c, sh', w')
  {
  }

  lemma AbortKeepsReason(c: Config, sh: Shared, w: Worker, a: WorkerAct)
    requires RecordInv(c, sh.gate, w) && ReasonInv(c, sh, w) && WorkerEnabled(c, sh, w, a) && Aborts(a)
    ensures var (sh', w') := WorkerStep(c, sh, w, a); ReasonInv(c, sh', w')
  {
  }

  lemma OtherActKeepsReason(c: Config, sh: Shared, w: Worker, a: WorkerAct)
    requires TraceInv(c, w) && RecordInv(c, sh.gate, w) && ReasonInv(c, sh, w) && WorkerEnabled(c, sh, w, a)
    requires !Reports(a) && !Aborts(a)
    ensures var (sh', w') := WorkerStep(c, sh, w, a); ReasonInv(c, sh', w')
  {
    if InPreTest(a) {
      PreTestKeepsReason(c, sh, w, a);
    } else if Leaves(a) {
      LeavingKeepsReason(c, sh, w, a);
    } else {
      LoopKeepsReason(c, sh, w, a);
    }
  }

  predicate InPreTest(a: WorkerAct) {
    a == Start || a == PreTestPasses || a == PreTestFails || a == RetryNow || a == GiveUp
  }

  predicate Leaves(a: WorkerAct) {
    a == RunDeferred || a == LowerGauge || a == LeaveGroup
  }

  lemma PreTestKeepsReason(c: Config, sh: Shared, w: Worker, a: WorkerAct)
    requires TraceInv(c, w) && ReasonInv(c, sh, w) && WorkerEnabled(c, sh, w, a) && InPreTest(a)
    ensures var (sh', w') := WorkerStep(c, sh, w, a); ReasonInv(c, sh', w')
  {
  }

  lemma LeavingKeepsReason(c: Config, sh: Shared, w: Worker, a: WorkerAct)
    requires ReasonInv(c, sh, w) && WorkerEnabled(c, sh, w, a) && Leaves(a)
    ensures var (sh', w') := WorkerStep(c, sh, w, a); ReasonInv(c, sh', w')
  {
  }

  lemma LoopKeepsReason(c: Config, sh: Shared, w: Worker, a: WorkerAct)
    requires TraceInv(c, w) && RecordInv(c, sh.gate, w) && ReasonInv(c, sh, w) && WorkerEnabled(c, sh, w, a)
    requires !Reports(a) && !Aborts(a) && !InPreTest(a) && !Leaves(a)
    ensures var (sh', w') := WorkerStep(c, sh, w, a); ReasonInv(c, sh', w')
  {
  }

  lemma OwnReport(c: Config, sh: Shared, w: Worker, a: WorkerAct)
    requires TraceInv(c, w) && RecordInv(c, sh.gate, w) && ReasonInv(c, sh, w) && ReportInv(w) && WorkerEnabled(c, sh, w, a)
    ensures ReportInv(WorkerStep(c, sh, w, a).1)
  {
    if Reports(a) {
      ReportKeepsReport(c, sh, w, a);
    } else if Aborts(a) {
      AbortKeepsReport(c, sh, w, a);
    } else {
      OtherActKeepsReport(c, sh, w, a);
    }
  }

  lemma ReportKeepsReport(c: Config, sh: Shared, w: Worker, a: WorkerAct)
    requires TraceInv(c, w) && RecordInv(c, sh.gate, w) && ReasonInv(c, sh, w) && ReportInv(w) && WorkerEnabled(c, sh, w, a) && Reports(a)
    ensures ReportInv(WorkerStep(c, sh, w, a).1)
  {
  }

  lemma AbortKeepsReport(c: Config, sh: Shared, w: Worker, a: WorkerAct)
    requires RecordInv(c, sh.gate, w) && ReportInv(w) && WorkerEnabled(c, sh, w, a) && Aborts(a)
    ensures ReportInv(WorkerStep(c, sh, w, a).1)
  {
  }

  lemma OtherActKeepsReport(c: Config, sh: Shared, w: Worker, a: WorkerAct)
    requires TraceInv(c, w) && RecordInv(c, sh.gate, w) && ReasonInv(c, sh, w) && ReportInv(w) && WorkerEnabled(c, sh, w, a)
    requires !Reports(a) && !Aborts(a)
    ensures ReportInv(WorkerStep(c, sh, w, a).1)
  {
  }

  lemma ReasonStays(c: Config, sh: Shared, sh': Shared, w: Worker, w': Worker)
    requires ReasonInv(c, sh, w) && StaysTrue(sh, sh') && (w' == w || w' == w.(stop := true))
    ensures ReasonInv(c, sh', w')
  {
  }

  ghost predicate WorkersInv(c: Config, s: State) {
    forall i :: 0 <= i < |s.workers| ==> ReasonInv(c, s.sh, s.workers[i]) && ReportInv(s.workers[i])
  }

  lemma ActStaysTrue(c: Config, s: State, act: Act)
    requires PacerInv(c, s) && Enabled(c, s, act) && !act.ByWorker?
    ensures StaysTrue(s.sh, Next(c, s, act).sh)
  {
    if act == GraceEnter || act == GraceStore || act == GraceSignal {
      GraceStaysTrue(c, s, act);
    } else {
      GateStays(c, s, act);
      OtherStaysTrue(c, s, act);
    }
  }

  lemma GraceStaysTrue(c: Config, s: State, act: Act)
    requires Enabled(c, s, act) && (act == GraceEnter || act == GraceStore || act == GraceSignal)
    ensures StaysTrue(s.sh, Next(c, s, act).sh)
  {
  }

  lemma OtherStaysTrue(c: Config, s: State, act: Act)
    requires PacerInv(c, s) && Enabled(c, s, act) && !act.ByWorker? && Next(c, s, act).sh.gate == s.sh.gate
    ensures StaysTrue(s.sh, Next(c, s, act).sh)
  {
    if act != Dispatch {
      TokensStay(c, s, act);
    }
    SignalsStay(c, s, act);
  }

  lemma SignalsStay(c: Config, s: State, act: Act)
    requires Enabled(c, s, act) && !act.ByWorker?
    ensures var sh' := Next(c, s, act).sh; (s.sh.cancelled ==> sh'.cancelled) && (s.sh.stopAll ==> sh'.stopAll)
  {
  }

  lemma WorkerActKeepsWorkers(c: Config, s: State, i: nat, a: WorkerAct)
    requires Inv(c, s) && WorkersInv(c, s) && i < |s.workers| && WorkerEnabled(c, s.sh, s.workers[i], a)
    ensures WorkersInv(c, Next(c, s, ByWorker(i, a)))
  {
    var s' := Next(c, s, ByWorker(i, a));
    assert WorkerInv(c, s.sh.gate, s.workers[i]);
    WorkerStaysTrue(c, s.sh, s.workers[i], a);
    OwnReason(c, s.sh, s.workers[i], a);
    OwnReport(c, s.sh, s.workers[i], a);
    forall k | 0 <= k < |s.workers| ensures ReasonInv(c, s'.sh, s'.workers[k]) && ReportInv(s'.workers[k]) {
      if k != i { ReasonStays(c, s.sh, s'.sh, s.workers[k], s.workers[k]); }
    }
  }

  lemma OtherActKeepsWorkers(c: Config, s: State, act: Act)
    requires Inv(c, s) && WorkersInv(c, s) && Enabled(c, s, act) && !act.ByWorker?
    ensures WorkersInv(c, Next(c, s, act))
  {
    ActStaysTrue(c, s, act);
    WorkersEffect(c, s, act);
    WorkersStayTrue(c, s, Next(c, s, act), act);
  }

  lemma WorkersStayTrue(c: Config, s: State, s': State, act: Act)
    requires WorkersInv(c, s) && StaysTrue(s.sh, s'.sh) && Worked(s, s', act)
    ensures WorkersInv(c, s')
  {
    forall k | 0 <= k < |s'.workers| ensures ReasonInv(c, s'.sh, s'.workers[k]) && ReportInv(s'.workers[k]) {
      if k < |s.workers| { ReasonStays(c, s.sh, s'.sh, s.workers[k], s'.workers[k]); }
    }
  }

  // ---------- What the pacer has done ----------

  predicate Starting(p: PacerPC) {
    p == Setup || p == Spawning || p == Awaiting || p == GraceDo || p.GracePublish? || p == GraceClose || p.Cancelling? || p == Running
  }

  predicate HasOutcome(p: PacerPC) {
    p.Cancelling? || p.Stopping? || p.Draining? || p.DrainWait? || p.Returned? || p.TearingDown? || p.Done?
  }

  /** Everything before the run phase is behind it; only a cancellation can have cut the spawning short. */
  predicate Spawned(p: PacerPC) {
    || (Starting(p) && p != Setup && p != Spawning)
    || (HasOutcome(p) && (p.outcome == NoError || p.outcome.QuorumFailed?))
  }

  function InitialCount(c: Config): nat {
    if Initial(c) < 0 then 0 else Initial(c)
  }

  /** Of the planned workers all are there, and only a ramping pacer adds to them. */
  predicate FullyStaffed(c: Config, s: State) {
    |s.workers| >= InitialCount(c) && (c.kind != Ramping ==> |s.workers| == InitialCount(c))
  }

  /** A worker is gated if it belongs to those planned. */
  predicate GatedAs(c: Config, i: nat, w: Worker) {
    w.gated <==> c.gated && i < InitialCount(c)
  }

  predicate StaffInv(c: Config, s: State) {
    && (Spawned(s.pacer) ==> FullyStaffed(c, s))
    && (s.pacer == Spawning ==> |s.workers| <= InitialCount(c))
    && (forall i :: 0 <= i < |s.workers| ==> GatedAs(c, i, s.workers[i]))
  }

  /** Before the pacer cancels the run itself, only its parent can have. */
  predicate CancelInv(s: State) {
    && (Starting(s.pacer) && s.sh.cancelled ==> s.parentCancelled)
    && (HasOutcome(s.pacer) && s.pacer.outcome == ContextError ==> s.parentCancelled)
    && (HasOutcome(s.pacer) && !s.pacer.Cancelling? && s.pacer.outcome.QuorumFailed? ==> s.sh.cancelled)
    && (s.monitor == MonitorLeft ==> s.parentCancelled || s.pacer.Done?)
  }

  predicate StopInv(c: Config, s: State) {
    && (c.kind == Ramping && StopSignalled(s.pacer) ==> forall i :: 0 <= i < |s.workers| ==> s.workers[i].stop)
    && (c.kind != Ramping ==> forall i :: 0 <= i < |s.workers| ==> !s.workers[i].stop)
  }

  lemma WorkerKeepsOthers(c: Config, sh: Shared, w: Worker, a: WorkerAct)
    requires WorkerEnabled(c, sh, w, a)
    ensures var (sh', w') := WorkerStep(c, sh, w, a);
            sh'.cancelled == sh.cancelled && w'.stop == w.stop && w'.gated == w.gated
  {
    SharedKept(c, sh, w, a);
    if Reports(a) {
      ReportKeepsFlags(c, sh, w, a);
    } else if Aborts(a) {
      AbortMoves(c, sh, w, a);
    } else {
      OtherStep(c, sh, w, a);
    }
  }

  lemma ReportKeepsFlags(c: Config, sh: Shared, w: Worker, a: WorkerAct)
    requires WorkerEnabled(c, sh, w, a) && Reports(a)
    ensures var w' := WorkerStep(c, sh, w, a).1; w'.stop == w.stop && w'.gated == w.gated
  {
  }

  lemma StepKeepsStaff(c: Config, s: State, act: Act)
    requires PacerInv(c, s) && StaffInv(c, s) && Enabled(c, s, act)
    ensures StaffInv(c, Next(c, s, act))
  {
    if act.ByWorker? {
      WorkerKeepsOthers(c, s.sh, s.workers[act.i], act.a);
    } else {
      PacerEffect(c, s, act);
    }
  }

  /** How the pacer's position and the number of workers move together. */
  lemma PacerEffect(c: Config, s: State, act: Act)
    requires PacerInv(c, s) && StaffInv(c, s) && Enabled(c, s, act) && !act.ByWorker?
    ensures StaffInv(c, Next(c, s, act))
  {
    if Spawns(act) {
      SpawnKeepsStaff(c, s, act);
    } else {
      WorkersEffect(c, s, act);
      PositionEffect(c, s, act);
    }
  }

  lemma SpawnKeepsStaff(c: Config, s: State, act: Act)
    requires PacerInv(c, s) && StaffInv(c, s) && Enabled(c, s, act) && Spawns(act)
    ensures StaffInv(c, Next(c, s, act))
  {
  }

  lemma PositionEffect(c: Config, s: State, act: Act)
    requires PacerInv(c, s) && Enabled(c, s, act) && !act.ByWorker? && !Spawns(act)
    ensures var p, p' := s.pacer, Next(c, s, act).pacer;
            && (Spawned(p') ==> Spawned(p) || (p == Spawning && |s.workers| >= Initial(c)))
            && (p' == Spawning ==> p == Spawning || (p == Setup && s.workers == []))
  {
    if StartsUp(act) {
      StartUpPosition(c, s, act);
    } else {
      LaterPosition(c, s, act);
    }
  }

  lemma StartUpPosition(c: Config, s: State, act: Act)
    requires PacerInv(c, s) && Enabled(c, s, act) && StartsUp(act)
    ensures var p, p' := s.pacer, Next(c, s, act).pacer;
            && (Spawned(p') ==> p == Spawning && |s.workers| >= Initial(c))
            && (p' == Spawning ==> p == Setup && s.workers == [])
  {
  }

  lemma LaterPosition(c: Config, s: State, act: Act)
    requires Enabled(c, s, act) && !act.ByWorker? && !Spawns(act) && !StartsUp(act)
    ensures var p, p' := s.pacer, Next(c, s, act).pacer;
            (Spawned(p') ==> Spawned(p)) && (p' == Spawning ==> p == Spawning)
  {
  }

  lemma StepKeepsCancel(c: Config, s: State, act: Act)
    requires PacerInv(c, s) && MonitorInv(s) && CancelInv(s) && Enabled(c, s, act)
    ensures CancelInv(Next(c, s, act))
  {
    if act.ByWorker? {
      SharedKept(c, s.sh, s.workers[act.i], act.a);
    } else if FromOutside(act) {
      OutsideKeepsCancel(c, s, act);
    } else if Decides(act) {
      DecisionKeepsCancel(c, s, act);
    } else if Stops(act) {
      StopKeepsCancel(c, s, act);
    } else {
      OtherActKeepsCancel(c, s, act);
    }
  }

  lemma OutsideKeepsCancel(c: Config, s: State, act: Act)
    requires MonitorInv(s) && CancelInv(s) && Enabled(c, s, act) && FromOutside(act)
    ensures CancelInv(Next(c, s, act))
  {
  }

  lemma DecisionKeepsCancel(c: Config, s: State, act: Act)
    requires CancelInv(s) && Enabled(c, s, act) && Decides(act)
    ensures CancelInv(Next(c, s, act))
  {
  }

  lemma StopKeepsCancel(c: Config, s: State, act: Act)
    requires PacerInv(c, s) && CancelInv(s) && Enabled(c, s, act) && Stops(act)
    ensures CancelInv(Next(c, s, act))
  {
  }

  lemma OtherActKeepsCancel(c: Config, s: State, act: Act)
    requires PacerInv(c, s) && CancelInv(s) && Enabled(c, s, act)
    requires !act.ByWorker? && !FromOutside(act) && !Decides(act) && !Stops(act)
    ensures CancelInv(Next(c, s, act))
  {
  }

  lemma StepKeepsStop(c: Config, s: State, act: Act)
    requires PacerInv(c, s) && StopInv(c, s) && Enabled(c, s, act)
    ensures StopInv(c, Next(c, s, act))
  {
    if act.ByWorker? {
      WorkerKeepsOthers(c, s.sh, s.workers[act.i], act.a);
    } else {
      WorkersEffect(c, s, act);
      StopSignalStep(c, s, act);
    }
  }

  /** A ramping pacer signals the stop when all stop channels are closed, and touches none of them any more. */
  lemma StopSignalStep(c: Config, s: State, act: Act)
    requires PacerInv(c, s) && Enabled(c, s, act) && !act.ByWorker?
    ensures StopSignalled(Next(c, s, act).pacer) ==> !Spawns(act) && !act.Shrink?
    ensures StopSignalled(Next(c, s, act).pacer) && !StopSignalled(s.pacer) && c.kind == Ramping ==>
              forall i :: 0 <= i < |s.workers| ==> s.workers[i].stop
  {
    if act != CloseStop && !Spawns(act) && !act.Shrink? {
      SignalNeedsClose(c, s, act);
    }
  }

  lemma SignalNeedsClose(c: Config, s: State, act: Act)
    requires PacerInv(c, s) && Enabled(c, s, act) && !act.ByWorker? && act != CloseStop && !Spawns(act) && !act.Shrink?
    ensures StopSignalled(Next(c, s, act).pacer) ==> StopSignalled(s.pacer)
  {
  }

  ghost predicate Reasons(c: Config, s: State) {
    WorkersInv(c, s) && StaffInv(c, s) && CancelInv(s) && StopInv(c, s)
  }

  lemma StepKeepsReasons(c: Config, s: State, act: Act)
    requires Inv(c, s) && Reasons(c, s) && Enabled(c, s, act)
    ensures Reasons(c, Next(c, s, act))
  {
    if act.ByWorker? {
      WorkerActKeepsWorkers(c, s, act.i, act.a);
    } else {
      OtherActKeepsWorkers(c, s, act);
    }
    StepKeepsStaff(c, s, act);
    StepKeepsCancel(c, s, act);
    StepKeepsStop(c, s, act);
  }

  lemma {:induction false} RunReasons(c: Config, acts: seq<Act>, ss: seq<State>, k: nat)
    requires IsRun(c, acts, ss) && k < |ss|
    ensures Reasons(c, ss[k])
  {
    if k > 0 {
      RunReasons(c, acts, ss, k - 1);
      RunStep(c, acts, ss, k - 1);
      StepKeepsReasons(c, ss[k - 1], acts[k - 1]);
    }
  }

  // ---------- Theorems ----------

  /**
   In every run, a worker without a successful PreTest has failed it max_retries + 1 times or was interrupted, and one
   that has used up its retries has given up; one with a successful PreTest stays until the run is cancelled,
   the gate is aborted or the stop has come, and an arrival worker until no token is left.
   */
  lemma WorkersLeaveForAReason(c: Config, acts: seq<Act>, ss: seq<State>, k: nat, i: nat)
    requires IsRun(c, acts, ss) && k < |ss| && i < |ss[k].workers|
    ensures var sh, w := ss[k].sh, ss[k].workers[i];
            && (!w.passed && (Reporting(w.pc) || HasLeft(w.pc)) ==>
                  w.fails == c.maxRetries + 1 || sh.cancelled || (c.kind != Arrival && (sh.stopAll || w.stop)))
            && (w.fails > c.maxRetries ==> !w.passed && (Reporting(w.pc) || HasLeft(w.pc)))
            && (w.passed && HasLeft(w.pc) ==>
                  || sh.cancelled || (w.gated && sh.gate.abortClosed)
                  || (if c.kind == Arrival then sh.stopAll && sh.tokens == 0 else sh.stopAll || w.stop))
  {
    RunReasons(c, acts, ss, k);
    assert ReasonInv(c, ss[k].sh, ss[k].workers[i]);
  }

  /** The planned workers that passed (or did not pass) their PreTest. */
  function Passes(ws: seq<Worker>, passed: bool): nat {
    if ws == [] then 0 else Passes(ws[..|ws| - 1], passed) + (if ws[|ws| - 1].gated && ws[|ws| - 1].passed == passed then 1 else 0)
  }

  lemma {:induction false} SumLast(m: Meter, ws: seq<Worker>)
    requires ws != []
    ensures Sum(m, ws) == Sum(m, ws[..|ws| - 1]) + Weight(m, ws[|ws| - 1])
  {
    SumAppend(m, ws[..|ws| - 1], ws[|ws| - 1]);
    assert ws[..|ws| - 1] + [ws[|ws| - 1]] == ws;
  }

  lemma {:induction false} ReportsArePasses(ws: seq<Worker>)
    requires forall i :: 0 <= i < |ws| ==> ReportInv(ws[i]) && ws[i].pc == Exited && (ws[i].record != Unrecorded ==> ws[i].gated)
    ensures Sum(ReadyMeter, ws) == Passes(ws, true) && Sum(FailedMeter, ws) == Passes(ws, false)
    ensures Passes(ws, true) + Passes(ws, false) == Sum(GatedMeter, ws)
  {
    if ws != [] {
      ReportsArePasses(ws[..|ws| - 1]);
      SumLast(ReadyMeter, ws);
      SumLast(FailedMeter, ws);
      SumLast(GatedMeter, ws);
    }
  }

  /**
   On every return path the gate has had one report of each planned worker: `ready` counts those whose PreTest
   succeeded, `failed` the others, and so the gate is open exactly if as many succeeded as the quorum asks for.
   */
  lemma AllReportsArrive(c: Config, acts: seq<Act>, ss: seq<State>, k: nat)
    requires IsRun(c, acts, ss) && k < |ss| && Joined(ss[k].pacer)
    ensures var g, ws := ss[k].sh.gate, ss[k].workers;
            && g.ready == Passes(ws, true) && g.failed == Passes(ws, false)
            && g.ready + g.failed == Sum(GatedMeter, ws)
            && (g.readyClosed <==> Passes(ws, true) >= g.required)
            && (g.readyClosed && g.abortClosed <==> Passes(ws, true) >= g.required && GraceSignal in acts[..k])
  {
    RunInv(c, acts, ss, k);
    RunReasons(c, acts, ss, k);
    ReturnMeansJoined(c, acts, ss, k);
    var ws := ss[k].workers;
    forall i | 0 <= i < |ws| ensures ReportInv(ws[i]) && (ws[i].record != Unrecorded ==> ws[i].gated) && (ws[i].gated ==> HasReported(ws[i])) {
      assert WorkerInv(c, ss[k].sh.gate, ws[i]);
    }
    ReportsArePasses(ws);
    GateOutcome(c, acts, ss, k);
  }

  /**
   Unless a cancellation cut the spawning short, the pacer has spawned all planned workers when it awaits the quorum
   or runs, and with a gate exactly these wait at it; a constant or arrival-rate pacer never has others, and a
   ramping one without a gate spawns nobody before its first stage.
   */
  lemma PlannedWorkersStart(c: Config, acts: seq<Act>, ss: seq<State>, k: nat)
    requires IsRun(c, acts, ss) && k < |ss|
    requires ss[k].pacer == Awaiting || PassedStartup(ss[k].pacer)
    ensures c.kind != Ramping || c.gated ==> |ss[k].workers| >= c.planned
    ensures c.kind != Ramping ==> |ss[k].workers| == if c.planned < 0 then 0 else c.planned
    ensures forall i :: 0 <= i < |ss[k].workers| ==> (ss[k].workers[i].gated <==> c.gated && i < c.planned)
    ensures c.kind == Ramping && !c.gated ==> Spawn !in acts[..k]
  {
    RunReasons(c, acts, ss, k);
    forall i | 0 <= i < |ss[k].workers| ensures ss[k].workers[i].gated <==> c.gated && i < c.planned {
      assert GatedAs(c, i, ss[k].workers[i]);
    }
    forall j: nat | j < k ensures c.kind == Ramping && !c.gated ==> acts[j] != Spawn {
      assert StepAt(c, acts, ss, j);
    }
  }

  predicate CancelsParent(act: Act) {
    act == ParentCancels || act == MonitorCancels
  }

  lemma {:induction false} ParentCancelledIff(c: Config, acts: seq<Act>, ss: seq<State>, k: nat)
    requires IsRun(c, acts, ss) && k < |ss|
    ensures ss[k].parentCancelled <==> exists j :: 0 <= j < k && CancelsParent(acts[j])
  {
    if k > 0 {
      ParentCancelledIff(c, acts, ss, k - 1);
      assert StepAt(c, acts, ss, k - 1);
      ParentStep(c, ss[k - 1], acts[k - 1]);
    }
  }

  lemma ParentStep(c: Config, s: State, act: Act)
    requires Enabled(c, s, act)
    ensures Next(c, s, act).parentCancelled <==> s.parentCancelled || CancelsParent(act)
  {
  }

  /**
   A pacer ends with the context's error only after its parent or the monitor has cancelled; if it
   ends with a quorum error, the run context is cancelled for the workers.
   */
  lemma ErrorsAreExplained(c: Config, acts: seq<Act>, ss: seq<State>, k: nat)
    requires IsRun(c, acts, ss) && k < |ss| && HasOutcome(ss[k].pacer)
    ensures ss[k].pacer.outcome == ContextError ==> exists j :: 0 <= j < k && CancelsParent(acts[j])
    ensures ss[k].pacer.outcome.QuorumFailed? && !ss[k].pacer.Cancelling? ==> ss[k].sh.cancelled
  {
    RunReasons(c, acts, ss, k);
    ParentCancelledIff(c, acts, ss, k);
  }

  // ---------- Stop channels ----------

  function Shrinks(acts: seq<Act>, j: nat): nat {
    if acts == [] then 0 else Shrinks(acts[..|acts| - 1], j) + (if acts[|acts| - 1] == Act.Shrink(j) then 1 else 0)
  }

  lemma StopStep(c: Config, s: State, act: Act, j: nat)
    requires Enabled(c, s, act) && j < |Next(c, s, act).workers|
    ensures var w' := Next(c, s, act).workers[j];
            if j < |s.workers| then w'.stop == (s.workers[j].stop || act == Act.Shrink(j)) && (s.workers[j].stop ==> act != Act.Shrink(j))
            else !w'.stop && act != Act.Shrink(j)
    ensures |s.workers| <= |Next(c, s, act).workers|
  {
    if act.ByWorker? {
      WorkerKeepsOthers(c, s.sh, s.workers[act.i], act.a);
    } else {
      WorkersEffect(c, s, act);
    }
  }

  lemma {:induction false} NoShrinkBefore(c: Config, acts: seq<Act>, ss: seq<State>, k: nat, j: nat)
    requires IsRun(c, acts, ss) && k < |ss| && j >= |ss[k].workers|
    ensures Shrinks(acts[..k], j) == 0
  {
    if k > 0 {
      assert StepAt(c, acts, ss, k - 1);
      assert acts[..k][..k - 1] == acts[..k - 1];
      if j < |ss[k - 1].workers| {
        StaffGrows(c, ss[k - 1], acts[k - 1]);
      }
      NoShrinkBefore(c, acts, ss, k - 1, j);
    }
  }

  lemma StaffGrows(c: Config, s: State, act: Act)
    requires Enabled(c, s, act)
    ensures |s.workers| <= |Next(c, s, act).workers|
  {
    if !act.ByWorker? {
      WorkersEffect(c, s, act);
    }
  }

  lemma {:induction false} ShrunkOnce(c: Config, acts: seq<Act>, ss: seq<State>, k: nat, j: nat)
    requires IsRun(c, acts, ss) && k < |ss| && j < |ss[k].workers|
    ensures Shrinks(acts[..k], j) == if ss[k].workers[j].stop then 1 else 0
  {
    if k > 0 {
      assert StepAt(c, acts, ss, k - 1);
      assert acts[..k][..k - 1] == acts[..k - 1];
      StopStep(c, ss[k - 1], acts[k - 1], j);
      if j < |ss[k - 1].workers| {
        ShrunkOnce(c, acts, ss, k - 1, j);
      } else {
        NoShrinkBefore(c, acts, ss, k - 1, j);
      }
    }
  }

  /** In every run no stop channel is closed twice, and when a ramping pacer begins to drain each has been closed once. */
  lemma EveryWorkerStoppedOnce(c: Config, acts: seq<Act>, ss: seq<State>, k: nat, j: nat)
    requires IsRun(c, acts, ss) && k < |ss| && j < |ss[k].workers|
    ensures Shrinks(acts[..k], j) <= 1
    ensures c.kind == Ramping && StopSignalled(ss[k].pacer) ==> Shrinks(acts[..k], j) == 1
    ensures c.kind != Ramping ==> Shrinks(acts[..k], j) == 0
  {
    RunReasons(c, acts, ss, k);
    ShrunkOnce(c, acts, ss, k, j);
  }

  // ---------- Iterations ----------

  predicate MustStop(sh: Shared, w: Worker) {
    sh.cancelled || sh.stopAll || w.stop
  }

  lemma NoMoreIterations(c: Config, s: State, act: Act, i: nat)
    requires PacerInv(c, s) && Enabled(c, s, act) && c.kind != Arrival && i < |s.workers| && MustStop(s.sh, s.workers[i])
    ensures var s' := Next(c, s, act);
            i < |s'.workers| && s'.workers[i].iterations == s.workers[i].iterations && MustStop(s'.sh, s'.workers[i])
  {
    if act.ByWorker? {
      SharedKept(c, s.sh, s.workers[act.i], act.a);
      WorkerKeepsOthers(c, s.sh, s.workers[act.i], act.a);
      if act.a != Iterate { IterationsStay(c, s.sh, s.workers[act.i], act.a); }
    } else {
      WorkersEffect(c, s, act);
      ActStaysTrue(c, s, act);
    }
  }

  lemma RunStepAddsNone(c: Config, acts: seq<Act>, ss: seq<State>, k: nat, i: nat)
    requires IsRun(c, acts, ss) && c.kind != Arrival && k < |acts| && i < |ss[k].workers| && MustStop(ss[k].sh, ss[k].workers[i])
    ensures i < |ss[k + 1].workers| && MustStop(ss[k + 1].sh, ss[k + 1].workers[i])
    ensures ss[k + 1].workers[i].iterations == ss[k].workers[i].iterations
  {
    RunStep(c, acts, ss, k);
    NoMoreIterations(c, ss[k], acts[k], i);
  }

  lemma IterationsStay(c: Config, sh: Shared, w: Worker, a: WorkerAct)
    requires WorkerEnabled(c, sh, w, a) && a != Iterate
    ensures var (sh', w') := WorkerStep(c, sh, w, a); w'.iterations == w.iterations && sh'.tokens == sh.tokens
  {
  }

  /**
   Under a constant or ramping pacer a worker begins no further iteration once the run is cancelled or
   its stop has come, and a running one is its last.
   */
  lemma {:induction false} NoIterationAfterStop(c: Config, acts: seq<Act>, ss: seq<State>, j: nat, k: nat, i: nat)
    requires IsRun(c, acts, ss) && c.kind != Arrival && j <= k < |ss|
    requires i < |ss[j].workers| && MustStop(ss[j].sh, ss[j].workers[i])
    ensures i < |ss[k].workers| && MustStop(ss[k].sh, ss[k].workers[i])
    ensures ss[k].workers[i].iterations == ss[j].workers[i].iterations
  {
    if j < k {
      NoIterationAfterStop(c, acts, ss, j, k - 1, i);
      RunStepAddsNone(c, acts, ss, k - 1, i);
    }
  }

  function Dispatches(acts: seq<Act>): nat {
    if acts == [] then 0 else Dispatches(acts[..|acts| - 1]) + (if acts[|acts| - 1] == Dispatch then 1 else 0)
  }

  lemma TokenStep(c: Config, s: State, act: Act)
    requires Enabled(c, s, act) && c.kind == Arrival
    ensures var s' := Next(c, s, act);
            Sum(IterationMeter, s'.workers) + s'.sh.tokens ==
            Sum(IterationMeter, s.workers) + s.sh.tokens + (if act == Dispatch then 1 else 0)
  {
    if act.ByWorker? {
      SumUpdate(IterationMeter, s.workers, act.i, WorkerStep(c, s.sh, s.workers[act.i], act.a).1);
      if act.a != Iterate { IterationsStay(c, s.sh, s.workers[act.i], act.a); }
    } else {
      WorkersEffect(c, s, act);
      TokensEffect(c, s, act);
      SumAppend(IterationMeter, s.workers, NewWorker(true));
      SumAppend(IterationMeter, s.workers, NewWorker(false));
    }
  }

  lemma TokensEffect(c: Config, s: State, act: Act)
    requires Enabled(c, s, act) && !act.ByWorker?
    ensures Next(c, s, act).sh.tokens == s.sh.tokens + (if act == Dispatch then 1 else 0)
  {
    if act != Dispatch {
      TokensStay(c, s, act);
    }
  }

  lemma TokensStay(c: Config, s: State, act: Act)
    requires Enabled(c, s, act) && !act.ByWorker? && act != Dispatch
    ensures Next(c, s, act).sh.tokens == s.sh.tokens
  {
  }

  /** Under an arrival-rate pacer each token queued becomes one iteration or is still waiting, in every state of every run. */
  lemma {:induction false} IterationsAreTokens(c: Config, acts: seq<Act>, ss: seq<State>, k: nat)
    requires IsRun(c, acts, ss) && c.kind == Arrival && k < |ss|
    ensures Sum(IterationMeter, ss[k].workers) + ss[k].sh.tokens == Dispatches(acts[..k])
  {
    if k > 0 {
      IterationsAreTokens(c, acts, ss, k - 1);
      assert StepAt(c, acts, ss, k - 1);
      assert acts[..k][..k - 1] == acts[..k - 1];
      TokenStep(c, ss[k - 1], acts[k - 1]);
    }
  }

  // ---------- The abort report ----------

  /** The executor is past its look at the monitor. */
  predicate Judged(p: PacerPC) {
    p.TearingDown? || (p.Done? && p.outcome != SetupFailed)
  }

  lemma JudgedStep(c: Config, s: State, act: Act)
    requires PacerInv(c, s) && Enabled(c, s, act) && Judged(Next(c, s, act).pacer) && act != CheckAborted
    ensures var s' := Next(c, s, act);
            && Judged(s.pacer) && s'.pacer.outcome == s.pacer.outcome
            && s'.aborted == s.aborted && s'.abortReason == s.abortReason
  {
    if !act.ByWorker? && act != Teardown {
      PositionStays(c, s, act);
    }
  }

  lemma PositionStays(c: Config, s: State, act: Act)
    requires PacerInv(c, s) && Enabled(c, s, act) && Judged(Next(c, s, act).pacer)
    requires !act.ByWorker? && act != CheckAborted && act != Teardown
    ensures var s' := Next(c, s, act);
            s'.pacer == s.pacer && s'.aborted == s.aborted && s'.abortReason == s.abortReason
  {
  }

  /** On every path to the end the executor has looked once at the monitor, and reports an abort exactly for what it saw then. */
  lemma {:induction false} AbortIsJudgedOnce(c: Config, acts: seq<Act>, ss: seq<State>, k: nat) returns (j: nat)
    requires IsRun(c, acts, ss) && k < |ss| && Judged(ss[k].pacer)
    ensures j < k && acts[j] == CheckAborted && ss[j].pacer == Returned(ss[k].pacer.outcome)
    ensures ss[k].aborted <==> ss[k].pacer.outcome == NoError && ss[j].reason != ""
    ensures ss[k].abortReason == if ss[k].pacer.outcome == NoError then ss[j].reason else ""
  {
    if acts[k - 1] == CheckAborted {
      j := k - 1;
      RunStep(c, acts, ss, j);
      AbortReport(c, acts, ss, j);
    } else {
      RunJudgedStep(c, acts, ss, k - 1);
      j := AbortIsJudgedOnce(c, acts, ss, k - 1);
    }
  }

  lemma RunJudgedStep(c: Config, acts: seq<Act>, ss: seq<State>, k: nat)
    requires IsRun(c, acts, ss) && k < |acts| && Judged(ss[k + 1].pacer) && acts[k] != CheckAborted
    ensures Judged(ss[k].pacer) && ss[k + 1].pacer.outcome == ss[k].pacer.outcome
    ensures ss[k + 1].aborted == ss[k].aborted && ss[k + 1].abortReason == ss[k].abortReason
  {
    RunStep(c, acts, ss, k);
    JudgedStep(c, ss[k], acts[k]);
  }

  // ---------- AwaitQuorum's verdict ----------

  /** What the pacer does for one wake-up of the select in AwaitQuorum. */
  function AwaitSteps(g: Gate, event: Event): seq<Act> {
    match event
    case ReadySignal => [QuorumReady]
    case AbortSignal => [QuorumAborted]
    case ContextDone => [QuorumCancelled]
    case TimerSignal =>
      if g.ready >= g.required then [GraceTimer]
      else if g.abortOnce == Fresh then [GraceTimer, GraceEnter, GraceStore, GraceSignal]
      else [GraceTimer, GraceSkip]
  }

  function AfterVerdict(v: Verdict): PacerPC {
    match v
    case Released => Running
    case Refused(error) => PacerPC.Cancelling(QuorumFailed(error))
    case Cancelled => PacerPC.Cancelling(ContextError)
  }

  /** The actions are enabled one after the other and lead from s to s'. */
  ghost predicate LeadTo(c: Config, s: State, acts: seq<Act>, s': State)
    decreases |acts|
  {
    if acts == [] then s' == s else Enabled(c, s, acts[0]) && LeadTo(c, Next(c, s, acts[0]), acts[1..], s')
  }

  predicate MayHappen(sh: Shared, event: Event) {
    match event
    case ReadySignal => sh.gate.readyClosed
    case AbortSignal => sh.gate.abortClosed
    case TimerSignal => true
    case ContextDone => sh.cancelled
  }

  /** The pacer's single steps, run on their own, take the verdict of AwaitQuorum and leave its gate. */
  lemma PacerTakesVerdict(c: Config, s: State, event: Event)
    requires s.pacer == Awaiting && s.sh.gate.abortOnce != Entered && MayHappen(s.sh, event)
    ensures var (g', v) := Awaited(s.sh.gate, event);
            LeadTo(c, s, AwaitSteps(s.sh.gate, event), s.(pacer := AfterVerdict(v), sh := s.sh.(gate := g')))
  {
    var g := s.sh.gate;
    if event == TimerSignal && g.ready < g.required {
      TimerRefuses(c, s);
    } else {
      var act := AwaitSteps(g, event)[0];
      LeadsOneStep(c, s, act);
    }
  }

  lemma LeadsOneStep(c: Config, s: State, act: Act)
    requires Enabled(c, s, act)
    ensures LeadTo(c, s, [act], Next(c, s, act))
  {
    assert [act][1..] == [];
  }

  lemma LeadsOn(c: Config, s: State, act: Act, rest: seq<Act>, s': State)
    requires Enabled(c, s, act) && LeadTo(c, Next(c, s, act), rest, s')
    ensures LeadTo(c, s, [act] + rest, s')
  {
    assert ([act] + rest)[1..] == rest;
  }

  lemma TimerRefuses(c: Config, s: State)
    requires s.pacer == Awaiting && s.sh.gate.abortOnce != Entered && s.sh.gate.ready < s.sh.gate.required
    ensures var (g', v) := Awaited(s.sh.gate, TimerSignal);
            LeadTo(c, s, AwaitSteps(s.sh.gate, TimerSignal), s.(pacer := AfterVerdict(v), sh := s.sh.(gate := g')))
  {
    var s1 := Next(c, s, GraceTimer);
    if s.sh.gate.abortOnce == Fresh {
      GraceAborts(c, s1);
      LeadsOn(c, s, GraceTimer, [GraceEnter, GraceStore, GraceSignal], AfterGraceAbort(s1));
      assert AwaitSteps(s.sh.gate, TimerSignal) == [GraceTimer] + [GraceEnter, GraceStore, GraceSignal];
    } else {
      LeadsOneStep(c, s1, GraceSkip);
      LeadsOn(c, s, GraceTimer, [GraceSkip], Next(c, s1, GraceSkip));
      assert AwaitSteps(s.sh.gate, TimerSignal) == [GraceTimer] + [GraceSkip];
    }
  }

  function AfterGraceAbort(s: State): State {
    var g' := Aborted(s.sh.gate, GraceExpired);
    s.(pacer := PacerPC.Cancelling(QuorumFailed(g'.abortErr)), sh := s.sh.(gate := g'))
  }

  /** The three steps of triggerAbort. */
  lemma GraceAborts(c: Config, s: State)
    requires s.pacer == GraceDo && s.sh.gate.abortOnce == Fresh
    ensures LeadTo(c, s, [GraceEnter, GraceStore, GraceSignal], AfterGraceAbort(s))
  {
    var s1 := Next(c, s, GraceEnter);
    var s2 := Next(c, s1, GraceStore);
    LeadsOneStep(c, s2, GraceSignal);
    LeadsOn(c, s1, GraceStore, [GraceSignal], AfterGraceAbort(s));
    LeadsOn(c, s, GraceEnter, [GraceStore] + [GraceSignal], AfterGraceAbort(s));
    assert [GraceEnter, GraceStore, GraceSignal] == [GraceEnter] + ([GraceStore] + [GraceSignal]);
  }
}
