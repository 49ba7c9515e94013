/**
 Properties of whole runs: quorum decision, gating of RunVU, hook order, join of all
 workers on every return path, termination of the drain and the abort report.
 */
module LifecycleTheorems {
  import opened Quorum
  import opened Lifecycle
  import opened LifecycleInvariant

  ghost predicate StepAt(c: Config, acts: seq<Act>, ss: seq<State>, k: nat)
    requires |ss| == |acts| + 1 && k < |acts|
  {
    Enabled(c, ss[k], acts[k]) && ss[k + 1] == Next(c, ss[k], acts[k])
  }

  /** `ss` is the sequence of states the actions `acts` lead through. */
  ghost predicate IsRun(c: Config, acts: seq<Act>, ss: seq<State>) {
    |ss| == |acts| + 1 && ss[0] == Init(c) && forall k: nat :: k < |acts| ==> StepAt(c, acts, ss, k)
  }

  lemma {:induction false} RunInv(c: Config, acts: seq<Act>, ss: seq<State>, k: nat)
    requires IsRun(c, acts, ss) && k < |ss|
    ensures Inv(c, ss[k])
  {
    if k == 0 {
      InitInv(c);
    } else {
      RunInv(c, acts, ss, k - 1);
      assert StepAt(c, acts, ss, k - 1);
      StepKeepsInv(c, ss[k - 1], acts[k - 1]);
    }
  }

  lemma RunStep(c: Config, acts: seq<Act>, ss: seq<State>, k: nat)
    requires IsRun(c, acts, ss) && k < |acts|
    ensures Inv(c, ss[k]) && Enabled(c, ss[k], acts[k]) && ss[k + 1] == Next(c, ss[k], acts[k])
  {
    RunInv(c, acts, ss, k);
    assert StepAt(c, acts, ss, k);
  }

  // ---------- Quorum ----------

  lemma StepGrows(c: Config, s: State, act: Act)
    requires Inv(c, s) && Enabled(c, s, act)
    ensures Grows(s.sh.gate, Next(c, s, act).sh.gate)
  {
    if act.ByWorker? {
      OnceHolder(c, s, act.i);
      GateStep(c, s.sh, s.workers[act.i], act.a);
    } else if TouchesGate(act) {
      GraceKeepsGate(c, s, act);
    }
  }

  lemma RunStepGrows(c: Config, acts: seq<Act>, ss: seq<State>, k: nat)
    requires IsRun(c, acts, ss) && k < |acts|
    ensures Grows(ss[k].sh.gate, ss[k + 1].sh.gate)
  {
    RunStep(c, acts, ss, k);
    StepGrows(c, ss[k], acts[k]);
  }

  lemma {:induction false} GateMonotone(c: Config, acts: seq<Act>, ss: seq<State>, j: nat, k: nat)
    requires IsRun(c, acts, ss) && j <= k < |ss|
    ensures ss[j].sh.gate.ready <= ss[k].sh.gate.ready && ss[j].sh.gate.failed <= ss[k].sh.gate.failed
    ensures ss[j].sh.gate.target == ss[k].sh.gate.target && ss[j].sh.gate.required == ss[k].sh.gate.required
  {
    if j < k {
      GateMonotone(c, acts, ss, j, k - 1);
      RunStepGrows(c, acts, ss, k - 1);
    }
  }

  /** No worker reports twice, so at most `target` reports ever reach the gate. */
  lemma ReportsAtMostTarget(c: Config, s: State)
    requires Inv(c, s)
    ensures s.sh.gate.ready + s.sh.gate.failed <= s.sh.gate.target
  {
    forall i | 0 <= i < |s.workers| ensures Weight(ReadyMeter, s.workers[i]) + Weight(FailedMeter, s.workers[i]) <= Weight(GatedMeter, s.workers[i]) {
      assert WorkerInv(c, s.sh.gate, s.workers[i]);
    }
    SumBound(ReadyMeter, FailedMeter, GatedMeter, s.workers);
  }

  /** Reported, and finished with everything RecordReady or RecordFailed does. */
  predicate HasReported(w: Worker) {
    && w.record != Unrecorded
    && !w.pc.OpenGate? && !w.pc.CheckFailed? && w.pc != AbortDo && !w.pc.AbortPublish? && w.pc != AbortClose
  }

  ghost predicate NoGrace(s: State) {
    && !PacerHoldsOnce(s.pacer)
    && (s.sh.gate.abortErr.Some? ==> s.sh.gate.abortErr.value.cause == WorkerFailed)
  }

  lemma NoGraceWorkerStep(c: Config, s: State, i: nat, a: WorkerAct)
    requires NoGrace(s) && i < |s.workers| && WorkerEnabled(c, s.sh, s.workers[i], a)
    requires RecordInv(c, s.sh.gate, s.workers[i])
    ensures NoGrace(Next(c, s, ByWorker(i, a)))
  {
  }

  lemma NoGraceStep(c: Config, s: State, act: Act)
    requires Inv(c, s) && NoGrace(s) && Enabled(c, s, act) && act != GraceEnter
    ensures NoGrace(Next(c, s, act))
  {
    if act.ByWorker? {
      assert WorkerInv(c, s.sh.gate, s.workers[act.i]);
      NoGraceWorkerStep(c, s, act.i, act.a);
    }
  }

  lemma RunStepNoGrace(c: Config, acts: seq<Act>, ss: seq<State>, k: nat)
    requires IsRun(c, acts, ss) && k < |acts| && acts[k] != GraceEnter && NoGrace(ss[k])
    ensures NoGrace(ss[k + 1])
  {
    RunStep(c, acts, ss, k);
    NoGraceStep(c, ss[k], acts[k]);
  }

  lemma {:induction false} NoGraceRun(c: Config, acts: seq<Act>, ss: seq<State>, k: nat)
    requires IsRun(c, acts, ss) && k < |ss|
    requires forall j :: 0 <= j < k ==> acts[j] != GraceEnter
    ensures NoGrace(ss[k])
  {
    if k > 0 {
      NoGraceRun(c, acts, ss, k - 1);
      RunStepNoGrace(c, acts, ss, k - 1);
    }
  }

  lemma {:induction false} AllReported(ws: seq<Worker>)
    requires forall i | 0 <= i < |ws| :: ws[i].gated <==> ws[i].record != Unrecorded
    ensures Sum(ReadyMeter, ws) + Sum(FailedMeter, ws) == Sum(GatedMeter, ws)
  {
    if ws != [] {
      AllReported(ws[1..]);
    }
  }

  /**
   Whatever the interleaving: once each of the `target` workers has reported and the grace
   timer has not aborted, exactly one of the two channels is closed, and the counters say which.
   */
  lemma QuorumDecision(c: Config, acts: seq<Act>, ss: seq<State>, k: nat)
    requires IsRun(c, acts, ss) && k < |ss|
    requires forall j :: 0 <= j < k ==> acts[j] != GraceEnter
    requires Sum(GatedMeter, ss[k].workers) == ss[k].sh.gate.target
    requires forall i :: 0 <= i < |ss[k].workers| && ss[k].workers[i].gated ==> HasReported(ss[k].workers[i])
    ensures var g := ss[k].sh.gate;
            && g.readyClosed == !g.abortClosed
            && (g.readyClosed <==> g.ready >= g.required)
            && g.ready + g.failed == g.target
  {
    var s, g := ss[k], ss[k].sh.gate;
    RunInv(c, acts, ss, k);
    NoGraceRun(c, acts, ss, k);
    forall i | 0 <= i < |s.workers|
      ensures s.workers[i].gated <==> s.workers[i].record != Unrecorded
      ensures !WillOpen(g, s.workers[i]) && !WillAbort(g, s.workers[i]) && Weight(OnceMeter, s.workers[i]) == 0
    {
      assert WorkerInv(c, g, s.workers[i]);
    }
    AllReported(s.workers);
    if g.abortOnce == Entered {
      var h := SumWitness(OnceMeter, s.workers);
      assert false;
    }
  }

  /**
   Dropout is final: if at some point more workers have failed than the quorum can spare, the gate
   is never opened, the pacer never leaves startup normally and no worker ever runs RunVU,
   before or after that point.
   */
  lemma DropoutStopsTheRun(c: Config, acts: seq<Act>, ss: seq<State>, j: nat, k: nat)
    requires IsRun(c, acts, ss) && c.gated && j < |ss| && k < |ss|
    requires ss[j].sh.gate.failed > ss[j].sh.gate.target - ss[j].sh.gate.required
    ensures ss[k].sh.gate.ready < ss[k].sh.gate.required
    ensures !ss[k].sh.gate.readyClosed && !PassedStartup(ss[k].pacer)
    ensures forall i :: 0 <= i < |ss[k].workers| ==> ss[k].workers[i].iterations == 0 && RunVU !in ss[k].workers[i].trace
  {
    var last := if j < k then k else j;
    GateMonotone(c, acts, ss, j, last);
    GateMonotone(c, acts, ss, k, last);
    RunInv(c, acts, ss, last);
    ReportsAtMostTarget(c, ss[last]);
    RunInv(c, acts, ss, k);
    forall i | 0 <= i < |ss[k].workers| ensures ss[k].workers[i].iterations == 0 && RunVU !in ss[k].workers[i].trace {
      var w := ss[k].workers[i];
      assert WorkerInv(c, ss[k].sh.gate, w);
      OnlyItself(PreFailed, w.fails);
    }
  }

  lemma {:induction false} OnlyItself(h: Hook, n: nat)
    ensures |Repeat(h, n)| == n && forall k :: 0 <= k < n ==> Repeat(h, n)[k] == h
  {
    if n > 0 {
      OnlyItself(h, n - 1);
    }
  }

  /** A dropout abort is the case above, and every abort has published its error before its channel closes. */
  lemma AbortIsExplained(c: Config, acts: seq<Act>, ss: seq<State>, k: nat)
    requires IsRun(c, acts, ss) && k < |ss| && ss[k].sh.gate.abortClosed
    ensures ss[k].sh.gate.abortErr.Some?
    ensures var g := ss[k].sh.gate;
            g.abortErr.value.cause == WorkerFailed ==> g.failed > g.target - g.required && g.ready < g.required && !g.readyClosed
    ensures ss[k].sh.gate.readyClosed ==> ss[k].sh.gate.abortErr.value.cause == GraceExpired
  {
    RunInv(c, acts, ss, k);
    ReportsAtMostTarget(c, ss[k]);
  }

  /** What AwaitQuorum and the pacer hand back: never a success below the quorum, never an empty quorum error. */
  lemma StartupOutcome(c: Config, acts: seq<Act>, ss: seq<State>, k: nat)
    requires IsRun(c, acts, ss) && k < |ss| && c.gated
    ensures PassedStartup(ss[k].pacer) ==> ss[k].sh.gate.ready >= ss[k].sh.gate.required
    ensures ss[k].pacer.Done? && ss[k].pacer.outcome.QuorumFailed? ==>
              ss[k].pacer.outcome.error.Some? && ss[k].pacer.outcome.error == ss[k].sh.gate.abortErr && ss[k].sh.gate.abortClosed
    ensures k < |acts| && acts[k].ByWorker? && acts[k].a == Iterate ==> ss[k].sh.gate.ready >= ss[k].sh.gate.required
  {
    RunInv(c, acts, ss, k);
    if k < |acts| && acts[k].ByWorker? {
      RunStep(c, acts, ss, k);
      assert WorkerInv(c, ss[k].sh.gate, ss[k].workers[acts[k].i]);
    }
  }

  /** Whoever is about to close the abort channel has stored its own error. */
  ghost predicate CauseInv(s: State) {
    var g := s.sh.gate;
    && (s.pacer == GraceClose ==> g.abortErr.Some? && g.abortErr.value.cause == GraceExpired)
    && forall i :: 0 <= i < |s.workers| && s.workers[i].pc == AbortClose ==> g.abortErr.Some? && g.abortErr.value.cause == WorkerFailed
  }

  /** Two parties never hold triggerAbort's once. */
  lemma OnceExcludes(c: Config, s: State, i: nat)
    requires Inv(c, s) && i < |s.workers| && (s.workers[i].pc.AbortPublish? || s.workers[i].pc == AbortClose)
    ensures !PacerHoldsOnce(s.pacer)
  {
    SumAtLeast(OnceMeter, s.workers, i);
  }

  /** A worker's step leaves the stored error alone, or stores the error the worker carries and is then about to close. */
  lemma ErrorStep(c: Config, sh: Shared, w: Worker, a: WorkerAct)
    requires WorkerEnabled(c, sh, w, a)
    ensures var (sh', w') := WorkerStep(c, sh, w, a);
            && (a != StoreError ==> sh'.gate.abortErr == sh.gate.abortErr && w'.pc != AbortClose)
            && (a == StoreError ==> w.pc.AbortPublish? && sh'.gate.abortErr.Some? && sh'.gate.abortErr.value == w.pc.error)
  {
    if !Reports(a) && !Aborts(a) {
      OtherStep(c, sh, w, a);
      NeverAtClose(c, sh, w, a);
    } else if a != StoreError {
      KeepsError(c, sh, w, a);
    }
  }

  lemma KeepsError(c: Config, sh: Shared, w: Worker, a: WorkerAct)
    requires WorkerEnabled(c, sh, w, a) && (Reports(a) || Aborts(a)) && a != StoreError
    ensures var (sh', w') := WorkerStep(c, sh, w, a); sh'.gate.abortErr == sh.gate.abortErr && w'.pc != AbortClose
  {
  }

  lemma NeverAtClose(c: Config, sh: Shared, w: Worker, a: WorkerAct)
    requires WorkerEnabled(c, sh, w, a) && !Reports(a) && !Aborts(a)
    ensures WorkerStep(c, sh, w, a).1.pc != AbortClose
  {
  }

  lemma CauseFrame(s: State, s': State, i: nat)
    requires CauseInv(s) && i < |s.workers| == |s'.workers| && s'.pacer == s.pacer
    requires forall k :: 0 <= k < |s.workers| && k != i ==> s'.workers[k] == s.workers[k]
    requires || (s'.sh.gate.abortErr == s.sh.gate.abortErr && s'.workers[i].pc != AbortClose)
             || (s'.sh.gate.abortErr.Some? && s'.sh.gate.abortErr.value.cause == WorkerFailed && s.pacer != GraceClose)
    ensures CauseInv(s')
  {
  }

  lemma StoresOwnError(c: Config, s: State, i: nat)
    requires Inv(c, s) && i < |s.workers| && s.workers[i].pc.AbortPublish?
    ensures s.workers[i].pc.error.cause == WorkerFailed && s.pacer != GraceClose
  {
    assert WorkerInv(c, s.sh.gate, s.workers[i]);
    OnceExcludes(c, s, i);
  }

  lemma WorkerActKeepsCause(c: Config, s: State, i: nat, a: WorkerAct)
    requires Inv(c, s) && CauseInv(s) && i < |s.workers| && WorkerEnabled(c, s.sh, s.workers[i], a)
    ensures CauseInv(Next(c, s, ByWorker(i, a)))
  {
    ErrorStep(c, s.sh, s.workers[i], a);
    if a == StoreError {
      StoresOwnError(c, s, i);
    }
    CauseFrame(s, Next(c, s, ByWorker(i, a)), i);
  }

  lemma GraceStoreKeepsCause(c: Config, s: State)
    requires Inv(c, s) && Enabled(c, s, GraceStore)
    ensures CauseInv(Next(c, s, GraceStore))
  {
    forall i | 0 <= i < |s.workers| ensures s.workers[i].pc != AbortClose {
      SumAtLeast(OnceMeter, s.workers, i);
    }
  }

  lemma StepKeepsCause(c: Config, s: State, act: Act)
    requires Inv(c, s) && CauseInv(s) && Enabled(c, s, act)
    ensures CauseInv(Next(c, s, act))
  {
    if act.ByWorker? {
      WorkerActKeepsCause(c, s, act.i, act.a);
    } else if act == GraceStore {
      GraceStoreKeepsCause(c, s);
    } else {
      ErrorStays(c, s, act);
      WorkersEffect(c, s, act);
      CauseStays(s, Next(c, s, act), act);
    }
  }

  /** What an action of the pacer, the monitor or the environment does to the workers. */
  predicate Worked(s: State, s': State, act: Act) {
    if act.Shrink? then act.j < |s.workers| && s'.workers == s.workers[act.j := s.workers[act.j].(stop := true)]
    else if Spawns(act) then s'.workers == s.workers + [NewWorker(true)] || s'.workers == s.workers + [NewWorker(false)]
    else s'.workers == s.workers
  }

  lemma CauseStays(s: State, s': State, act: Act)
    requires CauseInv(s) && Worked(s, s', act)
    requires s'.sh.gate.abortErr == s.sh.gate.abortErr && (s'.pacer == GraceClose ==> s.pacer == GraceClose)
    ensures CauseInv(s')
  {
  }

  lemma ErrorStays(c: Config, s: State, act: Act)
    requires Enabled(c, s, act) && !act.ByWorker? && act != GraceStore
    ensures var s' := Next(c, s, act);
            s'.sh.gate.abortErr == s.sh.gate.abortErr && (s'.pacer == GraceClose ==> s.pacer == GraceClose)
  {
    if act == GraceEnter {
      assert Next(c, s, GraceEnter).sh.gate == EnterOnce(s.sh.gate);
    } else if act == GraceSignal {
      assert Next(c, s, GraceSignal).sh.gate == CloseAbort(s.sh.gate);
    } else {
      GateStays(c, s, act);
      NotAtClose(c, s, act);
    }
  }

  lemma GateStays(c: Config, s: State, act: Act)
    requires Enabled(c, s, act) && !act.ByWorker? && !TouchesGate(act)
    ensures Next(c, s, act).sh.gate == s.sh.gate
  {
  }

  lemma NotAtClose(c: Config, s: State, act: Act)
    requires Enabled(c, s, act) && !act.ByWorker? && !TouchesGate(act)
    ensures Next(c, s, act).pacer == GraceClose ==> s.pacer == GraceClose
  {
  }

  lemma WorkersEffect(c: Config, s: State, act: Act)
    requires Enabled(c, s, act) && !act.ByWorker?
    ensures Worked(s, Next(c, s, act), act)
  {
    if !Spawns(act) && !act.Shrink? {
      WorkersStay(c, s, act);
    }
  }

  lemma WorkersStay(c: Config, s: State, act: Act)
    requires Enabled(c, s, act) && !act.ByWorker? && !Spawns(act) && !act.Shrink?
    ensures Next(c, s, act).workers == s.workers
  {
  }

  lemma {:induction false} RunCause(c: Config, acts: seq<Act>, ss: seq<State>, k: nat)
    requires IsRun(c, acts, ss) && k < |ss|
    ensures CauseInv(ss[k])
  {
    if k > 0 {
      RunCause(c, acts, ss, k - 1);
      RunStepKeepsCause(c, acts, ss, k - 1);
    }
  }

  lemma RunStepKeepsCause(c: Config, acts: seq<Act>, ss: seq<State>, k: nat)
    requires IsRun(c, acts, ss) && k < |acts| && CauseInv(ss[k])
    ensures CauseInv(ss[k + 1])
  {
    RunStep(c, acts, ss, k);
    StepKeepsCause(c, ss[k], acts[k]);
  }

  predicate AbortedByGrace(g: Gate) {
    g.abortClosed && g.abortErr.Some? && g.abortErr.value.cause == GraceExpired
  }

  /** Only the grace timer's own close makes an abort a grace abort, and that is final. */
  lemma GraceSignalDecides(c: Config, s: State, act: Act)
    requires Inv(c, s) && CauseInv(s) && Enabled(c, s, act)
    ensures AbortedByGrace(Next(c, s, act).sh.gate) <==> AbortedByGrace(s.sh.gate) || act == GraceSignal
  {
    StepGrows(c, s, act);
    if act.ByWorker? {
      WorkerAbortIsNoGrace(c, s, act.i, act.a);
    }
  }

  lemma WorkerAbortIsNoGrace(c: Config, s: State, i: nat, a: WorkerAct)
    requires Inv(c, s) && CauseInv(s) && i < |s.workers| && WorkerEnabled(c, s.sh, s.workers[i], a)
    ensures AbortedByGrace(Next(c, s, ByWorker(i, a)).sh.gate) ==> AbortedByGrace(s.sh.gate)
  {
    if a == StoreError {
      StoresOwnError(c, s, i);
    }
    NoGraceAfter(c, s.sh, s.workers[i], a);
  }

  lemma NoGraceAfter(c: Config, sh: Shared, w: Worker, a: WorkerAct)
    requires WorkerEnabled(c, sh, w, a)
    requires w.pc == AbortClose ==> sh.gate.abortErr.Some? && sh.gate.abortErr.value.cause == WorkerFailed
    requires w.pc.AbortPublish? ==> w.pc.error.cause == WorkerFailed
    ensures AbortedByGrace(WorkerStep(c, sh, w, a).0.gate) ==> AbortedByGrace(sh.gate)
  {
    if !Reports(a) && !Aborts(a) {
      OtherStep(c, sh, w, a);
    } else if Reports(a) {
      KeepsError(c, sh, w, a);
    }
  }

  lemma {:induction false} AbortedByGraceIff(c: Config, acts: seq<Act>, ss: seq<State>, k: nat)
    requires IsRun(c, acts, ss) && k < |ss|
    ensures AbortedByGrace(ss[k].sh.gate) <==> GraceSignal in acts[..k]
  {
    if k > 0 {
      AbortedByGraceIff(c, acts, ss, k - 1);
      RunCause(c, acts, ss, k - 1);
      RunStepGraceSignal(c, acts, ss, k - 1);
      assert acts[..k] == acts[..k - 1] + [acts[k - 1]];
    }
  }

  lemma RunStepGraceSignal(c: Config, acts: seq<Act>, ss: seq<State>, k: nat)
    requires IsRun(c, acts, ss) && k < |acts| && CauseInv(ss[k])
    ensures AbortedByGrace(ss[k + 1].sh.gate) <==> AbortedByGrace(ss[k].sh.gate) || acts[k] == GraceSignal
  {
    RunStep(c, acts, ss, k);
    GraceSignalDecides(c, ss[k], acts[k]);
  }

  /**
   With grace aborts included: once every gated worker has reported, the gate is open exactly with
   a quorum, and both channels are closed exactly if the run got its quorum and the grace timer has closed the abort channel.
   */
  lemma GateOutcome(c: Config, acts: seq<Act>, ss: seq<State>, k: nat)
    requires IsRun(c, acts, ss) && k < |ss|
    requires forall i :: 0 <= i < |ss[k].workers| && ss[k].workers[i].gated ==> HasReported(ss[k].workers[i])
    ensures var g := ss[k].sh.gate;
            && (g.readyClosed <==> g.ready >= g.required)
            && (g.abortClosed ==> g.abortErr.Some?)
            && (g.readyClosed && g.abortClosed <==> g.ready >= g.required && GraceSignal in acts[..k])
            && (AbortedByGrace(g) <==> GraceSignal in acts[..k])
  {
    OpenIffQuorum(c, acts, ss, k);
    AbortedByGraceIff(c, acts, ss, k);
    if ss[k].sh.gate.abortClosed {
      AbortIsExplained(c, acts, ss, k);
    }
  }

  lemma OpenIffQuorum(c: Config, acts: seq<Act>, ss: seq<State>, k: nat)
    requires IsRun(c, acts, ss) && k < |ss|
    requires forall i :: 0 <= i < |ss[k].workers| && ss[k].workers[i].gated ==> HasReported(ss[k].workers[i])
    ensures ss[k].sh.gate.readyClosed <==> ss[k].sh.gate.ready >= ss[k].sh.gate.required
  {
    var s, g := ss[k], ss[k].sh.gate;
    RunInv(c, acts, ss, k);
    forall i | 0 <= i < |s.workers| ensures !WillOpen(g, s.workers[i]) {
      assert WorkerInv(c, g, s.workers[i]);
    }
  }

  lemma ExtendRun(c: Config, acts: seq<Act>, ss: seq<State>, act: Act) returns (ss': seq<State>)
    requires IsRun(c, acts, ss) && Enabled(c, ss[|acts|], act)
    ensures IsRun(c, acts + [act], ss') && ss' == ss + [Next(c, ss[|acts|], act)]
  {
    ss' := ss + [Next(c, ss[|acts|], act)];
    forall k: nat | k < |acts| + 1 ensures StepAt(c, acts + [act], ss', k) {
      assert k < |acts| ==> StepAt(c, acts, ss, k);
    }
  }

  /** One planned worker and no hooks besides RunVU: the pacer waits for the quorum. */
  lemma AwaitingRun(c: Config) returns (acts: seq<Act>, ss: seq<State>)
    requires c == Config(Constant, 1, true, 1.0, 0, false, false, 0)
    ensures IsRun(c, acts, ss)
    ensures ss[|acts|] == Init(c).(pacer := Awaiting, workers := [NewWorker(true)], sh := Init(c).sh.(waitGroup := 1))
  {
    acts, ss := [SetupPasses], [Init(c)];
    ss := ExtendRun(c, [], ss, SetupPasses);
    ss := ExtendRun(c, acts, ss, Spawn);
    acts := acts + [Spawn];
    ss := ExtendRun(c, acts, ss, SpawnFinished);
    acts := acts + [SpawnFinished];
  }

  /** ... and is about to give up waiting. */
  lemma GraceTimerRun(c: Config) returns (acts: seq<Act>, ss: seq<State>)
    requires c == Config(Constant, 1, true, 1.0, 0, false, false, 0)
    ensures IsRun(c, acts, ss)
    ensures var s := ss[|acts|];
            && s.pacer == GraceDo && s.workers == [NewWorker(true)] && !s.sh.cancelled && !s.sh.stopAll
            && s.sh.gate == NewGate(1, 1.0)
  {
    acts, ss := AwaitingRun(c);
    ss := ExtendRun(c, acts, ss, GraceTimer);
    acts := acts + [GraceTimer];
  }

  lemma GraceAbortRun(c: Config) returns (acts: seq<Act>, ss: seq<State>)
    requires c == Config(Constant, 1, true, 1.0, 0, false, false, 0)
    ensures IsRun(c, acts, ss)
    ensures var s := ss[|acts|];
            && s.pacer.Cancelling? && s.pacer.outcome != NoError && s.workers == [NewWorker(true)]
            && !s.sh.cancelled && !s.sh.stopAll
            && s.sh.gate.abortClosed && s.sh.gate.ready == 0 && s.sh.gate.required == 1
  {
    acts, ss := GraceTimerRun(c);
    ss := ExtendRun(c, acts, ss, GraceEnter);
    acts := acts + [GraceEnter];
    ss := ExtendRun(c, acts, ss, GraceStore);
    acts := acts + [GraceStore];
    ss := ExtendRun(c, acts, ss, GraceSignal);
    acts := acts + [GraceSignal];
  }

  lemma LateReportRun(c: Config) returns (acts: seq<Act>, ss: seq<State>)
    requires c == Config(Constant, 1, true, 1.0, 0, false, false, 0)
    ensures IsRun(c, acts, ss)
    ensures var s := ss[|acts|];
            && s.sh.gate.readyClosed && s.sh.gate.abortClosed && s.pacer.Cancelling? && s.pacer.outcome != NoError
            && !s.sh.cancelled && !s.sh.stopAll
            && |s.workers| == 1 && s.workers[0].pc == WaitGate && s.workers[0].trace == [] && !s.workers[0].stop
  {
    acts, ss := GraceAbortRun(c);
    ss := ExtendRun(c, acts, ss, ByWorker(0, Start));
    acts := acts + [ByWorker(0, Start)];
    ss := ExtendRun(c, acts, ss, ByWorker(0, CountReady));
    acts := acts + [ByWorker(0, CountReady)];
    ss := ExtendRun(c, acts, ss, ByWorker(0, SignalReady));
    acts := acts + [ByWorker(0, SignalReady)];
  }

  lemma LatePassRun(c: Config) returns (acts: seq<Act>, ss: seq<State>)
    requires c == Config(Constant, 1, true, 1.0, 0, false, false, 0)
    ensures IsRun(c, acts, ss)
    ensures var s := ss[|acts|];
            && s.sh.gate.readyClosed && s.sh.gate.abortClosed && s.pacer.Cancelling? && s.pacer.outcome != NoError
            && !s.sh.cancelled && !s.sh.stopAll
            && |s.workers| == 1 && s.workers[0].pc == Loop && s.workers[0].trace == [] && !s.workers[0].stop
  {
    acts, ss := LateReportRun(c);
    ss := ExtendRun(c, acts, ss, ByWorker(0, PassGate));
    acts := acts + [ByWorker(0, PassGate)];
  }

  /**
   The two channels do not exclude each other after a grace abort: the only worker reports
   late, opens the gate and runs RunVU in a run that is already aborted.
   */
  lemma GraceAbortCanStillOpenTheGate() returns (c: Config, acts: seq<Act>, ss: seq<State>)
    ensures IsRun(c, acts, ss) && c.gated
    ensures var s := ss[|acts|];
            && s.sh.gate.readyClosed && s.sh.gate.abortClosed && !PassedStartup(s.pacer)
            && |s.workers| == 1 && s.workers[0].trace == [RunVU]
  {
    c := Config(Constant, 1, true, 1.0, 0, false, false, 0);
    acts, ss := LatePassRun(c);
    ss := ExtendRun(c, acts, ss, ByWorker(0, Iterate));
    acts := acts + [ByWorker(0, Iterate)];
    assert [] + [RunVU] == [RunVU];
  }

  // ---------- Hooks, join, teardown ----------

  /** At any time a worker's hooks so far are PreFailed^fails, at most one PrePassed, RunVU^iterations, at most one AfterTest. */
  lemma HookOrder(c: Config, acts: seq<Act>, ss: seq<State>, k: nat, i: nat)
    requires IsRun(c, acts, ss) && k < |ss| && i < |ss[k].workers|
    ensures var w := ss[k].workers[i];
            && w.trace == Shape(w.fails, w.passed && c.hasPreTest, w.iterations, Finishing(w.pc) && c.hasAfterTest)
            && w.fails + (if w.passed && c.hasPreTest then 1 else 0) <= c.maxRetries + 1
            && (w.iterations > 0 ==> w.passed)
  {
    RunInv(c, acts, ss, k);
    assert WorkerInv(c, ss[k].sh.gate, ss[k].workers[i]);
  }

  lemma {:induction false} NobodyLive(ws: seq<Worker>)
    requires Sum(LiveMeter, ws) == 0
    ensures Sum(GaugeMeter, ws) == 0
    ensures forall i :: 0 <= i < |ws| ==> ws[i].pc == Exited
  {
    if ws != [] {
      NobodyLive(ws[1..]);
    }
  }

  /**
   On every return path of every pacer: all spawned workers have exited, each with its full hook
   sequence, the active gauge is back where it started, and the teardown hook runs after that, once.
   */
  lemma ReturnMeansJoined(c: Config, acts: seq<Act>, ss: seq<State>, k: nat)
    requires IsRun(c, acts, ss) && k < |ss| && Joined(ss[k].pacer)
    ensures ss[k].sh.gauge == c.gauge0
    ensures forall i :: 0 <= i < |ss[k].workers| ==>
              var w := ss[k].workers[i];
              w.pc == Exited && w.trace == Shape(w.fails, w.passed && c.hasPreTest, w.iterations, c.hasAfterTest)
    ensures ss[k].teardowns == (if ss[k].pacer.Done? then 1 else 0)
  {
    RunInv(c, acts, ss, k);
    NobodyLive(ss[k].workers);
    forall i | 0 <= i < |ss[k].workers| ensures var w := ss[k].workers[i];
              w.trace == Shape(w.fails, w.passed && c.hasPreTest, w.iterations, c.hasAfterTest) {
      HookOrder(c, acts, ss, k, i);
    }
  }

  /** ... and nothing a worker could still do is enabled. */
  lemma NoWorkerMovesAfterReturn(c: Config, acts: seq<Act>, ss: seq<State>, k: nat, i: nat, a: WorkerAct)
    requires IsRun(c, acts, ss) && k < |ss| && Joined(ss[k].pacer)
    ensures !Enabled(c, ss[k], ByWorker(i, a))
  {
    RunInv(c, acts, ss, k);
    NobodyLive(ss[k].workers);
  }

  /** A failed Setup starts nothing and tears nothing down. */
  lemma SetupFailureStartsNothing(c: Config, acts: seq<Act>, ss: seq<State>, k: nat)
    requires IsRun(c, acts, ss) && k < |ss| && ss[k].pacer == Done(SetupFailed)
    ensures ss[k].workers == [] && ss[k].teardowns == 0 && ss[k].sh.gauge == c.gauge0
  {
    RunInv(c, acts, ss, k);
  }

  // ---------- Termination ----------

  function PacerRank(p: PacerPC): nat {
    match p
    case Draining(_) => 4
    case DrainWait(_) => 3
    case Returned(_) => 2
    case TearingDown(_) => 1
    case _ => 0
  }

  /** Bounds the program's own steps from the moment the stop is signalled. */
  function TotalRank(c: Config, s: State): nat {
    Sum(RankMeter(c.maxRetries), s.workers) + 2 * s.sh.tokens + PacerRank(s.pacer)
  }

  lemma WorkerRankDecreases(c: Config, sh: Shared, w: Worker, a: WorkerAct)
    requires WorkerEnabled(c, sh, w, a) && TraceInv(c, w) && sh.stopAll
    ensures var (sh', w') := WorkerStep(c, sh, w, a);
            Rank(c.maxRetries, w') + 2 * sh'.tokens < Rank(c.maxRetries, w) + 2 * sh.tokens
  {
    if Reports(a) || Aborts(a) {
      ReportRankDecreases(c, sh, w, a);
    } else if a == Iterate || a == FinishIteration || a == LeaveLoop {
      LoopRankDecreases(c, sh, w, a);
    } else if a == PassGate || a == LeaveGate || a == RunDeferred || a == LowerGauge || a == LeaveGroup {
      LeavingRankDecreases(c, sh, w, a);
    } else {
      PreTestRankDecreases(c, sh, w, a);
    }
  }

  lemma ReportRankDecreases(c: Config, sh: Shared, w: Worker, a: WorkerAct)
    requires WorkerEnabled(c, sh, w, a) && (Reports(a) || Aborts(a))
    ensures var (sh', w') := WorkerStep(c, sh, w, a);
            sh'.tokens == sh.tokens && Rank(c.maxRetries, w') < Rank(c.maxRetries, w)
  {
  }

  /** After the stop only tokens that are still queued start another iteration. */
  lemma LoopRankDecreases(c: Config, sh: Shared, w: Worker, a: WorkerAct)
    requires WorkerEnabled(c, sh, w, a) && sh.stopAll && (a == Iterate || a == FinishIteration || a == LeaveLoop)
    ensures var (sh', w') := WorkerStep(c, sh, w, a);
            Rank(c.maxRetries, w') + 2 * sh'.tokens < Rank(c.maxRetries, w) + 2 * sh.tokens
  {
  }

  lemma LeavingRankDecreases(c: Config, sh: Shared, w: Worker, a: WorkerAct)
    requires WorkerEnabled(c, sh, w, a)
    requires a == PassGate || a == LeaveGate || a == RunDeferred || a == LowerGauge || a == LeaveGroup
    ensures var (sh', w') := WorkerStep(c, sh, w, a);
            sh'.tokens == sh.tokens && Rank(c.maxRetries, w') < Rank(c.maxRetries, w)
  {
  }

  lemma PreTestRankDecreases(c: Config, sh: Shared, w: Worker, a: WorkerAct)
    requires WorkerEnabled(c, sh, w, a) && TraceInv(c, w)
    requires a == Start || a == PreTestPasses || a == PreTestFails || a == RetryNow || a == GiveUp
    ensures var (sh', w') := WorkerStep(c, sh, w, a);
            sh'.tokens == sh.tokens && Rank(c.maxRetries, w') < Rank(c.maxRetries, w)
  {
  }

  lemma StepAfterStop(c: Config, s: State, act: Act)
    requires Inv(c, s) && StopSignalled(s.pacer) && Enabled(c, s, act)
    ensures StopSignalled(Next(c, s, act).pacer)
    ensures TotalRank(c, Next(c, s, act)) <= TotalRank(c, s)
    ensures !FromOutside(act) ==> TotalRank(c, Next(c, s, act)) < TotalRank(c, s)
  {
    if act.ByWorker? {
      var w := s.workers[act.i];
      assert WorkerInv(c, s.sh.gate, w);
      WorkerRankDecreases(c, s.sh, w, act.a);
      SumUpdate(RankMeter(c.maxRetries), s.workers, act.i, WorkerStep(c, s.sh, w, act.a).1);
    }
  }

  lemma RunStepAfterStop(c: Config, acts: seq<Act>, ss: seq<State>, k: nat)
    requires IsRun(c, acts, ss) && k < |acts| && StopSignalled(ss[k].pacer)
    ensures StopSignalled(ss[k + 1].pacer)
    ensures TotalRank(c, ss[k + 1]) + (if FromOutside(acts[k]) then 0 else 1) <= TotalRank(c, ss[k])
  {
    RunStep(c, acts, ss, k);
    StepAfterStop(c, ss[k], acts[k]);
  }

  /** How many of the actions `j..k` are the program's own. */
  function ProgramSteps(acts: seq<Act>, j: nat, k: nat): nat
    requires j <= k <= |acts|
  {
    if j == k then 0 else ProgramSteps(acts, j, k - 1) + (if FromOutside(acts[k - 1]) then 0 else 1)
  }

  lemma {:induction false} Countdown(acts: seq<Act>, ranks: seq<nat>, j: nat, k: nat)
    requires |ranks| == |acts| + 1 && j <= k <= |acts|
    requires forall i :: j <= i < k ==> ranks[i + 1] + (if FromOutside(acts[i]) then 0 else 1) <= ranks[i]
    ensures ProgramSteps(acts, j, k) + ranks[k] <= ranks[j]
  {
    if j < k {
      Countdown(acts, ranks, j, k - 1);
      var i := k - 1;
      assert ranks[i + 1] + (if FromOutside(acts[i]) then 0 else 1) <= ranks[i];
    }
  }

  lemma StaysStoppedOnce(c: Config, acts: seq<Act>, ss: seq<State>, k: nat)
    requires IsRun(c, acts, ss) && k < |acts| && StopSignalled(ss[k].pacer)
    ensures StopSignalled(ss[k + 1].pacer)
  {
    RunStepAfterStop(c, acts, ss, k);
  }

  lemma {:induction false} StaysStopped(c: Config, acts: seq<Act>, ss: seq<State>, j: nat, k: nat)
    requires IsRun(c, acts, ss) && j <= k < |ss| && StopSignalled(ss[j].pacer)
    ensures StopSignalled(ss[k].pacer)
  {
    if j < k {
      StaysStopped(c, acts, ss, j, k - 1);
      StaysStoppedOnce(c, acts, ss, k - 1);
    }
  }

  function Ranks(c: Config, ss: seq<State>): (ranks: seq<nat>)
    ensures |ranks| == |ss| && forall i :: 0 <= i < |ss| ==> ranks[i] == TotalRank(c, ss[i])
  {
    seq(|ss|, i requires 0 <= i < |ss| => TotalRank(c, ss[i]))
  }

  lemma RankDescends(c: Config, acts: seq<Act>, ss: seq<State>, j: nat, i: nat)
    requires IsRun(c, acts, ss) && j <= i < |acts| && StopSignalled(ss[j].pacer)
    ensures TotalRank(c, ss[i + 1]) + (if FromOutside(acts[i]) then 0 else 1) <= TotalRank(c, ss[i])
  {
    StaysStopped(c, acts, ss, j, i);
    RunStepAfterStop(c, acts, ss, i);
  }

  /** After the stop signal only a bounded number of program steps remain, whatever hooks, timers and cancellations do. */
  lemma DrainIsBounded(c: Config, acts: seq<Act>, ss: seq<State>, j: nat, k: nat)
    requires IsRun(c, acts, ss) && j <= k < |ss| && StopSignalled(ss[j].pacer)
    ensures ProgramSteps(acts, j, k) + TotalRank(c, ss[k]) <= TotalRank(c, ss[j])
  {
    var ranks := Ranks(c, ss);
    forall i | j <= i < k ensures ranks[i + 1] + (if FromOutside(acts[i]) then 0 else 1) <= ranks[i] {
      RankDescends(c, acts, ss, j, i);
    }
    Countdown(acts, ranks, j, k);
  }

  /** The step a worker can take once the run context is cancelled, unless it waits for the abort to finish. */
  function NextWorkerAct(c: Config, sh: Shared, w: Worker): WorkerAct {
    match w.pc
    case Born => Start
    case PreTest => PreTestFails
    case Backoff => RetryNow
    case ReportReady => CountReady
    case OpenGate(_) => SignalReady
    case WaitGate => LeaveGate
    case ReportFailed => CountFailed
    case CheckFailed(_) => JudgeFailed
    case AbortDo => if sh.gate.abortOnce == Fresh then EnterAbort else SkipAbort
    case AbortPublish(_) => StoreError
    case AbortClose => SignalAbort
    case Loop => LeaveLoop
    case Iterating => FinishIteration
    case Deferred => RunDeferred
    case GaugeDown => LowerGauge
    case WaitGroupDone => LeaveGroup
    case Exited => LeaveGroup
  }

  lemma AbortHolderMoves(c: Config, s: State) returns (act: Act)
    requires Inv(c, s) && s.sh.gate.abortOnce == Entered && !PacerHoldsOnce(s.pacer)
    ensures Enabled(c, s, act) && !FromOutside(act)
  {
    var h := SumWitness(OnceMeter, s.workers);
    act := ByWorker(h, if s.workers[h].pc == AbortClose then SignalAbort else StoreError);
  }

  lemma WorkerCanMove(c: Config, sh: Shared, w: Worker)
    requires sh.cancelled && w.pc != Exited && !(w.pc == AbortDo && sh.gate.abortOnce == Entered)
    ensures WorkerEnabled(c, sh, w, NextWorkerAct(c, sh, w))
  {
  }

  lemma SomeWorkerMoves(c: Config, s: State) returns (act: Act)
    requires Inv(c, s) && s.sh.cancelled && s.sh.waitGroup > 0 && !PacerHoldsOnce(s.pacer)
    ensures Enabled(c, s, act) && !FromOutside(act)
  {
    var i := SumWitness(LiveMeter, s.workers);
    if s.workers[i].pc == AbortDo && s.sh.gate.abortOnce == Entered {
      act := AbortHolderMoves(c, s);
    } else {
      WorkerCanMove(c, s.sh, s.workers[i]);
      act := ByWorker(i, NextWorkerAct(c, s.sh, s.workers[i]));
    }
  }

  lemma StartupMoves(c: Config, s: State) returns (act: Act)
    requires s.pacer == Setup || s.pacer == Spawning || s.pacer == Awaiting || s.pacer.GracePublish? || s.pacer == GraceClose || s.pacer.Cancelling?
    ensures Enabled(c, s, act) && !FromOutside(act)
  {
    match s.pacer
    case Setup => act := SetupPasses;
    case Spawning => act := if |s.workers| < Initial(c) then Spawn else SpawnFinished;
    case Awaiting => act := GraceTimer;
    case GracePublish(_) => act := GraceStore;
    case GraceClose => act := GraceSignal;
    case Cancelling(_) => act := CancelRun;
  }

  lemma ShutdownMoves(c: Config, s: State) returns (act: Act)
    requires s.pacer == Running || s.pacer.Stopping? || s.pacer.Draining? || s.pacer.Returned? || s.pacer.TearingDown?
    ensures Enabled(c, s, act) && !FromOutside(act)
  {
    match s.pacer
    case Running => act := EndRun;
    case Stopping(_) =>
      if c.kind == Ramping && exists j :: 0 <= j < |s.workers| && !s.workers[j].stop {
        var j :| 0 <= j < |s.workers| && !s.workers[j].stop;
        act := Shrink(j);
      } else {
        act := CloseStop;
      }
    case Draining(_) => act := DrainTimeout;
    case Returned(_) => act := CheckAborted;
    case TearingDown(_) => act := Teardown;
  }

  lemma DrainMoves(c: Config, s: State) returns (act: Act)
    requires Inv(c, s) && s.pacer.DrainWait?
    ensures Enabled(c, s, act) && !FromOutside(act)
  {
    if s.sh.waitGroup <= 0 {
      act := Drained;
    } else {
      act := SomeWorkerMoves(c, s);
    }
  }

  lemma GraceMoves(c: Config, s: State) returns (act: Act)
    requires Inv(c, s) && s.pacer == GraceDo
    ensures Enabled(c, s, act) && !FromOutside(act)
  {
    if s.sh.gate.abortOnce == Entered {
      act := AbortHolderMoves(c, s);
    } else {
      act := if s.sh.gate.abortOnce == Fresh then GraceEnter else GraceSkip;
    }
  }

  /** No deadlock: until the executor is done, some step of the program itself is enabled. */
  lemma NoDeadlock(c: Config, acts: seq<Act>, ss: seq<State>, k: nat)
    requires IsRun(c, acts, ss) && k < |ss| && !ss[k].pacer.Done?
    ensures exists act :: Enabled(c, ss[k], act) && !FromOutside(act)
  {
    var s := ss[k];
    if s.pacer.DrainWait? {
      RunInv(c, acts, ss, k);
      var act := DrainMoves(c, s);
    } else if s.pacer == GraceDo {
      RunInv(c, acts, ss, k);
      var act := GraceMoves(c, s);
    } else if s.pacer == Running || s.pacer.Stopping? || s.pacer.Draining? || s.pacer.Returned? || s.pacer.TearingDown? {
      var act := ShutdownMoves(c, s);
    } else {
      var act := StartupMoves(c, s);
    }
  }

  // ---------- Abort report ----------

  /**
   The executor reports an abort with a reason, only for a pacer that returned no error;
   if the monitor cancelled the run before the check, such a run is always reported.
   */
  lemma AbortReport(c: Config, acts: seq<Act>, ss: seq<State>, k: nat)
    requires IsRun(c, acts, ss) && k < |acts| && acts[k] == CheckAborted
    ensures var s' := ss[k + 1];
            && (s'.aborted ==> s'.abortReason != "" && s'.abortReason == ss[k].reason)
            && (s'.aborted <==> ss[k].pacer == Returned(NoError) && ss[k].reason != "")
            && (ss[k].monitor == RunCancelled || ss[k].monitor == AbortedClosed ==>
                  (s'.aborted <==> ss[k].pacer == Returned(NoError)))
  {
    RunStep(c, acts, ss, k);
  }

  /** A threshold is breached while the pacer waits for its one worker, and the run is cancelled. */
  lemma BreachWhileAwaiting(c: Config) returns (acts: seq<Act>, ss: seq<State>)
    requires c == Config(Constant, 1, true, 1.0, 0, false, false, 0)
    ensures IsRun(c, acts, ss)
    ensures var s := ss[|acts|];
            && s.pacer == Cancelling(ContextError) && s.monitor == RunCancelled && s.reason == "breach"
            && s.workers == [NewWorker(true)] && s.sh == Shared(NewGate(1, 1.0), true, false, 0, 0, 1)
  {
    acts, ss := AwaitingRun(c);
    ss := ExtendRun(c, acts, ss, Breach("breach"));
    acts := acts + [Breach("breach")];
    ss := ExtendRun(c, acts, ss, MonitorCancels);
    acts := acts + [MonitorCancels];
    ss := ExtendRun(c, acts, ss, QuorumCancelled);
    acts := acts + [QuorumCancelled];
  }

  /** The cancelled worker passes through the gate's bookkeeping and its deferred calls. */
  lemma CancelledWorkerLeaves(c: Config) returns (acts: seq<Act>, ss: seq<State>)
    requires c == Config(Constant, 1, true, 1.0, 0, false, false, 0)
    ensures IsRun(c, acts, ss)
    ensures var s := ss[|acts|];
            && s.pacer == Cancelling(ContextError) && s.monitor == RunCancelled && s.reason == "breach"
            && |s.workers| == 1 && s.workers[0].pc == GaugeDown && s.sh.waitGroup == 1
  {
    acts, ss := BreachWhileAwaiting(c);
    ss := ExtendRun(c, acts, ss, ByWorker(0, Start));
    acts := acts + [ByWorker(0, Start)];
    ss := ExtendRun(c, acts, ss, ByWorker(0, CountReady));
    acts := acts + [ByWorker(0, CountReady)];
    ss := ExtendRun(c, acts, ss, ByWorker(0, SignalReady));
    acts := acts + [ByWorker(0, SignalReady)];
    ss := ExtendRun(c, acts, ss, ByWorker(0, LeaveGate));
    acts := acts + [ByWorker(0, LeaveGate)];
    ss := ExtendRun(c, acts, ss, ByWorker(0, RunDeferred));
    acts := acts + [ByWorker(0, RunDeferred)];
  }

  lemma CancelledPacerReturns(c: Config) returns (acts: seq<Act>, ss: seq<State>)
    requires c == Config(Constant, 1, true, 1.0, 0, false, false, 0)
    ensures IsRun(c, acts, ss)
    ensures ss[|acts|].pacer == Returned(ContextError) && ss[|acts|].monitor == RunCancelled && ss[|acts|].reason == "breach"
  {
    acts, ss := CancelledWorkerLeaves(c);
    ss := ExtendRun(c, acts, ss, ByWorker(0, LowerGauge));
    acts := acts + [ByWorker(0, LowerGauge)];
    ss := ExtendRun(c, acts, ss, ByWorker(0, LeaveGroup));
    acts := acts + [ByWorker(0, LeaveGroup)];
    ss := ExtendRun(c, acts, ss, CancelRun);
    acts := acts + [CancelRun];
    ss := ExtendRun(c, acts, ss, CloseStop);
    acts := acts + [CloseStop];
    ss := ExtendRun(c, acts, ss, Drained);
    acts := acts + [Drained];
  }

  /** A breach during startup cancels the run, the pacer returns the context's error, and no abort is reported. */
  lemma BreachCanGoUnreported() returns (c: Config, acts: seq<Act>, ss: seq<State>)
    ensures IsRun(c, acts, ss) && |acts| > 0 && acts[|acts| - 1] == CheckAborted
    ensures var s := ss[|acts|];
            s.monitor == RunCancelled && s.reason != "" && s.pacer == TearingDown(ContextError) && !s.aborted && s.abortReason == ""
  {
    c := Config(Constant, 1, true, 1.0, 0, false, false, 0);
    acts, ss := CancelledPacerReturns(c);
    ss := ExtendRun(c, acts, ss, CheckAborted);
    acts := acts + [CheckAborted];
  }
}
