/**
 VUs and the scan of the watchdog interleaved at single atomic operations
 (internal/engine/watchdog.go:36-46, 178-209): Begin is four stores, a visit of the scan is
 a load of `active`, a load of `startNano`, a compare-and-swap of `stalled` and the increment.
 */
module WatchdogRaces {
  import W = Watchdog

  datatype VuPC = Idle | StoreStart | ResetStalled | Activate | Body | Gone

  /**
   The last four fields are history: Begin calls; the starts stored, one for each iteration; resets of
   `stalled`; and the iterations that were counted.  The flag belongs to the iteration that reset it last.
   */
  datatype Vu = Vu(pc: VuPC, iteration: int, start: int, active: bool, stalled: bool,
                   begun: nat, starts: seq<int>, resets: nat, caught: seq<nat>)

  /** A swap remembers which iteration's start the scan has found overdue. */
  datatype Scan = Resting | LoadStart(t: nat) | Swap(t: nat, measured: nat) | Increment(t: nat)

  datatype State = State(vus: seq<Vu>, scan: Scan, counter: nat)

  const NEW_VU := Vu(Idle, 0, 0, false, false, 0, [], 0, [])
  const INIT := State([], Resting, 0)

  datatype Act =
    | Register
    | Begin(i: nat, iteration: int)
    | VuStep(i: nat, clock: int)
    | End(i: nat)
    | Unregister(i: nat)
    | Visit(t: nat)
    | ScanStep(now: int, threshold: int)

  predicate Enabled(s: State, act: Act) {
    match act
    case Register => true
    case Begin(i, _) => i < |s.vus| && s.vus[i].pc == Idle
    case VuStep(i, _) => i < |s.vus| && (s.vus[i].pc == StoreStart || s.vus[i].pc == ResetStalled || s.vus[i].pc == Activate)
    case End(i) => i < |s.vus| && s.vus[i].pc == Body
    case Unregister(i) => i < |s.vus| && s.vus[i].pc == Idle
    case Visit(t) => t < |s.vus| && s.scan == Resting
    case ScanStep(_, _) => s.scan != Resting && s.scan.t < |s.vus|
  }

  function BeginStep(v: Vu, clock: int): Vu {
    match v.pc
    case StoreStart => v.(start := clock, pc := ResetStalled, starts := v.starts + [clock])
    case ResetStalled => v.(stalled := false, pc := Activate, resets := v.resets + 1)
    case Activate => v.(active := true, pc := Body)
    case _ => v
  }

  function Next(s: State, act: Act): State
    requires Enabled(s, act)
  {
    match act
    case Register => s.(vus := s.vus + [NEW_VU])
    case Begin(i, iteration) => Put(s, i, s.vus[i].(iteration := iteration, pc := StoreStart, begun := s.vus[i].begun + 1))
    case VuStep(i, clock) => Put(s, i, BeginStep(s.vus[i], clock))
    case End(i) => Put(s, i, s.vus[i].(active := false, pc := Idle))
    case Unregister(i) => Put(s, i, s.vus[i].(active := false, pc := Gone))
    case Visit(t) => s.(scan := if s.vus[t].active then LoadStart(t) else Resting)
    case ScanStep(now, threshold) =>
      var v := s.vus[s.scan.t];
      match s.scan
      case Resting => s
      case LoadStart(t) => s.(scan := if W.Overdue(v.start, now, threshold) then Swap(t, |v.starts|) else Resting)
      case Swap(t, _) =>
        if v.stalled then s.(scan := Resting)
        else Put(s, t, v.(stalled := true, caught := v.caught + [v.resets])).(scan := Increment(t))
      case Increment(t) => s.(scan := Resting, counter := s.counter + 1)
  }

  function Put(s: State, i: nat, v: Vu): State
    requires i < |s.vus|
  {
    s.(vus := s.vus[i := v])
  }

  // ---------- Invariant ----------

  /** Iterations are counted at most once each, in order, and `stalled` says whether the current one is. */
  predicate CaughtInv(v: Vu) {
    && (forall i :: 0 <= i < |v.caught| ==> i + 1 <= v.caught[i] <= v.resets)
    && (forall i, j :: 0 <= i < j < |v.caught| ==> v.caught[i] < v.caught[j])
    && (v.stalled <==> v.caught != [] && v.caught[|v.caught| - 1] == v.resets)
  }

  /** Between two resets there is one start stored; it is the tracker's. */
  predicate StartsInv(v: Vu) {
    && |v.starts| == v.resets + (if v.pc == ResetStalled then 1 else 0)
    && v.begun == |v.starts| + (if v.pc == StoreStart then 1 else 0)
    && (v.starts != [] ==> v.start == v.starts[|v.starts| - 1])
    && (v.pc == Activate || v.pc == Body || v.active ==> v.resets >= 1)
    && (v.active <==> v.pc == Body)
  }

  predicate VuInv(v: Vu) {
    CaughtInv(v) && StartsInv(v)
  }

  predicate ScanInv(s: State) {
    && (s.scan != Resting ==> s.scan.t < |s.vus| && s.vus[s.scan.t].resets >= 1)
    && (s.scan.Swap? ==> 1 <= s.scan.measured <= |s.vus[s.scan.t].starts|)
  }

  function TotalCounted(vus: seq<Vu>): nat {
    if vus == [] then 0 else |vus[0].caught| + TotalCounted(vus[1..])
  }

  function TotalBegun(vus: seq<Vu>): nat {
    if vus == [] then 0 else vus[0].begun + TotalBegun(vus[1..])
  }

  ghost predicate Inv(s: State) {
    && (forall i :: 0 <= i < |s.vus| ==> VuInv(s.vus[i]))
    && ScanInv(s)
    && TotalCounted(s.vus) == s.counter + (if s.scan.Increment? then 1 else 0)
  }

  lemma {:induction false} CountedUpdate(vus: seq<Vu>, i: nat, v: Vu)
    requires i < |vus|
    ensures TotalCounted(vus[i := v]) == TotalCounted(vus) - |vus[i].caught| + |v.caught|
  {
    if i > 0 {
      assert vus[i := v][1..] == vus[1..][i - 1 := v];
      CountedUpdate(vus[1..], i - 1, v);
    } else {
      assert vus[0 := v][1..] == vus[1..];
    }
  }

  lemma {:induction false} CountedAppend(vus: seq<Vu>)
    ensures TotalCounted(vus + [NEW_VU]) == TotalCounted(vus)
  {
    if vus != [] {
      assert (vus + [NEW_VU])[1..] == vus[1..] + [NEW_VU];
      CountedAppend(vus[1..]);
    } else {
      assert (vus + [NEW_VU])[1..] == [];
    }
  }

  lemma BeginStepKeepsVu(v: Vu, clock: int)
    requires VuInv(v) && (v.pc == StoreStart || v.pc == ResetStalled || v.pc == Activate)
    ensures VuInv(BeginStep(v, clock))
  {
  }

  lemma CaughtKeepsVu(v: Vu)
    requires VuInv(v) && !v.stalled && v.resets >= 1
    ensures VuInv(v.(stalled := true, caught := v.caught + [v.resets]))
  {
    CaughtAtMostResets(v);
  }

  lemma CaughtAtMostResets(v: Vu)
    requires CaughtInv(v)
    ensures |v.caught| <= v.resets
    ensures !v.stalled && v.resets >= 1 ==> |v.caught| < v.resets
  {
    assert v.caught != [] ==> |v.caught| <= v.caught[|v.caught| - 1];
  }

  predicate ByVu(act: Act) {
    act.Begin? || act.VuStep? || act.End? || act.Unregister?
  }

  lemma VuActKeepsVu(s: State, act: Act)
    requires ByVu(act) && Enabled(s, act) && VuInv(s.vus[act.i])
    ensures var v := Next(s, act).vus[act.i];
            VuInv(v) && v.caught == s.vus[act.i].caught && v.resets >= s.vus[act.i].resets && |v.starts| >= |s.vus[act.i].starts|
  {
    if act.VuStep? {
      BeginStepKeepsVu(s.vus[act.i], act.clock);
    }
  }

  /** One VU changes, and it has no less history than before. */
  lemma OneVuKeepsInv(s: State, i: nat, v: Vu)
    requires Inv(s) && i < |s.vus| && VuInv(v)
    requires v.caught == s.vus[i].caught && v.resets >= s.vus[i].resets && |v.starts| >= |s.vus[i].starts|
    ensures Inv(Put(s, i, v))
  {
    CountedUpdate(s.vus, i, v);
  }

  lemma VuActKeepsInv(s: State, act: Act)
    requires Inv(s) && ByVu(act) && Enabled(s, act)
    ensures Inv(Next(s, act))
  {
    assert VuInv(s.vus[act.i]);
    VuActKeepsVu(s, act);
    OneVuKeepsInv(s, act.i, Next(s, act).vus[act.i]);
  }

  lemma SwapKeepsInv(s: State, now: int, threshold: int)
    requires Inv(s) && s.scan.Swap? && !s.vus[s.scan.t].stalled
    ensures Inv(Next(s, ScanStep(now, threshold)))
  {
    var t := s.scan.t;
    assert VuInv(s.vus[t]);
    CaughtKeepsVu(s.vus[t]);
    CountedUpdate(s.vus, t, Next(s, ScanStep(now, threshold)).vus[t]);
  }

  lemma StepKeepsInv(s: State, act: Act)
    requires Inv(s) && Enabled(s, act)
    ensures Inv(Next(s, act))
  {
    match act
    case Register => CountedAppend(s.vus);
    case Visit(t) => assert VuInv(s.vus[t]);
    case ScanStep(now, threshold) =>
      assert VuInv(s.vus[s.scan.t]);
      if s.scan.Swap? && !s.vus[s.scan.t].stalled {
        SwapKeepsInv(s, now, threshold);
      }
    case _ => VuActKeepsInv(s, act);
  }

  lemma {:induction false} TotalsOrdered(vus: seq<Vu>)
    requires forall i :: 0 <= i < |vus| ==> VuInv(vus[i])
    ensures TotalCounted(vus) <= TotalBegun(vus)
  {
    if vus != [] {
      assert VuInv(vus[0]);
      CaughtAtMostResets(vus[0]);
      TotalsOrdered(vus[1..]);
    }
  }

  // ---------- Runs ----------

  ghost predicate StepAt(acts: seq<Act>, ss: seq<State>, k: nat)
    requires |ss| == |acts| + 1 && k < |acts|
  {
    Enabled(ss[k], acts[k]) && ss[k + 1] == Next(ss[k], acts[k])
  }

  ghost predicate IsRun(acts: seq<Act>, ss: seq<State>) {
    |ss| == |acts| + 1 && ss[0] == INIT && forall k: nat :: k < |acts| ==> StepAt(acts, ss, k)
  }

  lemma {:induction false} RunInv(acts: seq<Act>, ss: seq<State>, k: nat)
    requires IsRun(acts, ss) && k < |ss|
    ensures Inv(ss[k])
  {
    if k > 0 {
      RunInv(acts, ss, k - 1);
      assert StepAt(acts, ss, k - 1);
      StepKeepsInv(ss[k - 1], acts[k - 1]);
    }
  }

  /** In every interleaving a tracker raises at most one stall per iteration begun, and the metric is no larger than all of them. */
  lemma StallsAtMostIterations(acts: seq<Act>, ss: seq<State>, k: nat)
    requires IsRun(acts, ss) && k < |ss|
    ensures forall i :: 0 <= i < |ss[k].vus| ==> |ss[k].vus[i].caught| <= ss[k].vus[i].begun
    ensures ss[k].counter <= TotalBegun(ss[k].vus)
  {
    RunInv(acts, ss, k);
    forall i | 0 <= i < |ss[k].vus| ensures |ss[k].vus[i].caught| <= ss[k].vus[i].begun {
      assert VuInv(ss[k].vus[i]);
      CaughtAtMostResets(ss[k].vus[i]);
    }
    TotalsOrdered(ss[k].vus);
  }

  // ---------- Which iteration a swap counts ----------

  predicate IsReset(s: State, act: Act, t: nat) {
    act.VuStep? && act.i == t && t < |s.vus| && s.vus[t].pc == ResetStalled
  }

  /** How often VU t resets its flag in the steps j to k. */
  function ResetsBetween(acts: seq<Act>, ss: seq<State>, t: nat, j: nat, k: nat): nat
    requires j <= k <= |acts| <= |ss|
  {
    if j == k then 0 else ResetsBetween(acts, ss, t, j, k - 1) + (if IsReset(ss[k - 1], acts[k - 1], t) then 1 else 0)
  }

  lemma ResetStep(s: State, act: Act, t: nat)
    requires Enabled(s, act) && t < |s.vus|
    ensures t < |Next(s, act).vus|
    ensures Next(s, act).vus[t].resets == s.vus[t].resets + (if IsReset(s, act, t) then 1 else 0)
  {
  }

  lemma {:induction false} ResetsCount(acts: seq<Act>, ss: seq<State>, t: nat, j: nat, k: nat)
    requires IsRun(acts, ss) && j <= k < |ss| && t < |ss[j].vus|
    ensures t < |ss[k].vus| && ss[k].vus[t].resets == ss[j].vus[t].resets + ResetsBetween(acts, ss, t, j, k)
  {
    if j < k {
      ResetsCount(acts, ss, t, j, k - 1);
      assert StepAt(acts, ss, k - 1);
      ResetStep(ss[k - 1], acts[k - 1], t);
    }
  }

  /** While the scan has a swap ahead of it, it remembers the same measurement. */
  lemma {:induction false} MeasurementStays(acts: seq<Act>, ss: seq<State>, j: nat, k: nat)
    requires IsRun(acts, ss) && j < k < |ss| && (forall i :: j < i <= k ==> ss[i].scan.Swap?)
    ensures ss[k].scan == ss[j + 1].scan
  {
    if j + 1 < k {
      MeasurementStays(acts, ss, j, k - 1);
      assert StepAt(acts, ss, k - 1);
    }
  }

  /**
   The steps j and k are the load of `startNano` and the successful swap of one visit to tracker t.
   The load finds iteration |starts| overdue; the swap counts iteration `resets`.
   */
  ghost predicate CountingVisit(acts: seq<Act>, ss: seq<State>, t: nat, j: nat, k: nat)
    requires IsRun(acts, ss)
  {
    && j < k < |acts| && acts[j].ScanStep? && acts[k].ScanStep?
    && ss[j].scan == LoadStart(t) && t < |ss[j].vus| && t < |ss[k].vus|
    && (forall i :: j < i <= k ==> ss[i].scan.Swap?)
    && !ss[k].vus[t].stalled
  }

  /**
   In every run a successful swap counts the iteration whose start was loaded if and only if the
   VU has not reset its flag in between.  If the load fell between the store of a start and the
   reset that follows, that start is the next iteration's, and it is counted if and only if
   exactly that one reset has happened.
   */
  lemma SwapCountsMeasuredIff(acts: seq<Act>, ss: seq<State>, t: nat, j: nat, k: nat)
    requires IsRun(acts, ss) && CountingVisit(acts, ss, t, j, k)
    ensures var load, swap := ss[j].vus[t], ss[k].vus[t];
      && t < |ss[k + 1].vus| && ss[k + 1].vus[t].caught == swap.caught + [swap.resets]
      && 1 <= |load.starts| && load.starts[|load.starts| - 1] != 0
      && acts[j].now >= load.starts[|load.starts| - 1] + acts[j].threshold
      && (swap.resets == |load.starts| <==>
            ResetsBetween(acts, ss, t, j, k) == if load.pc == ResetStalled then 1 else 0)
  {
    RunInv(acts, ss, j);
    assert VuInv(ss[j].vus[t]);
    assert StepAt(acts, ss, j) && StepAt(acts, ss, k);
    assert ss[j + 1].scan.Swap?;
    MeasurementStays(acts, ss, j, k);
    ResetsCount(acts, ss, t, j, k);
  }

  lemma ExtendRun(acts: seq<Act>, ss: seq<State>, act: Act) returns (acts': seq<Act>, ss': seq<State>)
    requires IsRun(acts, ss) && Enabled(ss[|acts|], act)
    ensures IsRun(acts', ss') && acts' == acts + [act] && ss' == ss + [Next(ss[|acts|], act)]
  {
    acts', ss' := acts + [act], ss + [Next(ss[|acts|], act)];
    forall k: nat | k < |acts'| ensures StepAt(acts', ss', k) {
      assert k < |acts| ==> StepAt(acts, ss, k);
    }
  }

  /** No scan has loaded a start but in the first iteration of the only VU. */
  predicate OnlyFirstMeasured(ss: seq<State>) {
    forall k :: 0 <= k < |ss| && ss[k].scan.LoadStart? ==> |ss[k].vus| == 1 && ss[k].vus[0].begun == 1
  }

  /** The VU's first iteration, with the scan's load of `active` in it. */
  lemma FirstIterationRun() returns (acts: seq<Act>, ss: seq<State>)
    ensures IsRun(acts, ss) && OnlyFirstMeasured(ss)
    ensures ss[|acts|] == State([Vu(Body, 1, 10, true, false, 1, [10], 1, [])], LoadStart(0), 0)
  {
    acts, ss := [], [INIT];
    acts, ss := ExtendRun(acts, ss, Register);
    acts, ss := ExtendRun(acts, ss, Begin(0, 1));
    acts, ss := ExtendRun(acts, ss, VuStep(0, 10));
    acts, ss := ExtendRun(acts, ss, VuStep(0, 10));
    acts, ss := ExtendRun(acts, ss, VuStep(0, 10));
    acts, ss := ExtendRun(acts, ss, Visit(0));
    assert [] + [10] == [10];
    assert ss[|acts|].vus == [Vu(Body, 1, 10, true, false, 1, [10], 1, [])];
  }

  /** The scan finds it overdue, but before the swap the VU is in its second iteration. */
  lemma SecondIterationRun() returns (acts: seq<Act>, ss: seq<State>)
    ensures IsRun(acts, ss) && OnlyFirstMeasured(ss)
    ensures ss[|acts|] == State([Vu(Body, 2, 100, true, false, 2, [10, 100], 2, [])], Swap(0, 1), 0)
  {
    acts, ss := FirstIterationRun();
    acts, ss := ExtendRun(acts, ss, ScanStep(90, 50));
    acts, ss := ExtendRun(acts, ss, End(0));
    acts, ss := ExtendRun(acts, ss, Begin(0, 2));
    acts, ss := ExtendRun(acts, ss, VuStep(0, 100));
    acts, ss := ExtendRun(acts, ss, VuStep(0, 100));
    acts, ss := ExtendRun(acts, ss, VuStep(0, 100));
    assert [10] + [100] == [10, 100];
    assert ss[|acts|].vus == [Vu(Body, 2, 100, true, false, 2, [10, 100], 2, [])];
  }

  /**
   Without that condition "counted only if seen overdue" is lost: a scan that loaded the start of
   one iteration can mark the next one, which no scan has measured.
   */
  lemma StaleScanMarksNextIteration() returns (acts: seq<Act>, ss: seq<State>)
    ensures IsRun(acts, ss) && |acts| > 0 && OnlyFirstMeasured(ss) && |ss[|acts|].vus| == 1
    ensures var v := ss[|acts|].vus[0];
            v.pc == Body && v.begun == 2 && v.stalled && v.caught == [2] && v.starts == [10, 100]
  {
    acts, ss := SecondIterationRun();
    acts, ss := ExtendRun(acts, ss, ScanStep(90, 50));
    assert [] + [2 as nat] == [2];
  }
}
