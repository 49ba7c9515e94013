/**
 Between the single operations of `WatchdogRaces` and the atomic ones of `Watchdog`: in a run in which
 no Begin or End of a VU overlaps a measurement of its tracker, the tracker behaves like the atomic one.
 */
module WatchdogRefinement {
  import W = Watchdog
  import opened WatchdogRaces

  /** The scan is between its load of `active` and its swap on tracker t. */
  predicate Measuring(s: State, t: nat) {
    (s.scan.LoadStart? || s.scan.Swap?) && s.scan.t == t
  }

  predicate MovesVu(act: Act, t: nat) {
    (act.Begin? || act.VuStep? || act.End? || act.Unregister?) && act.i == t
  }

  ghost predicate NoOverlap(acts: seq<Act>, ss: seq<State>, t: nat, k: nat)
    requires k <= |acts| <= |ss|
  {
    forall i :: 0 <= i < k && Measuring(ss[i], t) ==> !MovesVu(acts[i], t)
  }

  /** The atomic operation a step completes: Begin with its last store, a scan with its load of the start. */
  function Logged(s: State, act: Act, t: nat): seq<W.Event> {
    if t >= |s.vus| then []
    else match act
      case VuStep(i, _) => if i == t && s.vus[t].pc == Activate then [W.Begin(s.vus[t].start)] else []
      case End(i) => if i == t then [W.End] else []
      case Unregister(i) => if i == t then [W.End] else []
      case ScanStep(now, threshold) => if s.scan == LoadStart(t) then [W.Scan(now, threshold)] else []
      case _ => []
  }

  function LogOf(acts: seq<Act>, ss: seq<State>, t: nat, k: nat): seq<W.Event>
    requires k <= |acts| <= |ss|
  {
    if k == 0 then [] else LogOf(acts, ss, t, k - 1) + Logged(ss[k - 1], acts[k - 1], t)
  }

  predicate SwapAhead(s: State, t: nat) {
    s.scan.Swap? && s.scan.t == t
  }

  /** The atomic tracker is ahead of the real one by at most the swap. */
  predicate Abstracts(s: State, t: nat, a: W.Tracker) {
    if t >= |s.vus| then a == W.NEW_TRACKER
    else
      var v := s.vus[t];
      && a.active == v.active
      && (v.active ==> v.pc == Body && a.start == v.start && a.stalled == (v.stalled || SwapAhead(s, t)))
      && (v.pc == Body ==> v.active)
      && (v.pc == Activate ==> !v.stalled)
      && (Measuring(s, t) ==> v.active)
      && a.counted == |v.caught| + (if SwapAhead(s, t) && !v.stalled then 1 else 0)
  }

  lemma StepAbstracts(s: State, act: Act, t: nat, a: W.Tracker)
    requires Enabled(s, act) && Abstracts(s, t, a) && ScanInv(s)
    requires Measuring(s, t) ==> !MovesVu(act, t)
    ensures var log := Logged(s, act, t);
            |log| <= 1 && Abstracts(Next(s, act), t, if log == [] then a else W.Apply(a, log[0]))
  {
  }

  lemma RunAppend(log: seq<W.Event>, more: seq<W.Event>)
    requires |more| <= 1
    ensures W.Run(log + more) == if more == [] then W.Run(log) else W.Apply(W.Run(log), more[0])
  {
    if more == [] {
      assert log + more == log;
    } else {
      assert (log + more)[..|log|] == log;
    }
  }

  lemma {:induction false} RunAbstracts(acts: seq<Act>, ss: seq<State>, t: nat, k: nat)
    requires IsRun(acts, ss) && k <= |acts| && NoOverlap(acts, ss, t, k)
    ensures Abstracts(ss[k], t, W.Run(LogOf(acts, ss, t, k)))
  {
    if k > 0 {
      RunAbstracts(acts, ss, t, k - 1);
      RunInv(acts, ss, k - 1);
      assert StepAt(acts, ss, k - 1);
      var log := LogOf(acts, ss, t, k - 1);
      StepAbstracts(ss[k - 1], acts[k - 1], t, W.Run(log));
      RunAppend(log, Logged(ss[k - 1], acts[k - 1], t));
    }
  }

  /**
   In a run in which no Begin or End overlaps a measurement, a tracker's count is the number of
   its iterations that some scan has seen past the threshold.
   */
  lemma CountedIffSeenWithoutOverlap(acts: seq<Act>, ss: seq<State>, t: nat, k: nat)
    requires IsRun(acts, ss) && k <= |acts| && NoOverlap(acts, ss, t, k)
    requires t < |ss[k].vus| && !SwapAhead(ss[k], t)
    ensures var log := LogOf(acts, ss, t, k); |ss[k].vus[t].caught| == W.SeenCount(log, |log|)
  {
    RunAbstracts(acts, ss, t, k);
    W.CountedOnceIfSeen(LogOf(acts, ss, t, k));
  }
}
