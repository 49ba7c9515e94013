/**
 The ramping_vus pacer: a stack of workers driven to a rounded linear interpolation at
 arbitrary tick times.  `Pool` is the abstract state, `RampingAllocator` the code's slice of
 worker objects with their stop channels.
 */
module Ramping {
  import opened Arithmetic

  datatype Stage = Stage(target: int, duration: int)

  /** How a stage's select loop is driven: the elapsed time at each tick, and what ends the stage if no tick does. */
  datatype Schedule = Schedule(ticks: seq<int>, cancelled: bool)

  /** `live` are the ids on the stack, `issued` the last id given out, `closed` the ids whose stop channel was closed, in order. */
  datatype Pool = Pool(live: seq<int>, issued: nat, closed: seq<int>)

  const EMPTY: Pool := Pool([], 0, [])

  function NonNegative(x: int): nat {
    if x < 0 then 0 else x
  }

  function NewIds(issued: nat, n: nat): (ids: seq<int>)
    ensures |ids| == n && forall i :: 0 <= i < n ==> ids[i] == issued + 1 + i
  {
    seq(n, i => issued + 1 + i)
  }

  /** The elements from the last down to position `from`. */
  function TopDown(ids: seq<int>, from: nat): (r: seq<int>)
    ensures |r| == if from >= |ids| then 0 else |ids| - from
    decreases |ids| - from
  {
    if from >= |ids| then [] else TopDown(ids, from + 1) + [ids[from]]
  }

  /** adjustWorkers: spawn on top of the stack, or stop from the top down. */
  function Adjusted(p: Pool, desired: int): Pool {
    var want := NonNegative(desired);
    if want >= |p.live|
    then Pool(p.live + NewIds(p.issued, want - |p.live|), p.issued + (want - |p.live|), p.closed)
    else Pool(p.live[..want], p.issued, p.closed + TopDown(p.live, want))
  }

  /** The final stop closes whatever is left, bottom up. */
  function StopAll(p: Pool): Pool {
    Pool([], p.issued, p.closed + p.live)
  }

  /** math.Round of num / den: half away from zero. */
  function Round(num: int, den: int): int
    requires den > 0
  {
    if num >= 0 then (2 * num + den) / (2 * den) else -((den - 2 * num) / (2 * den))
  }

  /** The interpolated worker count at `elapsed`, with exact arithmetic. */
  function Desired(startVU: int, stage: Stage, elapsed: int): int
    requires 0 <= elapsed < stage.duration
  {
    Round(startVU * stage.duration + elapsed * (stage.target - startVU), stage.duration)
  }

  predicate Timely(ticks: seq<int>) {
    forall i :: 0 <= i < |ticks| ==> ticks[i] >= 0
  }

  /** The ticks of one stage; the flag says that a tick already found the stage over. */
  function RunTicks(p: Pool, startVU: int, stage: Stage, ticks: seq<int>): (Pool, bool)
    requires Timely(ticks)
    decreases |ticks|
  {
    if ticks == [] then (p, false)
    else if ticks[0] >= stage.duration then (Adjusted(p, stage.target), true)
    else RunTicks(Adjusted(p, Desired(startVU, stage, ticks[0])), startVU, stage, ticks[1..])
  }

  /** One stage; the flag says that it was cut short by cancellation. */
  function RunStage(p: Pool, startVU: int, stage: Stage, sched: Schedule): (Pool, bool)
    requires Timely(sched.ticks)
  {
    var (p', over) := RunTicks(p, startVU, stage, sched.ticks);
    if over then (p', false)
    else if sched.cancelled then (p', true)
    else (Adjusted(p', stage.target), false)
  }

  function RunStages(p: Pool, startVU: int, stages: seq<Stage>, plan: seq<Schedule>): Pool
    requires |plan| == |stages| && forall i :: 0 <= i < |plan| ==> Timely(plan[i].ticks)
    decreases |stages|
  {
    if stages == [] then p
    else
      var (p', cancelled) := RunStage(p, startVU, stages[0], plan[0]);
      if cancelled then p' else RunStages(p', stages[0].target, stages[1..], plan[1..])
  }

  /** With a gate, the first stage's target is spawned before the stages begin. */
  function Started(stages: seq<Stage>, gated: bool): Pool {
    if gated && stages != [] && stages[0].target > 0 then Adjusted(EMPTY, stages[0].target) else EMPTY
  }

  function RunPacer(stages: seq<Stage>, plan: seq<Schedule>, gated: bool, quorumFails: bool): Pool
    requires |plan| == |stages| && forall i :: 0 <= i < |plan| ==> Timely(plan[i].ticks)
  {
    var begun := Started(stages, gated);
    if gated && stages != [] && stages[0].target > 0 && quorumFails then StopAll(begun)
    else StopAll(RunStages(begun, 0, stages, plan))
  }

  lemma OneMore(closed: seq<int>, ids: seq<int>, i: nat)
    requires i < |ids|
    ensures closed + TopDown(ids, i) == closed + TopDown(ids, i + 1) + [ids[i]]
  {}

  // ---------- The allocator ----------

  class RampingWorker {
    const id: int
    var stopClosed: bool

    constructor (id: int)
      ensures this.id == id && !stopClosed
    {
      this.id := id;
      stopClosed := false;
    }

    /** Closing a closed channel would panic. */
    method CloseStop()
      requires !stopClosed
      modifies this
      ensures stopClosed
    {
      stopClosed := true;
    }
  }

  class RampingAllocator {
    var workers: seq<RampingWorker>
    var vuidSeq: nat
    /** All workers ever spawned, the ids on the stack, and the ids whose stop channel was closed, in order. */
    ghost var spawned: seq<RampingWorker>
    ghost var live: seq<int>
    ghost var closed: seq<int>

    ghost function View(): Pool
      reads this
    {
      Pool(live, vuidSeq, closed)
    }

    /** Live workers are exactly the spawned ones with an open stop channel. */
    ghost predicate Valid()
      reads this, spawned, workers
    {
      Stack() && Issued() && OthersStopped() && forall i :: 0 <= i < |workers| ==> !workers[i].stopClosed
    }

    /** A spawned worker not on the stack has been stopped. */
    ghost predicate OthersStopped()
      reads this, spawned
    {
      forall i :: 0 <= i < |spawned| && !spawned[i].stopClosed ==> i + 1 in live
    }

    /** Ids are handed out in order. */
    ghost predicate Issued()
      reads this
    {
      && |spawned| == vuidSeq
      && (forall i :: 0 <= i < |spawned| ==> spawned[i].id == i + 1)
      && (forall i :: 0 <= i < |workers| ==> 1 <= workers[i].id <= vuidSeq && spawned[workers[i].id - 1] == workers[i])
    }

    /** The slice is in ascending order of the ids. */
    ghost predicate Stack()
      reads this
    {
      && |live| == |workers|
      && (forall i :: 0 <= i < |workers| ==> live[i] == workers[i].id)
      && (forall i, j :: 0 <= i < j < |live| ==> live[i] < live[j])
    }

    /** Workers are only added, and those added are new. */
    twostate predicate OnlySpawns()
      reads this
    {
      && |old(spawned)| <= |spawned|
      && (forall i :: 0 <= i < |old(spawned)| ==> spawned[i] == old(spawned)[i])
      && (forall i :: |old(spawned)| <= i < |spawned| ==> fresh(spawned[i]))
    }

    constructor ()
      ensures Valid() && View() == EMPTY && fresh(this) && spawned == []
    {
      workers, vuidSeq := [], 0;
      spawned, live, closed := [], [], [];
    }

    method AdjustWorkers(desiredVUs: int)
      requires Valid()
      modifies this, workers
      ensures Valid() && OnlySpawns() && View() == Adjusted(old(View()), desiredVUs)
    {
      var desired: int := desiredVUs;
      if desired < 0 {
        desired := 0;
      }
      var currentCount := |workers|;
      if desired > currentCount {
        Grow(desired - currentCount);
      } else if desired < currentCount {
        Shrink(desired);
      } else {
        assert live + NewIds(vuidSeq, 0) == live;
      }
    }

    lemma LinkedAfterSpawn(before: seq<RampingWorker>, ws: seq<RampingWorker>, ids: seq<int>, w: RampingWorker)
      requires spawned == before + [w] && workers == ws + [w] && live == ids + [w.id] && w.id == |before| + 1 == vuidSeq
      requires |ids| == |ws| && forall i :: 0 <= i < |ws| ==> ids[i] == ws[i].id
      requires forall i, j :: 0 <= i < j < |ids| ==> ids[i] < ids[j]
      requires forall i :: 0 <= i < |before| ==> before[i].id == i + 1
      requires forall i :: 0 <= i < |ws| ==> 1 <= ws[i].id <= |before| && before[ws[i].id - 1] == ws[i]
      ensures Stack() && Issued()
    {
    }

    lemma StoppedAfterSpawn(before: seq<RampingWorker>, ids: seq<int>)
      requires |spawned| == |before| + 1 && spawned[..|before|] == before && live == ids + [|before| + 1]
      requires forall i :: 0 <= i < |before| && !before[i].stopClosed ==> i + 1 in ids
      ensures OthersStopped()
    {
      forall i | 0 <= i < |spawned| && !spawned[i].stopClosed ensures i + 1 in live {
        if i < |before| {
          assert before[i] == spawned[i];
        } else {
          assert live[|ids|] == i + 1;
        }
      }
    }

    lemma StoppedAfterCut(ids: seq<int>, desired: nat)
      requires desired <= |ids| && live == ids[..desired]
      requires forall i :: 0 <= i < |spawned| && !spawned[i].stopClosed ==> i + 1 in ids
      requires forall k :: desired <= k < |ids| ==> 1 <= ids[k] <= |spawned| && spawned[ids[k] - 1].stopClosed
      ensures OthersStopped()
    {
      forall i | 0 <= i < |spawned| && !spawned[i].stopClosed ensures i + 1 in live {
        var k :| 0 <= k < |ids| && ids[k] == i + 1;
        assert live[k] == i + 1;
      }
    }

    method Spawn()
      requires Valid()
      modifies this`workers, this`vuidSeq, this`spawned, this`live
      ensures Valid() && OnlySpawns() && vuidSeq == old(vuidSeq) + 1 && live == old(live) + [vuidSeq]
    {
      vuidSeq := vuidSeq + 1;
      var w := new RampingWorker(vuidSeq);
      workers := workers + [w];
      spawned := spawned + [w];
      live := live + [vuidSeq];
      LinkedAfterSpawn(old(spawned), old(workers), old(live), w);
      StoppedAfterSpawn(old(spawned), old(live));
    }

    method Grow(toSpawn: nat)
      requires Valid()
      modifies this`workers, this`vuidSeq, this`spawned, this`live
      ensures Valid() && OnlySpawns() && vuidSeq == old(vuidSeq) + toSpawn
      ensures live == old(live) + NewIds(old(vuidSeq), toSpawn)
    {
      var i := 0;
      assert live == old(live) + NewIds(old(vuidSeq), 0);
      while i < toSpawn
        invariant 0 <= i <= toSpawn && Valid() && OnlySpawns()
        invariant vuidSeq == old(vuidSeq) + i
        invariant live == old(live) + NewIds(old(vuidSeq), i)
      {
        ghost var before := live;
        Spawn();
        assert NewIds(old(vuidSeq), i + 1) == NewIds(old(vuidSeq), i) + [vuidSeq];
        assert before + [vuidSeq] == old(live) + (NewIds(old(vuidSeq), i) + [vuidSeq]);
        i := i + 1;
      }
    }

    method CloseOne(i: nat)
      requires Stack() && OthersStopped() && i < |workers| && !workers[i].stopClosed
      modifies this`closed, workers[i]
      ensures OthersStopped() && workers[i].stopClosed && closed == old(closed) + [live[i]]
      ensures forall k :: 0 <= k < |workers| && k != i ==> workers[k].stopClosed == old(workers[k].stopClosed)
    {
      workers[i].CloseStop();
      closed := closed + [workers[i].id];
    }

    /** The stop channels are closed from the top of the stack down ... */
    method CloseAbove(desired: nat)
      requires Stack() && OthersStopped() && desired < |workers| && forall k :: 0 <= k < |workers| ==> !workers[k].stopClosed
      modifies this`closed, workers
      ensures OthersStopped()
      ensures forall k :: 0 <= k < |workers| ==> (workers[k].stopClosed <==> k >= desired)
      ensures closed == old(closed) + TopDown(live, desired)
    {
      var i := |workers| - 1;
      while i >= desired
        invariant desired - 1 <= i < |workers| && Stack() && OthersStopped()
        invariant forall k :: 0 <= k < |workers| ==> (workers[k].stopClosed <==> k > i)
        invariant closed == old(closed) + TopDown(live, i + 1)
      {
        OneMore(old(closed), live, i);
        CloseOne(i);
        i := i - 1;
      }
    }

    /** ... then the slice is cut. */
    method Cut(desired: nat)
      requires Stack() && Issued() && OthersStopped() && desired < |workers|
      requires forall k :: 0 <= k < |workers| ==> (workers[k].stopClosed <==> k >= desired)
      modifies this`workers, this`live
      ensures Valid() && live == old(live)[..desired]
    {
      ghost var before := live;
      workers := workers[..desired];
      live := live[..desired];
      StoppedAfterCut(before, desired);
    }

    method Shrink(desired: nat)
      requires Valid() && desired < |workers|
      modifies this`workers, this`live, this`closed, workers
      ensures Valid() && spawned == old(spawned)
      ensures View() == Pool(old(live)[..desired], vuidSeq, old(closed) + TopDown(old(live), desired))
    {
      CloseAbove(desired);
      assert live == old(live) && spawned == old(spawned) && Stack() && Issued();
      Cut(desired);
      assert closed == old(closed) + TopDown(old(live), desired);
    }

    lemma AllStopped()
      requires Stack() && Issued() && OthersStopped() && forall k :: 0 <= k < |workers| ==> workers[k].stopClosed
      ensures forall j :: 0 <= j < |spawned| ==> spawned[j].stopClosed
    {
      forall j | 0 <= j < |spawned| ensures spawned[j].stopClosed {
        if j + 1 in live {
          var k :| 0 <= k < |live| && live[k] == j + 1;
          assert workers[k] == spawned[j];
        }
      }
    }

    /** The final loop over the remaining workers. */
    method StopRemaining()
      requires Valid()
      modifies this`workers, this`live, this`closed, workers
      ensures Valid() && View() == StopAll(old(View()))
    {
      var i := 0;
      while i < |workers|
        invariant 0 <= i <= |workers| && workers == old(workers) && live == old(live)
        invariant Stack() && OthersStopped()
        invariant forall k :: 0 <= k < |workers| ==> (workers[k].stopClosed <==> k < i)
        invariant closed == old(closed) + live[..i]
      {
        CloseOne(i);
        assert live[..i + 1] == live[..i] + [live[i]];
        i := i + 1;
      }
      assert live[..i] == live;
      AllStopped();
      workers, live := [], [];
    }
  }

  /** RunRampingVUs up to the drain: the stages as the clock and the context drive them, then the final stop. */
  method RunRampingVUs(stages: seq<Stage>, plan: seq<Schedule>, gated: bool, quorumFails: bool) returns (a: RampingAllocator)
    requires |plan| == |stages| && forall i :: 0 <= i < |plan| ==> Timely(plan[i].ticks)
    ensures a.Valid() && a.View() == RunPacer(stages, plan, gated, quorumFails)
  {
    a := new RampingAllocator();
    if gated && stages != [] && stages[0].target > 0 {
      a.AdjustWorkers(stages[0].target);
      if quorumFails {
        a.StopRemaining();
        return;
      }
    }
    DriveStages(a, stages, plan);
    a.StopRemaining();
  }

  lemma StagesUnfold(p: Pool, startVU: int, stages: seq<Stage>, plan: seq<Schedule>, i: nat)
    requires |plan| == |stages| && i < |stages| && forall i :: 0 <= i < |plan| ==> Timely(plan[i].ticks)
    ensures var (p', cancelled) := RunStage(p, startVU, stages[i], plan[i]);
            RunStages(p, startVU, stages[i..], plan[i..]) ==
            if cancelled then p' else RunStages(p', stages[i].target, stages[i + 1..], plan[i + 1..])
  {
    assert stages[i..][0] == stages[i] && plan[i..][0] == plan[i];
    assert stages[i..][1..] == stages[i + 1..] && plan[i..][1..] == plan[i + 1..];
  }

  /** The loop over the stages. */
  method DriveStages(a: RampingAllocator, stages: seq<Stage>, plan: seq<Schedule>)
    requires a.Valid()
    requires |plan| == |stages| && forall i :: 0 <= i < |plan| ==> Timely(plan[i].ticks)
    modifies a, a.spawned
    ensures a.Valid() && a.View() == RunStages(old(a.View()), 0, stages, plan)
    ensures a.OnlySpawns()
  {
    var startVU := 0;
    var i := 0;
    ghost var p := a.View();
    ghost var end := RunStages(p, 0, stages, plan);
    assert stages[0..] == stages && plan[0..] == plan;
    while i < |stages|
      invariant 0 <= i <= |stages| && a.Valid()
      invariant a.OnlySpawns()
      invariant p == a.View() && RunStages(p, startVU, stages[i..], plan[i..]) == end
    {
      StagesUnfold(p, startVU, stages, plan, i);
      var cancelled := DriveStage(a, startVU, stages[i], plan[i]);
      p := a.View();
      if cancelled {
        return;
      }
      startVU := stages[i].target;
      i := i + 1;
    }
  }

  lemma TicksUnfold(p: Pool, startVU: int, stage: Stage, ticks: seq<int>, k: nat)
    requires Timely(ticks) && k < |ticks|
    ensures RunTicks(p, startVU, stage, ticks[k..]) ==
            if ticks[k] >= stage.duration then (Adjusted(p, stage.target), true)
            else RunTicks(Adjusted(p, Desired(startVU, stage, ticks[k])), startVU, stage, ticks[k + 1..])
  {
    assert ticks[k..][0] == ticks[k] && ticks[k..][1..] == ticks[k + 1..];
  }

  method DriveStage(a: RampingAllocator, startVU: int, stage: Stage, sched: Schedule) returns (cancelled: bool)
    requires a.Valid() && Timely(sched.ticks)
    modifies a, a.spawned
    ensures a.Valid() && (a.View(), cancelled) == RunStage(old(a.View()), startVU, stage, sched)
    ensures a.OnlySpawns()
  {
    var over := DriveTicks(a, startVU, stage, sched.ticks);
    if over {
      return false;
    }
    if sched.cancelled {
      return true;
    }
    a.AdjustWorkers(stage.target);
    return false;
  }

  /** The ticks of the stage's select loop; a tick may find the stage over. */
  method DriveTicks(a: RampingAllocator, startVU: int, stage: Stage, ticks: seq<int>) returns (over: bool)
    requires a.Valid() && Timely(ticks)
    modifies a, a.spawned
    ensures a.Valid() && (a.View(), over) == RunTicks(old(a.View()), startVU, stage, ticks)
    ensures a.OnlySpawns()
  {
    var k := 0;
    ghost var p := a.View();
    ghost var end := RunTicks(p, startVU, stage, ticks);
    assert ticks[0..] == ticks;
    while k < |ticks|
      invariant 0 <= k <= |ticks| && a.Valid()
      invariant a.OnlySpawns()
      invariant p == a.View() && RunTicks(p, startVU, stage, ticks[k..]) == end
    {
      var elapsed := ticks[k];
      TicksUnfold(p, startVU, stage, ticks, k);
      if elapsed >= stage.duration {
        a.AdjustWorkers(stage.target);
        return true;
      }
      a.AdjustWorkers(Desired(startVU, stage, elapsed));
      p := a.View();
      k := k + 1;
    }
    return false;
  }

  // ---------- Every stop channel is closed once ----------

  /** The ids 1 to n, each once. */
  function Upto(n: nat): multiset<int> {
    multiset(NewIds(0, n))
  }

  /** Ids ascend along the stack. */
  ghost predicate Ordered(p: Pool) {
    && (forall i, j :: 0 <= i < j < |p.live| ==> p.live[i] < p.live[j])
    && (forall i :: 0 <= i < |p.live| ==> 1 <= p.live[i] <= p.issued)
  }

  /** Ids ascend along the stack, and each id issued so far is exactly once either live or closed. */
  ghost predicate Partitioned(p: Pool) {
    Ordered(p) && multiset(p.live) + multiset(p.closed) == Upto(p.issued)
  }

  lemma {:induction false} TopDownElements(ids: seq<int>, from: nat)
    requires from <= |ids|
    ensures multiset(TopDown(ids, from)) == multiset(ids[from..])
    decreases |ids| - from
  {
    if from < |ids| {
      TopDownElements(ids, from + 1);
      assert ids[from..] == [ids[from]] + ids[from + 1..];
    }
  }

  lemma Exchange(a: multiset<int>, b: multiset<int>, c: multiset<int>)
    ensures (a + b) + c == (a + c) + b
  {}

  lemma UptoGrows(issued: nat, n: nat)
    ensures Upto(issued + n) == Upto(issued) + multiset(NewIds(issued, n))
  {
    assert NewIds(0, issued + n) == NewIds(0, issued) + NewIds(issued, n);
  }

  lemma GrowStaysOrdered(p: Pool, n: nat)
    requires Ordered(p)
    ensures Ordered(Pool(p.live + NewIds(p.issued, n), p.issued + n, p.closed))
  {
    var live := p.live + NewIds(p.issued, n);
    assert forall i :: |p.live| <= i < |live| ==> live[i] == p.issued + 1 + (i - |p.live|);
  }

  lemma GrowStaysPartitioned(p: Pool, n: nat)
    requires Partitioned(p)
    ensures Partitioned(Pool(p.live + NewIds(p.issued, n), p.issued + n, p.closed))
  {
    GrowStaysOrdered(p, n);
    UptoGrows(p.issued, n);
    Exchange(multiset(p.live), multiset(NewIds(p.issued, n)), multiset(p.closed));
  }

  lemma ShrinkStaysPartitioned(p: Pool, want: nat)
    requires Partitioned(p) && want <= |p.live|
    ensures Partitioned(Pool(p.live[..want], p.issued, p.closed + TopDown(p.live, want)))
  {
    TopDownElements(p.live, want);
    assert p.live == p.live[..want] + p.live[want..];
    Regroup(multiset(p.live[..want]), multiset(p.live[want..]), multiset(p.closed));
  }

  lemma Regroup(a: multiset<int>, b: multiset<int>, c: multiset<int>)
    ensures a + (c + b) == (a + b) + c
  {}

  lemma AdjustedGrows(p: Pool, desired: int)
    requires Partitioned(p) && NonNegative(desired) >= |p.live|
    ensures Partitioned(Adjusted(p, desired)) && |Adjusted(p, desired).live| == NonNegative(desired)
  {
    var n := NonNegative(desired) - |p.live|;
    GrowStaysPartitioned(p, n);
    assert Adjusted(p, desired) == Pool(p.live + NewIds(p.issued, n), p.issued + n, p.closed);
  }

  lemma AdjustedShrinks(p: Pool, desired: int)
    requires Partitioned(p) && NonNegative(desired) < |p.live|
    ensures Partitioned(Adjusted(p, desired)) && |Adjusted(p, desired).live| == NonNegative(desired)
  {
    ShrinkStaysPartitioned(p, NonNegative(desired));
  }

  lemma AdjustedStaysPartitioned(p: Pool, desired: int)
    requires Partitioned(p)
    ensures Partitioned(Adjusted(p, desired)) && |Adjusted(p, desired).live| == NonNegative(desired)
  {
    if NonNegative(desired) >= |p.live| {
      AdjustedGrows(p, desired);
    } else {
      AdjustedShrinks(p, desired);
    }
  }

  lemma {:induction false} TicksStayPartitioned(p: Pool, startVU: int, stage: Stage, ticks: seq<int>)
    requires Partitioned(p) && Timely(ticks)
    ensures Partitioned(RunTicks(p, startVU, stage, ticks).0)
    ensures RunTicks(p, startVU, stage, ticks).1 ==> |RunTicks(p, startVU, stage, ticks).0.live| == NonNegative(stage.target)
    decreases |ticks|
  {
    if ticks != [] {
      if ticks[0] >= stage.duration {
        AdjustedStaysPartitioned(p, stage.target);
      } else {
        AdjustedStaysPartitioned(p, Desired(startVU, stage, ticks[0]));
        TicksStayPartitioned(Adjusted(p, Desired(startVU, stage, ticks[0])), startVU, stage, ticks[1..]);
      }
    }
  }

  /** A stage that is not cut short ends with exactly its target, with or without a gate. */
  lemma StageReachesTarget(p: Pool, startVU: int, stage: Stage, sched: Schedule)
    requires Partitioned(p) && Timely(sched.ticks)
    ensures var (p', cancelled) := RunStage(p, startVU, stage, sched);
            Partitioned(p') && (!cancelled ==> |p'.live| == NonNegative(stage.target))
  {
    TicksStayPartitioned(p, startVU, stage, sched.ticks);
    AdjustedStaysPartitioned(RunTicks(p, startVU, stage, sched.ticks).0, stage.target);
  }

  lemma {:induction false} StagesStayPartitioned(p: Pool, startVU: int, stages: seq<Stage>, plan: seq<Schedule>)
    requires |plan| == |stages| && forall i :: 0 <= i < |plan| ==> Timely(plan[i].ticks)
    requires Partitioned(p)
    ensures Partitioned(RunStages(p, startVU, stages, plan))
    decreases |stages|
  {
    if stages != [] {
      StageReachesTarget(p, startVU, stages[0], plan[0]);
      var (p', cancelled) := RunStage(p, startVU, stages[0], plan[0]);
      if !cancelled {
        StagesStayPartitioned(p', stages[0].target, stages[1..], plan[1..]);
      }
    }
  }

  /** On every path each spawned worker's stop channel has been closed exactly once when the drain begins. */
  lemma EveryStopClosedOnce(stages: seq<Stage>, plan: seq<Schedule>, gated: bool, quorumFails: bool)
    requires |plan| == |stages| && forall i :: 0 <= i < |plan| ==> Timely(plan[i].ticks)
    ensures var p := RunPacer(stages, plan, gated, quorumFails);
            p.live == [] && multiset(p.closed) == Upto(p.issued)
  {
    assert Partitioned(EMPTY);
    if gated && stages != [] && stages[0].target > 0 {
      AdjustedStaysPartitioned(EMPTY, stages[0].target);
    }
    StagesStayPartitioned(Started(stages, gated), 0, stages, plan);
  }

  // ---------- Rising, falling and totals ----------

  lemma RoundMonotone(a: int, b: int, den: int)
    requires den > 0 && 0 <= a <= b
    ensures 0 <= Round(a, den) <= Round(b, den)
  {
    var d := 2 * den;
    DivBounds(2 * a + den, d);
    DivBounds(2 * b + den, d);
    MulCancel(d, Round(a, den), Round(b, den));
    MulCancel(d, 0, Round(a, den));
  }

  lemma RoundExact(n: nat, den: int)
    requires den > 0
    ensures n * den >= 0 && Round(n * den, den) == n
  {
    MulMonotone(den, 0, n);
    assert (2 * den) * n == 2 * (n * den);
    QuotientIs(2 * (n * den) + den, 2 * den, n);
  }

  /** The numerators of the interpolation, rising from start * d to target * d. */
  lemma RisingNumerators(start: nat, target: int, d: int, e: int, f: int)
    requires target >= start && 0 <= e <= f < d
    ensures 0 <= start * d <= start * d + e * (target - start) <= start * d + f * (target - start) <= target * d
  {
    var delta := target - start;
    MulMonotone(d, 0, start);
    MulMonotone(delta, 0, e);
    MulMonotone(delta, e, f);
    MulMonotone(delta, f, d);
    assert target * d == start * d + delta * d;
  }

  lemma FallingNumerators(start: nat, target: int, d: int, e: int, f: int)
    requires 0 <= target <= start && 0 <= e <= f < d
    ensures 0 <= target * d <= start * d + f * (target - start) <= start * d + e * (target - start) <= start * d
  {
    var delta := start - target;
    MulMonotone(d, 0, target);
    MulMonotone(delta, 0, e);
    MulMonotone(delta, e, f);
    MulMonotone(delta, f, d);
    Difference(start, target, d);
    Opposite(e, start, target);
    Opposite(f, start, target);
  }

  lemma Difference(a: int, b: int, d: int)
    ensures a * d == b * d + (a - b) * d
  {
  }

  lemma Opposite(e: int, a: int, b: int)
    ensures e * (b - a) == -((a - b) * e)
  {
  }

  lemma DesiredRises(startVU: nat, stage: Stage, e: int, f: int)
    requires stage.target >= startVU && 0 <= e <= f < stage.duration
    ensures startVU <= Desired(startVU, stage, e) <= Desired(startVU, stage, f) <= stage.target
  {
    var d, delta := stage.duration, stage.target - startVU;
    RisingNumerators(startVU, stage.target, d, e, f);
    RoundExact(startVU, d);
    RoundExact(stage.target, d);
    RoundMonotone(startVU * d, startVU * d + e * delta, d);
    RoundMonotone(startVU * d + e * delta, startVU * d + f * delta, d);
    RoundMonotone(startVU * d + f * delta, stage.target * d, d);
  }

  lemma DesiredFalls(startVU: nat, stage: Stage, e: int, f: int)
    requires 0 <= stage.target <= startVU && 0 <= e <= f < stage.duration
    ensures startVU >= Desired(startVU, stage, e) >= Desired(startVU, stage, f) >= stage.target
  {
    var d, delta := stage.duration, stage.target - startVU;
    FallingNumerators(startVU, stage.target, d, e, f);
    RoundExact(startVU, d);
    RoundExact(stage.target, d);
    RoundMonotone(startVU * d + e * delta, startVU * d, d);
    RoundMonotone(startVU * d + f * delta, startVU * d + e * delta, d);
    RoundMonotone(stage.target * d, startVU * d + f * delta, d);
  }

  /** The interpolation moves monotonically from startVU to the target. */
  lemma DesiredMonotone(startVU: nat, stage: Stage, e: int, f: int)
    requires stage.target >= 0 && 0 <= e <= f < stage.duration
    ensures stage.target >= startVU ==> startVU <= Desired(startVU, stage, e) <= Desired(startVU, stage, f) <= stage.target
    ensures stage.target <= startVU ==> startVU >= Desired(startVU, stage, e) >= Desired(startVU, stage, f) >= stage.target
  {
    if stage.target >= startVU { DesiredRises(startVU, stage, e, f); }
    if stage.target <= startVU { DesiredFalls(startVU, stage, e, f); }
  }

  /** `n` workers are the exact interpolation num / den rounded to the nearest whole number, and a half rounded up. */
  predicate Nearest(n: int, num: int, den: int) {
    -den < 2 * (n * den - num) <= den
  }

  lemma RoundIsNearest(num: nat, den: int)
    requires den > 0
    ensures Nearest(Round(num, den), num, den)
  {
    var q := Round(num, den);
    DivBounds(2 * num + den, 2 * den);
    assert (2 * den) * q == 2 * (q * den);
  }

  lemma DesiredIsNearest(startVU: nat, stage: Stage, e: int)
    requires stage.target >= 0 && 0 <= e < stage.duration
    ensures Desired(startVU, stage, e) >= 0
    ensures Nearest(Desired(startVU, stage, e), startVU * stage.duration + e * (stage.target - startVU), stage.duration)
  {
    DesiredMonotone(startVU, stage, e, e);
    if stage.target >= startVU {
      RisingNumerators(startVU, stage.target, stage.duration, e, e);
    } else {
      FallingNumerators(startVU, stage.target, stage.duration, e, e);
    }
    RoundIsNearest(startVU * stage.duration + e * (stage.target - startVU), stage.duration);
  }

  /**
   After any ticks within a stage, in whatever order, the number of live workers is the point that the straight line
   from startVU to the target reaches at the last of them, rounded to the nearest with halves up.
   */
  lemma {:induction false} TicksFollowTheLine(p: Pool, startVU: nat, stage: Stage, ticks: seq<int>)
    requires ticks != [] && Timely(ticks) && stage.target >= 0 && forall i :: 0 <= i < |ticks| ==> ticks[i] < stage.duration
    ensures var (p', over) := RunTicks(p, startVU, stage, ticks);
            && !over
            && Nearest(|p'.live|, startVU * stage.duration + ticks[|ticks| - 1] * (stage.target - startVU), stage.duration)
    decreases |ticks|
  {
    DesiredIsNearest(startVU, stage, ticks[0]);
    var p1 := Adjusted(p, Desired(startVU, stage, ticks[0]));
    if |ticks| > 1 {
      TicksFollowTheLine(p1, startVU, stage, ticks[1..]);
    } else {
      assert RunTicks(p1, startVU, stage, ticks[1..]) == (p1, false);
    }
  }

  predicate Sorted(ticks: seq<int>) {
    forall i, j :: 0 <= i <= j < |ticks| ==> ticks[i] <= ticks[j]
  }

  /** In a rising stage nobody is stopped, in a falling stage nobody is spawned. */
  lemma {:induction false} TicksOneWay(p: Pool, startVU: nat, stage: Stage, ticks: seq<int>, last: int)
    requires Timely(ticks) && Sorted(ticks) && stage.target >= 0 && last >= 0
    requires ticks != [] ==> last <= ticks[0]
    requires 0 < stage.duration && |p.live| == (if last < stage.duration then Desired(startVU, stage, last) else stage.target)
    ensures var p' := RunTicks(p, startVU, stage, ticks).0;
            && (stage.target >= startVU ==> p'.closed == p.closed && |p.live| <= |p'.live| <= stage.target && p'.issued - p.issued == |p'.live| - |p.live|)
            && (stage.target <= startVU ==> p'.issued == p.issued && |p.live| >= |p'.live| >= stage.target)
    decreases |ticks|
  {
    if last < stage.duration {
      DesiredMonotone(startVU, stage, last, last);
    }
    if ticks != [] && ticks[0] < stage.duration {
      DesiredMonotone(startVU, stage, last, ticks[0]);
      var p1 := Adjusted(p, Desired(startVU, stage, ticks[0]));
      TicksOneWay(p1, startVU, stage, ticks[1..], ticks[0]);
    }
  }

  lemma DesiredAtStart(startVU: nat, stage: Stage)
    requires stage.duration > 0
    ensures Desired(startVU, stage, 0) == startVU
  {
    RoundExact(startVU, stage.duration);
  }

  lemma StageOneWay(p: Pool, startVU: nat, stage: Stage, sched: Schedule)
    requires Timely(sched.ticks) && Sorted(sched.ticks) && !sched.cancelled
    requires stage.target >= 0 && stage.duration > 0 && |p.live| == startVU
    ensures var p' := RunStage(p, startVU, stage, sched).0;
            && !RunStage(p, startVU, stage, sched).1
            && |p'.live| == stage.target
            && (stage.target >= startVU ==> p'.closed == p.closed)
            && (stage.target <= startVU ==> p'.issued == p.issued)
            && p'.issued == p.issued + NonNegative(stage.target - startVU)
  {
    DesiredAtStart(startVU, stage);
    TicksOneWay(p, startVU, stage, sched.ticks, 0);
    TicksEnd(p, startVU, stage, sched.ticks);
  }

  lemma {:induction false} TicksEnd(p: Pool, startVU: int, stage: Stage, ticks: seq<int>)
    requires Timely(ticks) && stage.target >= 0
    ensures RunTicks(p, startVU, stage, ticks).1 ==> |RunTicks(p, startVU, stage, ticks).0.live| == stage.target
    decreases |ticks|
  {
    if ticks != [] && ticks[0] < stage.duration {
      TicksEnd(Adjusted(p, Desired(startVU, stage, ticks[0])), startVU, stage, ticks[1..]);
    }
  }

  /** What the stages ask for: the sum of all rises. */
  function Rises(startVU: int, stages: seq<Stage>): nat
    decreases |stages|
  {
    if stages == [] then 0
    else NonNegative(stages[0].target - startVU) + Rises(stages[0].target, stages[1..])
  }

  /** The number of live workers after the last of the stages. */
  function FinalTarget(startVU: int, stages: seq<Stage>): int {
    if stages == [] then startVU else stages[|stages| - 1].target
  }

  /**
   Uncancelled runs without a gate, for every non-decreasing tick schedule: exactly the last
   target is live after any prefix of the stages, and exactly the sum of the rises was spawned.
   */
  lemma {:induction false} RampingTotals(p: Pool, startVU: nat, stages: seq<Stage>, plan: seq<Schedule>)
    requires |plan| == |stages| && |p.live| == startVU
    requires forall i :: 0 <= i < |plan| ==> Timely(plan[i].ticks) && Sorted(plan[i].ticks) && !plan[i].cancelled
    requires forall i :: 0 <= i < |stages| ==> stages[i].target >= 0 && stages[i].duration > 0
    ensures |RunStages(p, startVU, stages, plan).live| == FinalTarget(startVU, stages)
    ensures RunStages(p, startVU, stages, plan).issued == p.issued + Rises(startVU, stages)
    decreases |stages|
  {
    if stages != [] {
      StageOneWay(p, startVU, stages[0], plan[0]);
      RampingTotals(RunStage(p, startVU, stages[0], plan[0]).0, stages[0].target, stages[1..], plan[1..]);
    }
  }

  /** Running the stages is running a prefix of them and then the rest from where it left off. */
  lemma {:induction false} StagesCompose(p: Pool, startVU: int, stages: seq<Stage>, plan: seq<Schedule>, k: nat)
    requires |plan| == |stages| && k <= |stages|
    requires forall i :: 0 <= i < |plan| ==> Timely(plan[i].ticks) && !plan[i].cancelled
    ensures RunStages(p, startVU, stages, plan) ==
            RunStages(RunStages(p, startVU, stages[..k], plan[..k]), FinalTarget(startVU, stages[..k]), stages[k..], plan[k..])
    decreases |stages|
  {
    if k == 0 {
      assert stages[0..] == stages && plan[0..] == plan;
    } else {
      var (p1, cancelled) := RunStage(p, startVU, stages[0], plan[0]);
      assert stages[..k][1..] == stages[1..][..k - 1] && plan[..k][1..] == plan[1..][..k - 1];
      assert stages[k..] == stages[1..][k - 1..] && plan[k..] == plan[1..][k - 1..];
      StagesCompose(p1, stages[0].target, stages[1..], plan[1..], k - 1);
    }
  }

  // ---------- The gated first stage ----------

  /**
   With a gate the first stage's workers exist before its interpolation, which still starts from 0:
   an early first tick stops the workers the quorum has just waited for.  Nobody is stopped exactly
   when the tick comes so late that the interpolation already rounds to the target.
   */
  lemma GatedFirstTick(stage: Stage, elapsed: int)
    requires stage.target > 0 && 0 <= elapsed < stage.duration
    ensures var p := Adjusted(EMPTY, stage.target);
            var p' := RunTicks(p, 0, stage, [elapsed]).0;
            && |p'.live| == Round(elapsed * stage.target, stage.duration)
            && |p'.closed| == stage.target - |p'.live|
            && (p'.closed == [] <==> 2 * (elapsed * stage.target) + stage.duration >= 2 * (stage.target * stage.duration))
            && (p'.live == [] <==> 2 * (elapsed * stage.target) < stage.duration)
  {
    var p, r := Adjusted(EMPTY, stage.target), Desired(0, stage, elapsed);
    DesiredRises(0, stage, elapsed, elapsed);
    RoundThreshold(elapsed * stage.target, stage.duration, stage.target);
    RoundThreshold(elapsed * stage.target, stage.duration, 1);
    assert RunTicks(p, 0, stage, [elapsed]).0 == Adjusted(p, r);
  }

  /** The rest of the gated stage after an early first tick only spawns. */
  lemma GatedRest(stage: Stage, ticks: seq<int>)
    requires stage.target > 0 && ticks != [] && Timely(ticks) && Sorted(ticks) && ticks[0] < stage.duration
    ensures var p1 := Adjusted(Adjusted(EMPTY, stage.target), Desired(0, stage, ticks[0]));
            var p' := RunStage(Adjusted(EMPTY, stage.target), 0, stage, Schedule(ticks, false)).0;
            && p'.closed == p1.closed && |p'.live| == stage.target
            && p'.issued - p1.issued == stage.target - |p1.live|
  {
    DesiredRises(0, stage, ticks[0], ticks[0]);
    var p1 := Adjusted(Adjusted(EMPTY, stage.target), Desired(0, stage, ticks[0]));
    TicksOneWay(p1, 0, stage, ticks[1..], ticks[0]);
    TicksEnd(p1, 0, stage, ticks[1..]);
  }

  /**
   The gated first stage as a whole, for every non-decreasing tick schedule: it ends with its target,
   and it stops nobody exactly if no tick comes before the end or the first one is late enough.
   Otherwise the stopped workers are spawned a second time, so the total exceeds the target by their number.
   */
  lemma GatedStage(stage: Stage, ticks: seq<int>)
    requires stage.target > 0 && stage.duration > 0 && Timely(ticks) && Sorted(ticks)
    ensures var (p', cancelled) := RunStage(Adjusted(EMPTY, stage.target), 0, stage, Schedule(ticks, false));
            && !cancelled && |p'.live| == stage.target
            && (p'.closed == [] <==> ticks == [] || ticks[0] >= stage.duration
                                     || 2 * (ticks[0] * stage.target) + stage.duration >= 2 * (stage.target * stage.duration))
            && |p'.closed| == p'.issued - stage.target
            && p'.issued == stage.target + (if ticks == [] || ticks[0] >= stage.duration then 0
                                            else stage.target - Round(ticks[0] * stage.target, stage.duration))
  {
    var p0 := Adjusted(EMPTY, stage.target);
    if ticks != [] && ticks[0] < stage.duration {
      GatedFirstTick(stage, ticks[0]);
      assert RunTicks(p0, 0, stage, [ticks[0]]).0 == Adjusted(p0, Desired(0, stage, ticks[0]));
      DesiredRises(0, stage, ticks[0], ticks[0]);
      GatedRest(stage, ticks);
    }
  }

  // ---------- The whole pacer ----------

  /** Workers that the first tick of a gated stage 0 stops, to be spawned again. */
  function Respawned(stage: Stage, ticks: seq<int>): int
    requires stage.duration > 0 && Timely(ticks)
  {
    if ticks == [] || ticks[0] >= stage.duration then 0 else stage.target - Round(ticks[0] * stage.target, stage.duration)
  }

  predicate Complete(stages: seq<Stage>, plan: seq<Schedule>) {
    && |plan| == |stages|
    && (forall i :: 0 <= i < |plan| ==> Timely(plan[i].ticks) && Sorted(plan[i].ticks) && !plan[i].cancelled)
    && (forall i :: 0 <= i < |stages| ==> stages[i].target >= 0 && stages[i].duration > 0)
  }

  /**
   A pacer that is not cancelled has spawned the sum of the stages' rises from 0 when it stops, and with a gate
   also those that the first tick stopped; each of them has been stopped once.
   */
  lemma PacerTotals(stages: seq<Stage>, plan: seq<Schedule>, gated: bool)
    requires Complete(stages, plan)
    ensures var p := RunPacer(stages, plan, gated, false);
            && p.live == [] && multiset(p.closed) == Upto(p.issued)
            && p.issued == Rises(0, stages) + (if gated && stages != [] && stages[0].target > 0 then Respawned(stages[0], plan[0].ticks) else 0)
  {
    EveryStopClosedOnce(stages, plan, gated, false);
    if gated && stages != [] && stages[0].target > 0 {
      GatedPacer(stages, plan);
    } else {
      RampingTotals(EMPTY, 0, stages, plan);
    }
  }

  lemma GatedPacer(stages: seq<Stage>, plan: seq<Schedule>)
    requires Complete(stages, plan) && stages != [] && stages[0].target > 0
    ensures RunStages(Adjusted(EMPTY, stages[0].target), 0, stages, plan).issued ==
            Rises(0, stages) + Respawned(stages[0], plan[0].ticks)
  {
    var p0 := Adjusted(EMPTY, stages[0].target);
    GatedStage(stages[0], plan[0].ticks);
    assert plan[0] == Schedule(plan[0].ticks, false);
    RampingTotals(RunStage(p0, 0, stages[0], plan[0]).0, stages[0].target, stages[1..], plan[1..]);
  }

  /** A stage that is cut short leaves the workers its last tick left, and counts as cancelled. */
  lemma CancelledStage(p: Pool, startVU: nat, stage: Stage, ticks: seq<int>)
    requires Timely(ticks) && Sorted(ticks) && |p.live| == startVU && forall i :: 0 <= i < |ticks| ==> ticks[i] < stage.duration
    requires stage.target >= 0 && stage.duration > 0
    ensures var (p', cancelled) := RunStage(p, startVU, stage, Schedule(ticks, true));
            && cancelled && LeftAt(p', startVU, stage, ticks)
            && p'.issued == p.issued + NonNegative(|p'.live| - startVU)
  {
    DesiredAtStart(startVU, stage);
    TicksOneWay(p, startVU, stage, ticks, 0);
    if ticks != [] {
      TicksFollowTheLine(p, startVU, stage, ticks);
    }
  }

  /** As many workers are live as the line asks for at the last tick; without a tick, as many as before. */
  predicate LeftAt(p: Pool, startVU: int, stage: Stage, ticks: seq<int>) {
    if ticks == [] then |p.live| == startVU
    else Nearest(|p.live|, startVU * stage.duration + ticks[|ticks| - 1] * (stage.target - startVU), stage.duration)
  }

  /** Stage k is cancelled between two ticks, and those before it are complete. */
  predicate CutShort(stages: seq<Stage>, plan: seq<Schedule>, k: nat) {
    && |plan| == |stages| && k < |stages| && plan[k].cancelled
    && (forall i :: 0 <= i < |plan| ==> Timely(plan[i].ticks) && Sorted(plan[i].ticks))
    && (forall i :: 0 <= i < k ==> !plan[i].cancelled)
    && (forall i :: 0 <= i < |plan[k].ticks| ==> plan[k].ticks[i] < stages[k].duration)
    && (forall i :: 0 <= i < |stages| ==> stages[i].target >= 0 && stages[i].duration > 0)
  }

  lemma FirstOfSeveral(startVU: int, stages: seq<Stage>, plan: seq<Schedule>, k: nat)
    requires CutShort(stages, plan, k) && k > 0
    ensures CutShort(stages[1..], plan[1..], k - 1)
    ensures FinalTarget(startVU, stages[..k]) == FinalTarget(stages[0].target, stages[1..][..k - 1])
    ensures Rises(startVU, stages[..k]) == NonNegative(stages[0].target - startVU) + Rises(stages[0].target, stages[1..][..k - 1])
  {
    assert stages[..k][1..] == stages[1..][..k - 1];
  }

  /**
   After a cancellation no later stage begins: the workers are those of the last tick, and those spawned are the
   rises of the stages before and of the stage cut short up to there.
   */
  lemma {:induction false} CancelledTotals(p: Pool, startVU: nat, stages: seq<Stage>, plan: seq<Schedule>, k: nat)
    requires CutShort(stages, plan, k) && |p.live| == startVU
    ensures var p', start := RunStages(p, startVU, stages, plan), FinalTarget(startVU, stages[..k]);
            && LeftAt(p', start, stages[k], plan[k].ticks)
            && p'.issued == p.issued + Rises(startVU, stages[..k]) + NonNegative(|p'.live| - start)
    decreases k
  {
    if k == 0 {
      CancelledStage(p, startVU, stages[0], plan[0].ticks);
      assert plan[0] == Schedule(plan[0].ticks, true);
    } else {
      StageOneWay(p, startVU, stages[0], plan[0]);
      FirstOfSeveral(startVU, stages, plan, k);
      CancelledTotals(RunStage(p, startVU, stages[0], plan[0]).0, stages[0].target, stages[1..], plan[1..], k - 1);
    }
  }

  /** If the quorum fails, the workers of stage 0 are stopped in the order they were spawned, and no stage begins. */
  lemma FailedQuorumStopsStageZero(stages: seq<Stage>, plan: seq<Schedule>)
    requires |plan| == |stages| && forall i :: 0 <= i < |plan| ==> Timely(plan[i].ticks)
    requires stages != [] && stages[0].target > 0
    ensures var p := RunPacer(stages, plan, true, true);
            && p.live == [] && p.issued == |p.closed| == stages[0].target
            && forall i :: 0 <= i < |p.closed| ==> p.closed[i] == i + 1
  {
  }

  /** Rounding reaches k exactly from k - 1/2 on. */
  lemma RoundThreshold(num: nat, den: int, k: int)
    requires den > 0
    ensures Round(num, den) >= k <==> 2 * num + den >= 2 * (k * den)
  {
    var d, q := 2 * den, Round(num, den);
    DivBounds(2 * num + den, d);
    assert d * k == 2 * (k * den);
    if q >= k {
      MulMonotone(d, k, q);
    } else if 2 * num + den >= d * k {
      MulCancel(d, k, q);
    }
  }
}
