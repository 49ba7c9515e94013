/**
 What the burst buffer buys: tokens may be dispatched late by up to `late` and picked up late by up
 to `pickUp` clock units.  The limiter is asked for the next token only when the previous one has been
 dispatched, and it spaces the times at which tokens are due; a due token is dispatched when the dispatcher
 wakes up, and a worker that could take one takes it when it wakes up.
 */
module Jitter {
  import opened ArrivalRate
  import opened Capacity

  /**
   `timeout` and the two delays in clock units; `workers` are those ready when the dispatch begins.  With
   `ramp` > 0 the first token is the ramp-up's, and the limiter is asked for its first one `ramp` units later.
   */
  datatype Setting = Setting(workers: nat, timeout: int, late: int, pickUp: int, capacity: nat, ramp: int)

  /** `due` and `times` say of each token when it was due and when it was dispatched, `freed` when workers became free. */
  datatype State = Moment(ch: Channel, now: int, due: seq<int>, times: seq<int>, running: map<nat, int>, freed: seq<int>)

  datatype Act = Wait(dt: int) | Dispatch(due: int) | PickUp | Free(token: nat)

  function Init(c: Setting): State {
    Moment(Channel(c.capacity, 0, [], false, [], []), 0, [], [], map[], [])
  }

  /** The ramp-up's token is not the limiter's. */
  predicate IsRampToken(c: Setting, j: nat) {
    j == 0 && c.ramp > 0
  }

  /** When token j can be due at the earliest: an interval after the last one was, and not before that was dispatched. */
  function EarliestDue(c: Setting, due: seq<int>, times: seq<int>, j: nat): int
    requires 1 <= j <= |due| == |times|
  {
    if IsRampToken(c, j - 1) then times[j - 1] + c.ramp else Max(due[j - 1] + INTERVAL, times[j - 1])
  }

  predicate MayBeDue(c: Setting, s: State, due: int)
    requires |s.due| == |s.times|
  {
    s.due != [] ==> due >= EarliestDue(c, s.due, s.times, |s.due|)
  }

  /** The limiter itself grants every token as early as it can. */
  ghost predicate DueAtEarliest(c: Setting, s: State) {
    |s.due| == |s.times| && forall j: nat :: 1 <= j < |s.due| ==> IsEarliest(c, s.due, s.times, j)
  }

  predicate IsEarliest(c: Setting, due: seq<int>, times: seq<int>, j: nat)
    requires 1 <= j < |due| == |times|
  {
    due[j] == EarliestDue(c, due, times, j)
  }

  /** A worker could take token j, counting those before it: as many workers have been free as there are tokens up to j. */
  predicate Eligible(c: Setting, s: State, j: nat) {
    j < c.workers + |s.freed|
  }

  /** Since when a dispatched token is eligible. */
  function EligibleSince(c: Setting, s: State, j: nat): int
    requires j < |s.times| && Eligible(c, s, j)
  {
    if j >= c.workers && s.freed[j - c.workers] > s.times[j] then s.freed[j - c.workers] else s.times[j]
  }

  /** Time passes only while no iteration outlives its timeout and no eligible token waits longer than the pick-up delay. */
  predicate MayPass(c: Setting, s: State, dt: int) {
    && (forall k :: k in s.running ==> s.now + dt <= s.running[k] + c.timeout)
    && (forall j: nat :: |s.ch.taken| <= j < |s.times| && Eligible(c, s, j) ==> s.now + dt <= EligibleSince(c, s, j) + c.pickUp)
  }

  predicate Enabled(c: Setting, s: State, act: Act) {
    match act
    case Wait(dt) => dt > 0 && MayPass(c, s, dt)
    case Dispatch(due) => |s.due| == |s.times| && MayBeDue(c, s, due) && due <= s.now <= due + c.late
    case PickUp => |s.running| < c.workers && s.ch.queue != []
    case Free(token) => token in s.running
  }

  function Next(c: Setting, s: State, act: Act): State
    requires Enabled(c, s, act)
  {
    match act
    case Wait(dt) => s.(now := s.now + dt)
    case Dispatch(due) => s.(ch := Dispatched(s.ch), due := s.due + [due], times := s.times + [s.now])
    case PickUp => s.(ch := Received(s.ch), running := s.running[s.ch.queue[0] := s.now])
    case Free(token) => s.(running := s.running - {token}, freed := s.freed + [s.now])
  }

  ghost predicate StepAt(c: Setting, acts: seq<Act>, ss: seq<State>, k: nat)
    requires |ss| == |acts| + 1 && k < |acts|
  {
    Enabled(c, ss[k], acts[k]) && ss[k + 1] == Next(c, ss[k], acts[k])
  }

  ghost predicate IsRun(c: Setting, acts: seq<Act>, ss: seq<State>) {
    |ss| == |acts| + 1 && ss[0] == Init(c) && forall k: nat :: k < |acts| ==> StepAt(c, acts, ss, k)
  }

  // ---------- The bound ----------

  /** The workers sustain the rate even if each pick-up is as late as it may be. */
  predicate Sustained(c: Setting) {
    c.late >= 0 && c.pickUp >= 0 && c.timeout >= 0 && c.workers >= 1 && c.workers * INTERVAL >= c.timeout + c.pickUp
  }

  function Min(a: int, b: int): int {
    if a <= b then a else b
  }

  function Max(a: int, b: int): int {
    if a >= b then a else b
  }

  /**
   By how much tokens can run ahead of an even pace: by what one was late, but at most an interval, since the next
   is only asked for afterwards; and by what the ramp leaves short of an interval.
   */
  function Ahead(c: Setting): int {
    if c.ramp > 0 then Max(Min(c.late, INTERVAL), INTERVAL - c.ramp) else Min(c.late, INTERVAL)
  }

  /** The buffer outlasts the delays. */
  predicate Outlasts(c: Setting) {
    c.capacity * INTERVAL > Ahead(c) + c.pickUp
  }

  // ---------- An even pace ----------

  /** When token j would be dispatched if no two were dispatched within an interval. */
  function Pace(times: seq<int>, j: nat): int
    requires j < |times|
  {
    if j == 0 then times[0] else Max(times[j], Pace(times, j - 1) + INTERVAL)
  }

  lemma {:induction false} PaceStays(times: seq<int>, x: int, j: nat)
    requires j < |times|
    ensures Pace(times + [x], j) == Pace(times, j)
  {
    if j > 0 {
      PaceStays(times, x, j - 1);
    }
  }

  lemma {:induction false} PaceSpaced(times: seq<int>, i: nat, j: nat)
    requires i <= j < |times|
    ensures Pace(times, i) + (j - i) * INTERVAL <= Pace(times, j) && times[j] <= Pace(times, j)
  {
    if i < j {
      PaceSpaced(times, i, j - 1);
    }
  }

  /** What is true of each dispatch up to j is true of the pace. */
  lemma {:induction false} PaceBounded(times: seq<int>, n: int, bound: int, j: nat)
    requires j < |times| && forall i :: 0 <= i <= j ==> times[i] + (n - i) * INTERVAL <= bound
    ensures Pace(times, j) + (n - j) * INTERVAL <= bound
  {
    if j > 0 {
      PaceBounded(times, n, bound, j - 1);
    }
  }

  // ---------- Invariant ----------

  ghost predicate NothingLost(c: Setting, s: State) {
    && s.ch.dropped == [] && s.ch.capacity == c.capacity
    && |s.due| == |s.times| == s.ch.next == |s.ch.taken| + |s.ch.queue|
    && (forall i :: 0 <= i < |s.ch.queue| ==> s.ch.queue[i] == |s.ch.taken| + i)
    && |s.freed| + |s.running| == |s.ch.taken| && |s.running| <= c.workers
    && (forall k :: k in s.running ==> k < |s.ch.taken|)
  }

  /** What the limiter guarantees for token j after token i. */
  predicate DueAfter(c: Setting, s: State, i: nat, j: nat)
    requires i < j < |s.due| == |s.times|
  {
    if IsRampToken(c, i) then s.due[j] >= s.times[i] + c.ramp + (j - i - 1) * INTERVAL
    else s.due[j] >= s.times[i] + (j - i - 1) * INTERVAL && s.due[j] >= s.due[i] + (j - i) * INTERVAL
  }

  ghost predicate DueInv(c: Setting, s: State) {
    && |s.due| == |s.times|
    && (forall i: nat, j: nat :: i < j < |s.due| ==> DueAfter(c, s, i, j))
    && (forall i :: 0 <= i < |s.due| ==> s.due[i] <= s.times[i] <= s.due[i] + c.late)
  }

  /** No token begins later than this. */
  function Latest(c: Setting, times: seq<int>, j: nat): int
    requires j < |times|
  {
    Pace(times, j) + c.pickUp
  }

  /** Every iteration began in time, every waiting token still can, and workers have become free in time. */
  ghost predicate InTime(c: Setting, s: State)
    requires NothingLost(c, s)
  {
    && (forall k :: k in s.running ==> s.running[k] <= Latest(c, s.times, k) && s.now <= s.running[k] + c.timeout)
    && (forall j: nat :: |s.ch.taken| <= j < |s.times| ==> s.now <= Latest(c, s.times, j))
    && (forall i :: 0 <= i < |s.freed| ==> s.freed[i] <= Latest(c, s.times, i) + c.timeout)
  }

  ghost predicate Inv(c: Setting, s: State) {
    NothingLost(c, s) && DueInv(c, s) && InTime(c, s)
  }

  lemma InitInv(c: Setting)
    ensures Inv(c, Init(c))
  {
  }

  /** Tokens as many places apart as there are workers are a timeout and a pick-up delay apart. */
  lemma RoundLater(c: Setting, s: State, i: nat, j: nat)
    requires Sustained(c) && i + c.workers <= j < |s.times|
    ensures Latest(c, s.times, i) + c.timeout + c.pickUp <= Latest(c, s.times, j)
  {
    PaceSpaced(s.times, i, j);
    assert (j - i) * INTERVAL >= c.workers * INTERVAL;
  }

  /** An eligible token is picked up in time. */
  lemma EligibleInTime(c: Setting, s: State, j: nat)
    requires Sustained(c) && Inv(c, s) && |s.ch.taken| <= j < |s.times| && Eligible(c, s, j)
    ensures EligibleSince(c, s, j) + c.pickUp <= Latest(c, s.times, j)
  {
    PaceSpaced(s.times, j, j);
    if j >= c.workers {
      RoundLater(c, s, j - c.workers, j);
    }
  }

  /** While all workers are busy, one of them is at its deadline before the next token has to begin. */
  lemma BusyInTime(c: Setting, s: State, j: nat) returns (k: nat)
    requires Sustained(c) && Inv(c, s) && |s.running| == c.workers && |s.ch.taken| <= j < |s.times|
    ensures k in s.running && s.running[k] + c.timeout <= Latest(c, s.times, j)
  {
    k := OldestRunning(s.running.Keys, |s.ch.taken|, c.workers);
    RoundLater(c, s, k, j);
  }

  lemma WaitingInTime(c: Setting, s: State, dt: int, j: nat)
    requires Sustained(c) && Inv(c, s) && MayPass(c, s, dt) && |s.ch.taken| <= j < |s.times|
    ensures s.now + dt <= Latest(c, s.times, j)
  {
    if |s.running| == c.workers {
      var k := BusyInTime(c, s, j);
    } else {
      var head := |s.ch.taken|;
      EligibleInTime(c, s, head);
      PaceSpaced(s.times, head, j);
    }
  }

  lemma WaitKeepsInv(c: Setting, s: State, dt: int)
    requires Sustained(c) && Inv(c, s) && Enabled(c, s, Wait(dt))
    ensures Inv(c, Next(c, s, Wait(dt)))
  {
    var s' := Next(c, s, Wait(dt));
    assert forall i: nat, j: nat :: i < j < |s.due| ==> DueAfter(c, s', i, j) == DueAfter(c, s, i, j);
    forall j: nat | |s.ch.taken| <= j < |s.times| ensures s'.now <= Latest(c, s'.times, j) {
      WaitingInTime(c, s, dt, j);
    }
  }

  // ---------- Dispatch ----------

  lemma NextIsDueAfter(c: Setting, s: State, due: int, i: nat)
    requires DueInv(c, s) && MayBeDue(c, s, due) && i < |s.due|
    ensures DueAfter(c, s.(due := s.due + [due], times := s.times + [s.now]), i, |s.due|)
  {
    var n := |s.due|;
    if i < n - 1 {
      assert DueAfter(c, s, i, n - 1);
    }
  }

  lemma DispatchKeepsDue(c: Setting, s: State, due: int)
    requires DueInv(c, s) && Enabled(c, s, Dispatch(due))
    ensures DueInv(c, Next(c, s, Dispatch(due)))
  {
    var s' := Next(c, s, Dispatch(due));
    forall i: nat, j: nat | i < j < |s'.due| ensures DueAfter(c, s', i, j) {
      if j < |s.due| {
        assert DueAfter(c, s, i, j);
      } else {
        NextIsDueAfter(c, s, due, i);
      }
    }
  }

  /** No token is further ahead of an even pace from an earlier one than the delays allow. */
  lemma AheadOfPace(c: Setting, s: State, due: int, i: nat)
    requires Sustained(c) && DueInv(c, s) && MayBeDue(c, s, due) && i < |s.due|
    ensures s.times[i] + (|s.due| - i) * INTERVAL <= due + Ahead(c)
  {
    NextIsDueAfter(c, s, due, i);
  }

  /** When a token comes, fewer wait than the buffer holds. */
  lemma RoomAtDispatch(c: Setting, s: State, due: int)
    requires Sustained(c) && Outlasts(c) && Inv(c, s) && Enabled(c, s, Dispatch(due))
    ensures |s.ch.queue| < c.capacity
  {
    if s.ch.queue != [] {
      var head, n := |s.ch.taken|, |s.due|;
      forall i | 0 <= i <= head ensures s.times[i] + (n - i) * INTERVAL <= due + Ahead(c) {
        AheadOfPace(c, s, due, i);
      }
      PaceBounded(s.times, n, due + Ahead(c), head);
      assert s.now <= Latest(c, s.times, head);
      assert |s.ch.queue| * INTERVAL <= Ahead(c) + c.pickUp;
    }
  }

  lemma QueueGrows(ch: Channel)
    requires |ch.queue| < ch.capacity
    ensures Dispatched(ch) == ch.(next := ch.next + 1, queue := ch.queue + [ch.next])
  {
  }

  lemma DispatchKeepsTime(c: Setting, s: State, due: int)
    requires Sustained(c) && Inv(c, s) && Enabled(c, s, Dispatch(due)) && |s.ch.queue| < c.capacity
    ensures NothingLost(c, Next(c, s, Dispatch(due))) && InTime(c, Next(c, s, Dispatch(due)))
  {
    var s' := Next(c, s, Dispatch(due));
    QueueGrows(s.ch);
    forall j: nat | j < |s.times| ensures Latest(c, s'.times, j) == Latest(c, s.times, j) {
      PaceStays(s.times, s.now, j);
    }
    PaceSpaced(s'.times, |s.times|, |s.times|);
    forall j: nat | |s.ch.taken| <= j < |s'.times| ensures s'.now <= Latest(c, s'.times, j) {
      assert j < |s.times| ==> s.now <= Latest(c, s.times, j);
    }
  }

  lemma DispatchKeepsInv(c: Setting, s: State, due: int)
    requires Sustained(c) && Outlasts(c) && Inv(c, s) && Enabled(c, s, Dispatch(due))
    ensures Inv(c, Next(c, s, Dispatch(due)))
  {
    RoomAtDispatch(c, s, due);
    DispatchKeepsDue(c, s, due);
    DispatchKeepsTime(c, s, due);
  }

  // ---------- Workers ----------

  lemma SameDue(c: Setting, s: State, s': State)
    requires DueInv(c, s) && s'.due == s.due && s'.times == s.times
    ensures DueInv(c, s')
  {
    assert forall i: nat, j: nat :: i < j < |s.due| ==> DueAfter(c, s', i, j) == DueAfter(c, s, i, j);
  }

  lemma PickUpKeepsInv(c: Setting, s: State)
    requires Sustained(c) && Inv(c, s) && Enabled(c, s, PickUp)
    ensures Inv(c, Next(c, s, PickUp))
  {
    PickUpKeepsCount(c, s);
    PickUpKeepsTime(c, s);
    SameDue(c, s, Next(c, s, PickUp));
  }

  lemma PickUpKeepsCount(c: Setting, s: State)
    requires NothingLost(c, s) && Enabled(c, s, PickUp)
    ensures NothingLost(c, Next(c, s, PickUp))
    ensures Next(c, s, PickUp).running == s.running[|s.ch.taken| := s.now]
  {
    var head := |s.ch.taken|;
    assert s.ch.queue[0] == head && head !in s.running;
    assert |s.running[head := s.now]| == |s.running| + 1;
  }

  lemma PickUpKeepsTime(c: Setting, s: State)
    requires Sustained(c) && Inv(c, s) && Enabled(c, s, PickUp) && NothingLost(c, Next(c, s, PickUp))
    requires Next(c, s, PickUp).running == s.running[|s.ch.taken| := s.now]
    ensures InTime(c, Next(c, s, PickUp))
  {
    assert s.now <= Latest(c, s.times, |s.ch.taken|);
  }

  /** The i-th worker to become free does so by the deadline of token i: among the first tokens one is still running. */
  lemma FreeKeepsInv(c: Setting, s: State, token: nat)
    requires Sustained(c) && Inv(c, s) && Enabled(c, s, Free(token))
    ensures Inv(c, Next(c, s, Free(token)))
  {
    FreeKeepsCount(c, s, token);
    FreeKeepsTime(c, s, token);
    SameDue(c, s, Next(c, s, Free(token)));
  }

  lemma FreeKeepsCount(c: Setting, s: State, token: nat)
    requires NothingLost(c, s) && token in s.running
    ensures NothingLost(c, Next(c, s, Free(token)))
  {
    assert (s.running - {token}).Keys == s.running.Keys - {token};
    assert |(s.running - {token}).Keys| == |s.running.Keys| - 1;
  }

  lemma FreeKeepsTime(c: Setting, s: State, token: nat)
    requires Sustained(c) && Inv(c, s) && token in s.running
    requires NothingLost(c, Next(c, s, Free(token)))
    ensures InTime(c, Next(c, s, Free(token)))
  {
    OneIsStillRunning(c, s);
    var s' := Next(c, s, Free(token));
    forall i | 0 <= i < |s'.freed| ensures s'.freed[i] <= Latest(c, s'.times, i) + c.timeout {
      assert i < |s.freed| ==> s.freed[i] <= Latest(c, s.times, i) + c.timeout;
    }
  }

  lemma OneIsStillRunning(c: Setting, s: State)
    requires Sustained(c) && Inv(c, s) && s.running != map[]
    ensures |s.freed| < |s.times| && s.now <= Latest(c, s.times, |s.freed|) + c.timeout
  {
    var i := |s.freed|;
    assert |s.running.Keys| >= 1 by {
      var t :| t in s.running;
    }
    var k := OldestRunning(s.running.Keys, |s.ch.taken|, |s.running|);
    PaceSpaced(s.times, k, i);
  }

  lemma StepKeepsInv(c: Setting, s: State, act: Act)
    requires Sustained(c) && Outlasts(c) && Inv(c, s) && Enabled(c, s, act)
    ensures Inv(c, Next(c, s, act))
  {
    match act
    case Wait(dt) => WaitKeepsInv(c, s, dt);
    case Dispatch(due) => DispatchKeepsInv(c, s, due);
    case PickUp => PickUpKeepsInv(c, s);
    case Free(token) => FreeKeepsInv(c, s, token);
  }

  lemma {:induction false} RunInv(c: Setting, acts: seq<Act>, ss: seq<State>, k: nat)
    requires Sustained(c) && Outlasts(c) && IsRun(c, acts, ss) && k < |ss|
    ensures Inv(c, ss[k])
  {
    if k == 0 {
      InitInv(c);
    } else {
      RunInv(c, acts, ss, k - 1);
      assert StepAt(c, acts, ss, k - 1);
      StepKeepsInv(c, ss[k - 1], acts[k - 1]);
    }
  }

  /**
   A buffer that outlasts the delays never overflows, however late tokens are dispatched, and every token begins
   within the pick-up delay of an even pace.
   */
  lemma BufferAbsorbsJitter(c: Setting, acts: seq<Act>, ss: seq<State>, k: nat)
    requires Sustained(c) && Outlasts(c) && IsRun(c, acts, ss) && k < |ss|
    ensures ss[k].ch.dropped == []
    ensures forall t :: t in ss[k].running ==> t < |ss[k].times| && ss[k].running[t] <= Pace(ss[k].times, t) + c.pickUp
  {
    RunInv(c, acts, ss, k);
  }

  // ---------- A smaller buffer overflows ----------

  lemma Extend(c: Setting, acts: seq<Act>, ss: seq<State>, act: Act) returns (acts': seq<Act>, ss': seq<State>)
    requires IsRun(c, acts, ss) && Enabled(c, ss[|acts|], act)
    ensures IsRun(c, acts', ss') && |ss'| == |acts'| + 1 && ss'[|acts'|] == Next(c, ss[|acts|], act)
  {
    acts', ss' := acts + [act], ss + [Next(c, ss[|acts|], act)];
    forall k: nat | k < |acts'| ensures StepAt(c, acts', ss', k) {
      assert k < |acts| ==> StepAt(c, acts, ss, k);
    }
  }

  function FirstIds(first: nat, n: nat): (ids: seq<nat>)
    ensures |ids| == n && forall i :: 0 <= i < n ==> ids[i] == first + i
  {
    seq(n, i => first + i)
  }

  /**
   `first` tokens were dispatched and are done.  Of those after them the first was dispatched at `begin`, and
   each later one an interval later, less the time by which that one was ahead; nobody picks up any.
   */
  ghost predicate Asleep(c: Setting, s: State, first: nat, begin: int, n: nat) {
    && s.ch == Channel(c.capacity, first + n, FirstIds(first, n), false, [], s.ch.taken) && |s.ch.taken| == first
    && s.running == map[] && |s.freed| == first && (forall i :: 0 <= i < first ==> s.freed[i] <= begin)
    && |s.due| == |s.times| == first + n && n >= 1
    && (forall i :: first <= i < first + n ==> s.times[i] >= begin)
    && s.now == s.times[first + n - 1] == (if n == 1 then begin else begin + (n - 1) * INTERVAL - Ahead(c))
    && (n > 1 ==> s.due[first + n - 1] == s.now)
    && (n == 1 ==> EarliestDue(c, s.due, s.times, first + 1) == begin + INTERVAL - Ahead(c))
    && DueAtEarliest(c, s)
  }

  /** Time passes until the next token is due. */
  lemma SleepOn(c: Setting, acts: seq<Act>, ss: seq<State>, first: nat, begin: int, n: nat) returns (acts': seq<Act>, ss': seq<State>)
    requires c.late >= 0 && c.pickUp >= 0 && n * INTERVAL <= Ahead(c) + c.pickUp
    requires IsRun(c, acts, ss) && Asleep(c, ss[|acts|], first, begin, n)
    ensures IsRun(c, acts', ss') && ss'[|acts'|] == ss[|acts|].(now := begin + n * INTERVAL - Ahead(c))
  {
    acts', ss' := acts, ss;
    var dt := begin + n * INTERVAL - Ahead(c) - ss[|acts|].now;
    if dt > 0 {
      acts', ss' := Extend(c, acts, ss, Wait(dt));
    }
  }

  lemma SleepGrows(c: Setting, acts: seq<Act>, ss: seq<State>, first: nat, begin: int, n: nat) returns (acts': seq<Act>, ss': seq<State>)
    requires c.late >= 0 && c.pickUp >= 0 && n * INTERVAL <= Ahead(c) + c.pickUp && n < c.capacity
    requires IsRun(c, acts, ss) && Asleep(c, ss[|acts|], first, begin, n)
    ensures IsRun(c, acts', ss') && Asleep(c, ss'[|acts'|], first, begin, n + 1)
  {
    acts', ss' := SleepOn(c, acts, ss, first, begin, n);
    SleepingDue(c, ss[|acts|], first, begin, n);
    acts', ss' := Extend(c, acts', ss', Dispatch(begin + n * INTERVAL - Ahead(c)));
    StaysAsleep(c, ss[|acts|], first, begin, n);
  }

  lemma GrantsEarliest(c: Setting, s: State, due: int, now: int)
    requires DueAtEarliest(c, s) && s.due != [] && due == EarliestDue(c, s.due, s.times, |s.due|)
    ensures DueAtEarliest(c, s.(due := s.due + [due], times := s.times + [now]))
  {
    var due', times' := s.due + [due], s.times + [now];
    forall j: nat | 1 <= j < |due'| ensures IsEarliest(c, due', times', j) {
      assert j < |s.due| ==> IsEarliest(c, s.due, s.times, j);
    }
  }

  /** The next token is due when the dispatcher wakes up for it. */
  lemma SleepingDue(c: Setting, s: State, first: nat, begin: int, n: nat)
    requires Asleep(c, s, first, begin, n)
    ensures EarliestDue(c, s.due, s.times, |s.due|) == begin + n * INTERVAL - Ahead(c)
  {
  }

  lemma StaysAsleep(c: Setting, s: State, first: nat, begin: int, n: nat)
    requires c.late >= 0 && Asleep(c, s, first, begin, n) && n < c.capacity
    ensures var now := begin + n * INTERVAL - Ahead(c);
            Asleep(c, s.(now := now, ch := Dispatched(s.ch), due := s.due + [now], times := s.times + [now]), first, begin, n + 1)
  {
    var now := begin + n * INTERVAL - Ahead(c);
    AheadAtMostInterval(c);
    SleepingDue(c, s, first, begin, n);
    GrantsEarliest(c, s, now, now);
    assert FirstIds(first, n + 1) == FirstIds(first, n) + [first + n];
  }

  lemma {:induction false} SleepingRun(c: Setting, acts: seq<Act>, ss: seq<State>, first: nat, begin: int, n: nat)
    returns (acts': seq<Act>, ss': seq<State>)
    requires c.late >= 0 && c.pickUp >= 0 && 1 <= n <= c.capacity && !Outlasts(c)
    requires IsRun(c, acts, ss) && Asleep(c, ss[|acts|], first, begin, 1)
    ensures IsRun(c, acts', ss') && Asleep(c, ss'[|acts'|], first, begin, n)
  {
    if n == 1 {
      acts', ss' := acts, ss;
    } else {
      acts', ss' := SleepingRun(c, acts, ss, first, begin, n - 1);
      acts', ss' := SleepGrows(c, acts', ss', first, begin, n - 1);
    }
  }

  /** From the first sleeping token on the buffer fills up and overflows. */
  lemma SleepingDrops(c: Setting, acts: seq<Act>, ss: seq<State>, first: nat, begin: int) returns (acts': seq<Act>, ss': seq<State>)
    requires c.late >= 0 && c.pickUp >= 0 && !Outlasts(c) && c.capacity >= 1
    requires IsRun(c, acts, ss) && Asleep(c, ss[|acts|], first, begin, 1)
    ensures IsRun(c, acts', ss') && ss'[|acts'|].ch.dropped != [] && DueAtEarliest(c, ss'[|acts'|])
  {
    acts', ss' := SleepingRun(c, acts, ss, first, begin, c.capacity);
    var s, due := ss'[|acts'|], begin + c.capacity * INTERVAL - Ahead(c);
    acts', ss' := SleepOn(c, acts', ss', first, begin, c.capacity);
    SleepingDue(c, s, first, begin, c.capacity);
    GrantsEarliest(c, s, due, due);
    acts', ss' := Extend(c, acts', ss', Dispatch(begin + c.capacity * INTERVAL - Ahead(c)));
  }

  lemma AheadAtMostInterval(c: Setting)
    requires c.late >= 0
    ensures 0 <= Ahead(c) <= INTERVAL
  {
  }

  /** Without a ramp-up, or when the ramp leaves less than a late token: the limiter's first token is late. */
  lemma LateTokenRun(c: Setting) returns (acts: seq<Act>, ss: seq<State>)
    requires c.late >= 0 && c.pickUp >= 0 && c.ramp <= 0 && c.capacity >= 1
    ensures IsRun(c, acts, ss) && Asleep(c, ss[|acts|], 0, Ahead(c), 1)
  {
    AheadAtMostInterval(c);
    acts, ss := [], [Init(c)];
    if Ahead(c) > 0 {
      acts, ss := Extend(c, acts, ss, Wait(Ahead(c)));
    }
    acts, ss := Extend(c, acts, ss, Dispatch(0));
    assert [] + [0 as nat] == FirstIds(0, 1);
  }

  /** With a short ramp the ramp-up's own token is the one ahead. */
  lemma ShortRampRun(c: Setting) returns (acts: seq<Act>, ss: seq<State>)
    requires c.late >= 0 && c.pickUp >= 0 && c.ramp > 0 && c.capacity >= 1 && Ahead(c) == INTERVAL - c.ramp
    ensures IsRun(c, acts, ss) && Asleep(c, ss[|acts|], 0, 0, 1)
  {
    acts, ss := [], [Init(c)];
    acts, ss := Extend(c, acts, ss, Dispatch(0));
    assert [] + [0 as nat] == FirstIds(0, 1);
  }

  /** The ramp-up's token is dispatched, picked up and done at once, if there is a worker. */
  lemma RampTokenDone(c: Setting) returns (acts: seq<Act>, ss: seq<State>)
    requires c.late >= 0 && c.ramp > 0 && c.capacity >= 1 && c.workers >= 1
    ensures IsRun(c, acts, ss) && ss[|acts|] == Moment(Channel(c.capacity, 1, [], false, [], [0]), 0, [0], [0], map[], [0])
  {
    acts, ss := [], [Init(c)];
    acts, ss := Extend(c, acts, ss, Dispatch(0));
    assert [] + [0 as nat] == [0] && [] + [0] == [0] && [0 as nat][1..] == [];
    acts, ss := Extend(c, acts, ss, PickUp);
    assert map[][0 as nat := 0] == map[0 := 0];
    acts, ss := Extend(c, acts, ss, Free(0));
    assert map[0 as nat := 0] - {0} == map[];
  }

  /** After a longer ramp the limiter's first token is late, as without one. */
  lemma LateAfterRampRun(c: Setting) returns (acts: seq<Act>, ss: seq<State>)
    requires c.late >= 0 && c.pickUp >= 0 && c.ramp > 0 && c.capacity >= 1 && c.workers >= 1
    requires Ahead(c) == Min(c.late, INTERVAL)
    ensures IsRun(c, acts, ss) && Asleep(c, ss[|acts|], 1, c.ramp + Ahead(c), 1)
  {
    acts, ss := RampTokenDone(c);
    acts, ss := Extend(c, acts, ss, Wait(c.ramp + Ahead(c)));
    acts, ss := Extend(c, acts, ss, Dispatch(c.ramp));
    assert [] + [1 as nat] == FirstIds(1, 1);
  }

  /**
   The bound is exact: a buffer that does not outlast the delays overflows in some run, however many workers
   there are, and with a limiter that grants every token as early as it can.
   */
  lemma SmallerBufferDrops(c: Setting) returns (acts: seq<Act>, ss: seq<State>)
    requires c.late >= 0 && c.pickUp >= 0 && c.workers >= 1 && !Outlasts(c)
    ensures IsRun(c, acts, ss) && ss[|acts|].ch.dropped != [] && DueAtEarliest(c, ss[|acts|])
  {
    if c.capacity == 0 {
      acts, ss := [], [Init(c)];
      acts, ss := Extend(c, acts, ss, Dispatch(0));
    } else if c.ramp <= 0 {
      acts, ss := LateTokenRun(c);
      acts, ss := SleepingDrops(c, acts, ss, 0, Ahead(c));
    } else if Ahead(c) == INTERVAL - c.ramp {
      acts, ss := ShortRampRun(c);
      acts, ss := SleepingDrops(c, acts, ss, 0, 0);
    } else {
      acts, ss := LateAfterRampRun(c);
      acts, ss := SleepingDrops(c, acts, ss, 1, c.ramp + Ahead(c));
    }
  }

  // ---------- The configured buffer ----------

  /** A scenario's workers, buffer and ramp, with delays given in nanoseconds. */
  function SettingOf(sc: Scenario, late: int, pickUp: int): Setting
    requires sc.maxVUs > 0
  {
    Setting(sc.maxVUs, Units(sc, sc.vuTimeout), Units(sc, late), Units(sc, pickUp), BurstBuffer(sc),
            if sc.rampUp > 0 then RemainingRamp(sc) else 0)
  }

  /** The automatic buffer absorbs delays that stay below two seconds, of dispatch delays at most an interval counted. */
  lemma DefaultBufferAbsorbs(sc: Scenario, late: int, pickUp: int)
    requires Validate(sc).Success? && sc.burstBuffer == 0
    requires Ahead(SettingOf(sc, late, pickUp)) + Units(sc, pickUp) < Units(sc, 2 * SECOND)
    ensures Outlasts(SettingOf(sc, late, pickUp))
  {
  }

  /** So dispatch delays of any length are absorbed if pick-up delays stay an interval short of two seconds. */
  lemma AnyDispatchDelayAbsorbed(sc: Scenario, late: int, pickUp: int)
    requires Validate(sc).Success? && sc.burstBuffer == 0 && late >= 0 && Units(sc, pickUp) + INTERVAL < Units(sc, 2 * SECOND)
    ensures Outlasts(SettingOf(sc, late, pickUp))
  {
    UnitsNonNegative(sc, late);
    if sc.rampUp > 0 { RemainingRampPositive(sc); }
    AheadAtMostInterval(SettingOf(sc, late, pickUp));
    DefaultBufferAbsorbs(sc, late, pickUp);
  }

  /** A scenario whose pool would be accepted for a timeout longer by the pick-up delay never drops under such delays. */
  lemma AcceptedWithDelayNeverDrops(sc: Scenario, late: int, pickUp: int, acts: seq<Act>, ss: seq<State>, k: nat)
    requires Validate(sc).Success? && sc.vuTimeout > 0 && late >= 0 && pickUp >= 0
    requires Validate(sc.(vuTimeout := sc.vuTimeout + pickUp)).Success?
    requires Outlasts(SettingOf(sc, late, pickUp))
    requires IsRun(SettingOf(sc, late, pickUp), acts, ss) && k < |ss|
    ensures ss[k].ch.dropped == []
  {
    SustainedWithDelay(sc, late, pickUp);
    BufferAbsorbsJitter(SettingOf(sc, late, pickUp), acts, ss, k);
  }

  lemma SustainedWithDelay(sc: Scenario, late: int, pickUp: int)
    requires Validate(sc).Success? && sc.vuTimeout > 0 && late >= 0 && pickUp >= 0
    requires Validate(sc.(vuTimeout := sc.vuTimeout + pickUp)).Success?
    ensures Sustained(SettingOf(sc, late, pickUp))
  {
    AcceptedIffSustained(sc.(vuTimeout := sc.vuTimeout + pickUp));
    UnitsAdd(sc, sc.vuTimeout, pickUp);
    UnitsNonNegative(sc, sc.vuTimeout);
    UnitsNonNegative(sc, pickUp);
    UnitsNonNegative(sc, late);
  }

  lemma UnitsAdd(sc: Scenario, a: int, b: int)
    ensures Units(sc, a + b) == Units(sc, a) + Units(sc, b)
  {
  }

  lemma UnitsNonNegative(sc: Scenario, d: int)
    requires sc.targetTPS > 0 && d >= 0
    ensures Units(sc, d) >= 0
  {
  }
}
