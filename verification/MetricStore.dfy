/**
 The lock-free metric store: copy-on-write maps published through atomic pointers, with
 double-checked locking, and the type registry behind them (internal/metric/collector.go and
 registry.go).  Any number of calls interleave at single loads, stores and lock operations.
 */
module MetricStore {
  import opened Wrappers
  import opened TagKeys

  datatype MetricType = CounterType | GaugeType | DurationType | RateType

  /** A published map of one storage: the handle of a key is the number of the call that created it. */
  type Handles = map<MetricKey, nat>

  function WithHandle(m: Handles, key: MetricKey, handle: nat): Handles {
    m[key := handle]
  }

  type Names = map<string, MetricType>

  /**
   GetOrCreate: load, lock, load again, MustRegister, copy and store, unlock.
   Register: load, lock, load again, copy and store, unlock.  A call of Register alone starts at RegLoad.
   */
  datatype PC =
    | FastLoad
    | WantLock
    | SlowLoad
    | RegLoad(seen: Handles)
    | WantRegLock(seen: Handles)
    | RegSlowLoad(seen: Handles)
    | RegStore(seen: Handles, names: Names)
    | RegUnlock(seen: Handles)
    | Copy(seen: Handles)
    | Publish(copy: Handles)
    | Unlock(handle: nat)
    | Unwind
    | Returned(handle: nat)
    | Registered
    | Panicked

  /** `creates` distinguishes Counter, Gauge, Duration and Rate from a call of Register. */
  datatype Call = Call(creates: bool, typ: MetricType, key: MetricKey, pc: PC)

  datatype State = State(stores: map<MetricType, Handles>, locks: map<MetricType, Option<nat>>,
                         names: Names, regLock: Option<nat>, calls: seq<Call>)

  const NO_STORES: map<MetricType, Handles> := map[CounterType := map[], GaugeType := map[], DurationType := map[], RateType := map[]]
  const NO_LOCKS: map<MetricType, Option<nat>> := map[CounterType := None, GaugeType := None, DurationType := None, RateType := None]
  const BUILT_IN: Names := map["vuhive.checks.passed" := CounterType, "vuhive.checks.failed" := CounterType]

  const INIT: State := State(NO_STORES, NO_LOCKS, BUILT_IN, None, [])

  ghost predicate Shaped(s: State) {
    forall t: MetricType :: t in s.stores && t in s.locks
  }

  datatype Act = Begin(creates: bool, typ: MetricType, key: MetricKey) | Step(i: nat)

  predicate Enabled(s: State, act: Act) {
    match act
    case Begin(_, _, _) => true
    case Step(i) =>
      && i < |s.calls|
      && var c := s.calls[i];
         && c.typ in s.stores && c.typ in s.locks
         && match c.pc
            case WantLock => s.locks[c.typ] == None
            case WantRegLock(_) => s.regLock == None
            case Returned(_) => false
            case Registered => false
            case Panicked => false
            case _ => true
  }

  function AfterRegister(c: Call, seen: Handles): PC {
    if c.creates then Copy(seen) else Registered
  }

  function AfterCollision(c: Call): PC {
    if c.creates then Unwind else Panicked
  }

  /** What the i-th call does next. */
  function CallStep(s: State, i: nat): State
    requires Enabled(s, Step(i))
  {
    var c := s.calls[i];
    var key, typ, name := c.key, c.typ, c.key.name;
    match c.pc
    case FastLoad =>
      var m := s.stores[typ];
      Move(s, i, if key in m then Returned(m[key]) else WantLock)
    case WantLock => Move(s, i, SlowLoad).(locks := s.locks[typ := Some(i)])
    case SlowLoad =>
      var m := s.stores[typ];
      Move(s, i, if key in m then Unlock(m[key]) else RegLoad(m))
    case RegLoad(seen) =>
      Move(s, i, if name in s.names then (if s.names[name] == typ then AfterRegister(c, seen) else AfterCollision(c)) else WantRegLock(seen))
    case WantRegLock(seen) => Move(s, i, RegSlowLoad(seen)).(regLock := Some(i))
    case RegSlowLoad(seen) =>
      if name !in s.names then Move(s, i, RegStore(seen, s.names))
      else Move(s, i, if s.names[name] == typ then AfterRegister(c, seen) else AfterCollision(c)).(regLock := None)
    case RegStore(seen, names) => Move(s, i, RegUnlock(seen)).(names := names[name := typ])
    case RegUnlock(seen) => Move(s, i, AfterRegister(c, seen)).(regLock := None)
    case Copy(seen) => Move(s, i, Publish(WithHandle(seen, key, i)))
    case Publish(copy) => Move(s, i, Unlock(i)).(stores := s.stores[typ := copy])
    case Unlock(handle) => Move(s, i, Returned(handle)).(locks := s.locks[typ := None])
    case Unwind => Move(s, i, Panicked).(locks := s.locks[typ := None])
    case _ => s
  }

  function Move(s: State, i: nat, pc: PC): State
    requires i < |s.calls|
  {
    s.(calls := s.calls[i := s.calls[i].(pc := pc)])
  }

  function Next(s: State, act: Act): State
    requires Enabled(s, act)
  {
    match act
    case Begin(creates, typ, key) =>
      s.(calls := s.calls + [Call(creates, typ, key, if creates then FastLoad else RegLoad(map[]))])
    case Step(i) => CallStep(s, i)
  }

  /** How many steps a call can still take. */
  function StepsLeft(pc: PC): nat {
    match pc
    case FastLoad => 11
    case WantLock => 10
    case SlowLoad => 9
    case RegLoad(_) => 8
    case WantRegLock(_) => 7
    case RegSlowLoad(_) => 6
    case RegStore(_, _) => 5
    case RegUnlock(_) => 4
    case Copy(_) => 3
    case Publish(_) => 2
    case Unlock(_) => 1
    case Unwind => 1
    case _ => 0
  }

  lemma StepDescends(s: State, i: nat)
    requires Enabled(s, Step(i))
    ensures var s' := CallStep(s, i);
            |s'.calls| == |s.calls| && StepsLeft(s'.calls[i].pc) < StepsLeft(s.calls[i].pc)
            && s'.calls == s.calls[i := s'.calls[i]]
  {}

  // ---------- Invariant ----------

  /** The call holds its storage's lock. */
  predicate HoldsLock(c: Call) {
    c.creates && match c.pc
      case FastLoad => false
      case WantLock => false
      case Returned(_) => false
      case Registered => false
      case Panicked => false
      case _ => true
  }

  predicate HoldsRegLock(c: Call) {
    c.pc.RegSlowLoad? || c.pc.RegStore? || c.pc.RegUnlock?
  }

  /** A snapshot taken under the lock is still the published map. */
  predicate Fresh(s: State, c: Call, seen: Handles)
    requires c.typ in s.stores
  {
    c.creates ==> seen == s.stores[c.typ] && c.key !in seen
  }

  predicate IsNamed(s: State, c: Call) {
    c.key.name in s.names && s.names[c.key.name] == c.typ
  }

  predicate Collides(s: State, c: Call) {
    c.key.name in s.names && s.names[c.key.name] != c.typ
  }

  ghost predicate CallInv(s: State, i: nat)
    requires i < |s.calls|
  {
    var c := s.calls[i];
    && c.typ in s.stores
    && match c.pc
       case FastLoad => c.creates
       case WantLock => c.creates
       case SlowLoad => c.creates
       case RegLoad(seen) => Fresh(s, c, seen)
       case WantRegLock(seen) => Fresh(s, c, seen)
       case RegSlowLoad(seen) => Fresh(s, c, seen)
       case RegStore(seen, names) => Fresh(s, c, seen) && names == s.names && c.key.name !in names
       case RegUnlock(seen) => Fresh(s, c, seen) && IsNamed(s, c)
       case Copy(seen) => c.creates && Fresh(s, c, seen) && IsNamed(s, c)
       case Publish(copy) => c.creates && c.key !in s.stores[c.typ] && copy == WithHandle(s.stores[c.typ], c.key, i) && IsNamed(s, c)
       case Unlock(h) => c.creates && c.key in s.stores[c.typ] && s.stores[c.typ][c.key] == h
       case Returned(h) => c.creates && c.key in s.stores[c.typ] && s.stores[c.typ][c.key] == h
       case Registered => !c.creates && IsNamed(s, c)
       case Unwind => c.creates && Collides(s, c)
       case Panicked => Collides(s, c)
  }

  ghost predicate StorageLockInv(s: State)
    requires Shaped(s)
  {
    && (forall i: nat :: i < |s.calls| && HoldsLock(s.calls[i]) ==> s.locks[s.calls[i].typ] == Some(i))
    && (forall t: MetricType :: s.locks[t].Some? ==>
         var h := s.locks[t].value; h < |s.calls| && HoldsLock(s.calls[h]) && s.calls[h].typ == t)
  }

  ghost predicate RegLockInv(s: State) {
    && (forall i: nat :: i < |s.calls| && HoldsRegLock(s.calls[i]) ==> s.regLock == Some(i))
    && (s.regLock.Some? ==> s.regLock.value < |s.calls| && HoldsRegLock(s.calls[s.regLock.value]))
  }

  /** A handle belongs to the call that created it, under the name's registered type. */
  ghost predicate EntryInv(s: State, t: MetricType, k: MetricKey)
    requires Shaped(s) && k in s.stores[t]
  {
    var h := s.stores[t][k];
    && k.name in s.names && s.names[k.name] == t
    && h < |s.calls| && s.calls[h].typ == t && s.calls[h].key == k
  }

  ghost predicate StoreInv(s: State)
    requires Shaped(s)
  {
    forall t: MetricType, k :: k in s.stores[t] ==> EntryInv(s, t, k)
  }

  ghost predicate Inv(s: State) {
    && Shaped(s)
    && StorageLockInv(s)
    && RegLockInv(s)
    && StoreInv(s)
    && forall i: nat :: i < |s.calls| ==> CallInv(s, i)
  }

  /** Published maps only grow. */
  ghost predicate Extends(s: State, s': State) {
    && Shaped(s) && Shaped(s')
    && (forall t: MetricType, k :: k in s.stores[t] ==> k in s'.stores[t] && s'.stores[t][k] == s.stores[t][k])
    && (forall n :: n in s.names ==> n in s'.names && s'.names[n] == s.names[n])
    && |s.calls| <= |s'.calls|
    && (forall i: nat :: i < |s.calls| ==> s'.calls[i].typ == s.calls[i].typ && s'.calls[i].key == s.calls[i].key && s'.calls[i].creates == s.calls[i].creates)
  }

  /** A step touches only its own call and, of the shared state, what its lock protects. */
  lemma StepEffect(s: State, i: nat)
    requires Shaped(s) && Enabled(s, Step(i)) && CallInv(s, i)
    ensures var s' := CallStep(s, i);
      var c := s.calls[i];
      && Shaped(s')
      && (exists pc :: s'.calls == s.calls[i := c.(pc := pc)])
      && (s'.stores == s.stores
          || (HoldsLock(c) && c.key !in s.stores[c.typ] && IsNamed(s, c)
              && s'.stores == s.stores[c.typ := WithHandle(s.stores[c.typ], c.key, i)]))
      && (s'.names == s.names
          || (HoldsRegLock(c) && c.key.name !in s.names && s'.names == s.names[c.key.name := c.typ]))
  {
    var s' := CallStep(s, i);
    assert s'.calls == s.calls[i := s.calls[i].(pc := s'.calls[i].pc)];
  }

  /** The storage's lock is kept, taken when free, or released by its holder. */
  lemma LockEffect(s: State, i: nat)
    requires Shaped(s) && Enabled(s, Step(i)) && CallInv(s, i)
    ensures var s' := CallStep(s, i);
      var c, c' := s.calls[i], s'.calls[i];
      || (s'.locks == s.locks && HoldsLock(c') == HoldsLock(c))
      || (s.locks[c.typ] == None && HoldsLock(c') && s'.locks == s.locks[c.typ := Some(i)])
      || (HoldsLock(c) && !HoldsLock(c') && s'.locks == s.locks[c.typ := None])
  {}

  lemma StepExtends(s: State, act: Act)
    requires Inv(s) && Enabled(s, act)
    ensures Extends(s, Next(s, act))
  {
    if act.Step? {
      assert CallInv(s, act.i);
      StepEffect(s, act.i);
    }
  }

  lemma StepKeepsStorageLocks(s: State, i: nat)
    requires Shaped(s) && StorageLockInv(s) && Enabled(s, Step(i)) && CallInv(s, i)
    ensures Shaped(CallStep(s, i)) && StorageLockInv(CallStep(s, i))
  {
    StepEffect(s, i);
    LockEffect(s, i);
  }

  lemma StepKeepsRegLock(s: State, i: nat)
    requires RegLockInv(s) && Enabled(s, Step(i)) && CallInv(s, i)
    ensures RegLockInv(CallStep(s, i))
  {}

  lemma EntryStays(s: State, s': State, t: MetricType, k: MetricKey)
    requires Extends(s, s') && k in s.stores[t] && EntryInv(s, t, k)
    ensures EntryInv(s', t, k)
  {}

  lemma StepKeepsStores(s: State, act: Act)
    requires Inv(s) && Enabled(s, act)
    ensures Shaped(Next(s, act)) && StoreInv(Next(s, act))
  {
    StepExtends(s, act);
    var s' := Next(s, act);
    forall t: MetricType, k | k in s'.stores[t] ensures EntryInv(s', t, k) {
      if k in s.stores[t] {
        EntryStays(s, s', t, k);
      } else {
        assert CallInv(s, act.i);
        StepEffect(s, act.i);
      }
    }
  }

  lemma OwnCallInv(s: State, i: nat)
    requires Inv(s) && Enabled(s, Step(i))
    ensures CallInv(CallStep(s, i), i)
  {
    assert CallInv(s, i);
  }

  lemma OtherCallInv(s: State, i: nat, j: nat)
    requires Inv(s) && Enabled(s, Step(i)) && j < |s.calls| && j != i
    ensures CallInv(CallStep(s, i), j)
  {
    assert CallInv(s, i) && CallInv(s, j);
    StepEffect(s, i);
  }

  lemma StepKeepsInv(s: State, act: Act)
    requires Inv(s) && Enabled(s, act)
    ensures Inv(Next(s, act))
  {
    StepExtends(s, act);
    if act.Step? {
      StepKeepsStorageLocks(s, act.i);
      StepKeepsRegLock(s, act.i);
    }
    StepKeepsStores(s, act);
    var s' := Next(s, act);
    forall j: nat | j < |s'.calls| ensures CallInv(s', j) {
      if act.Step? {
        if j == act.i { OwnCallInv(s, j); } else { OtherCallInv(s, act.i, j); }
      } else if j < |s.calls| {
        assert CallInv(s, j);
      }
    }
  }

  lemma InitInv()
    ensures Inv(INIT)
  {
    forall t: MetricType ensures t in NO_STORES && t in NO_LOCKS && NO_STORES[t] == map[] && NO_LOCKS[t] == None {
      match t case CounterType => case GaugeType => case DurationType => case RateType =>
    }
  }

  lemma StepGrows(s: State, act: Act, s': State)
    requires Inv(s) && Enabled(s, act) && s' == Next(s, act)
    ensures Inv(s') && Extends(s, s')
  {
    StepExtends(s, act);
    StepKeepsInv(s, act);
  }
}
