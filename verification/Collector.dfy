/** The registry and the collector as objects, each call running alone. */
module Collector {
  import opened Wrappers
  import opened Strings
  import opened TagKeys
  import opened MetricStore

  datatype TypeCollision = TypeCollision(name: string, existing: MetricType, requested: MetricType)

  predicate TakenByOther(names: Names, name: string, typ: MetricType) {
    name in names && names[name] != typ
  }

  /** The names after registering one; the first registration decides a name's type. */
  function WithName(names: Names, name: string, typ: MetricType): Names {
    if name in names then names else names[name := typ]
  }

  class Registry {
    var readMap: Names

    constructor ()
      ensures readMap == BUILT_IN
    {
      readMap := BUILT_IN;
    }

    method Register(name: string, typ: MetricType) returns (r: Result<(), TypeCollision>)
      modifies this
      ensures r.Failure? <==> TakenByOther(old(readMap), name, typ)
      ensures r.Failure? ==> r.error == TypeCollision(name, old(readMap)[name], typ)
      ensures readMap == WithName(old(readMap), name, typ)
    {
      if name in readMap {
        if readMap[name] != typ {
          return Failure(TypeCollision(name, readMap[name], typ));
        }
        return Success(());
      }
      var newMap := readMap;
      newMap := newMap[name := typ];
      readMap := newMap;
      return Success(());
    }

    method TypeOf(name: string) returns (typ: Option<MetricType>)
      ensures typ == if name in readMap then Some(readMap[name]) else None
    {
      if name in readMap {
        return Some(readMap[name]);
      }
      return None;
    }

    /** Exactly the names of the type, in order and without repetition, whatever order the map is ranged over. */
    method NamesByType(typ: MetricType) returns (names: seq<string>)
      ensures SortedStrings(names) && Distinct(names)
      ensures forall n :: n in names <==> n in readMap && readMap[n] == typ
    {
      names := [];
      var left := readMap.Keys;
      while left != {}
        invariant left <= readMap.Keys && Distinct(names)
        invariant forall n :: n in names <==> n in readMap && n !in left && readMap[n] == typ
        decreases |left|
      {
        var name :| name in left;
        if readMap[name] == typ {
          names := names + [name];
        }
        left := left - {name};
      }
      SortDistinct(names);
      names := SortStrings(names);
    }
  }

  /** What a creating call does to the published maps: nothing for a known key or a foreign name. */
  function AfterCreate(stores: map<MetricType, Handles>, names: Names, typ: MetricType, key: MetricKey, handle: nat): map<MetricType, Handles>
    requires typ in stores
  {
    if key in stores[typ] || TakenByOther(names, key.name, typ) then stores
    else stores[typ := WithHandle(stores[typ], key, handle)]
  }

  function NamesAfterCreate(stores: map<MetricType, Handles>, names: Names, typ: MetricType, key: MetricKey): Names
    requires typ in stores
  {
    if key in stores[typ] then names else WithName(names, key.name, typ)
  }

  /** The handle, or nothing when the call panics. */
  function CreateResult(stores: map<MetricType, Handles>, names: Names, typ: MetricType, key: MetricKey, handle: nat): Option<nat>
    requires typ in stores
  {
    if key in stores[typ] then Some(stores[typ][key])
    else if TakenByOther(names, key.name, typ) then None
    else Some(handle)
  }

  class MetricCollector {
    const registry: Registry
    var stores: map<MetricType, Handles>
    var created: nat

    constructor ()
      ensures stores == NO_STORES && created == 0 && fresh(registry) && registry.readMap == BUILT_IN
    {
      registry := new Registry();
      stores := NO_STORES;
      created := 0;
    }

    /** Counter, Gauge, Duration and Rate; a Failure stands for the panic of MustRegister. */
    method GetOrCreate(typ: MetricType, name: string, tags: Tags) returns (r: Result<nat, TypeCollision>, ghost key: MetricKey)
      requires typ in stores
      modifies this, registry
      ensures key.name == name && Canonical(key.tagsKey, tags)
      ensures stores == AfterCreate(old(stores), old(registry.readMap), typ, key, old(created))
      ensures registry.readMap == NamesAfterCreate(old(stores), old(registry.readMap), typ, key)
      ensures (match r case Success(h) => Some(h) case Failure(_) => None) == CreateResult(old(stores), old(registry.readMap), typ, key, old(created))
      ensures r.Failure? ==> r.error == TypeCollision(name, old(registry.readMap)[name], typ)
    {
      var k := MakeKey(name, tags);
      key := k;
      var m := stores[typ];
      if k in m {
        return Success(m[k]), key;
      }
      var registered := registry.Register(name, typ);
      if registered.Failure? {
        return Failure(registered.error), key;
      }
      var handle := created;
      created := created + 1;
      stores := stores[typ := WithHandle(m, k, handle)];
      return Success(handle), key;
    }
  }

  // ---------- The interleaved calls refine these ----------

  /** The i-th call's steps, until it has finished or must wait. */
  function RunAlone(s: State, i: nat): (s': State)
    requires i < |s.calls|
    ensures |s'.calls| == |s.calls|
    decreases StepsLeft(s.calls[i].pc)
  {
    if Enabled(s, Step(i)) then
      StepDescends(s, i);
      RunAlone(CallStep(s, i), i)
    else s
  }

  lemma RunsOn(s: State, i: nat)
    requires i < |s.calls| && Enabled(s, Step(i))
    ensures |CallStep(s, i).calls| == |s.calls| && RunAlone(s, i) == RunAlone(CallStep(s, i), i)
  {
    StepDescends(s, i);
  }

  /** What an undisturbed call ends with. */
  ghost predicate Settles(s: State, i: nat, stores: map<MetricType, Handles>, names: Names, pc: PC)
    requires i < |s.calls|
  {
    var s' := RunAlone(s, i);
    && s'.stores == stores && s'.names == names && s'.calls[i].pc == pc
    && s'.locks == s.locks[s.calls[i].typ := None] && s'.regLock == None
  }

  /** Undisturbed, a call registers its name and, unless another type has it, publishes its handle. */
  lemma UndisturbedSlowPath(s: State, i: nat)
    requires Inv(s) && i < |s.calls| && s.calls[i].pc.RegLoad? && s.calls[i].creates && s.regLock == None
    ensures var c := s.calls[i];
            Settles(s, i, AfterCreate(s.stores, s.names, c.typ, c.key, i), WithName(s.names, c.key.name, c.typ),
                    if TakenByOther(s.names, c.key.name, c.typ) then Panicked else Returned(i))
  {
    assert CallInv(s, i);
    var c := s.calls[i];
    if c.key.name !in s.names {
      UndisturbedRegister(s, i);
      UndisturbedPublish(Move(s, i, Copy(c.pc.seen)).(names := s.names[c.key.name := c.typ]), i);
    } else {
      RunsOn(s, i);
      var s1 := CallStep(s, i);
      if s.names[c.key.name] != c.typ {
        RunsOn(s1, i);
      } else {
        UndisturbedPublish(s1, i);
      }
    }
  }

  lemma UndisturbedRegister(s: State, i: nat)
    requires i < |s.calls| && s.calls[i].pc.RegLoad? && s.calls[i].creates && s.regLock == None
    requires s.calls[i].typ in s.stores && s.calls[i].typ in s.locks && s.calls[i].key.name !in s.names
    ensures var c := s.calls[i];
            RunAlone(s, i) == RunAlone(Move(s, i, Copy(c.pc.seen)).(names := s.names[c.key.name := c.typ]), i)
  {
    var c := s.calls[i];
    RunsOn(s, i);
    var s1 := CallStep(s, i);
    RunsOn(s1, i);
    var s2 := CallStep(s1, i);
    RunsOn(s2, i);
    var s3 := CallStep(s2, i);
    RunsOn(s3, i);
    var s4 := CallStep(s3, i);
    RunsOn(s4, i);
    assert CallStep(s4, i) == Move(s, i, Copy(c.pc.seen)).(names := s.names[c.key.name := c.typ]);
  }

  lemma UndisturbedPublish(s: State, i: nat)
    requires i < |s.calls| && s.calls[i].pc.Copy?
    requires s.calls[i].typ in s.stores && s.calls[i].typ in s.locks
    ensures var c := s.calls[i];
            RunAlone(s, i) == Move(s, i, Returned(i)).(stores := s.stores[c.typ := WithHandle(c.pc.seen, c.key, i)], locks := s.locks[c.typ := None])
  {
    var c := s.calls[i];
    var m := WithHandle(c.pc.seen, c.key, i);
    RunsOn(s, i);
    assert CallStep(s, i) == Move(s, i, Publish(m));
    UndisturbedUnlock(Move(s, i, Publish(m)), i);
    assert Move(Move(s, i, Publish(m)), i, Returned(i)) == Move(s, i, Returned(i));
  }

  lemma UndisturbedUnlock(s: State, i: nat)
    requires i < |s.calls| && s.calls[i].pc.Publish?
    requires s.calls[i].typ in s.stores && s.calls[i].typ in s.locks
    ensures var c := s.calls[i];
            RunAlone(s, i) == Move(s, i, Returned(i)).(stores := s.stores[c.typ := c.pc.copy], locks := s.locks[c.typ := None])
  {
    var c := s.calls[i];
    RunsOn(s, i);
    var s1 := CallStep(s, i);
    RunsOn(s1, i);
    assert CallStep(s1, i) == Move(s, i, Returned(i)).(stores := s.stores[c.typ := c.pc.copy], locks := s.locks[c.typ := None]);
  }

  lemma UndisturbedEntry(s: State, i: nat)
    requires Inv(s) && i < |s.calls|
    requires s.calls[i].creates && s.calls[i].pc == FastLoad && s.calls[i].key !in s.stores[s.calls[i].typ]
    requires s.locks[s.calls[i].typ] == None
    ensures var c := s.calls[i];
            var s' := Move(s, i, RegLoad(s.stores[c.typ])).(locks := s.locks[c.typ := Some(i)]);
            Inv(s') && RunAlone(s, i) == RunAlone(s', i)
  {
    var c := s.calls[i];
    RunsOn(s, i);
    StepKeepsInv(s, Step(i));
    var s1 := CallStep(s, i);
    RunsOn(s1, i);
    StepKeepsInv(s1, Step(i));
    var s2 := CallStep(s1, i);
    RunsOn(s2, i);
    StepKeepsInv(s2, Step(i));
    assert CallStep(s2, i) == Move(s, i, RegLoad(s.stores[c.typ])).(locks := s.locks[c.typ := Some(i)]);
  }

  /** A creating call that no other call disturbs does what the object's method does. */
  lemma UndisturbedCreate(s: State, i: nat)
    requires Inv(s) && i < |s.calls|
    requires s.calls[i].creates && s.calls[i].pc == FastLoad
    requires s.locks[s.calls[i].typ] == None && s.regLock == None
    ensures var c := s.calls[i];
            Settles(s, i, AfterCreate(s.stores, s.names, c.typ, c.key, i), NamesAfterCreate(s.stores, s.names, c.typ, c.key),
                    match CreateResult(s.stores, s.names, c.typ, c.key, i) case Some(h) => Returned(h) case None => Panicked)
  {
    var c := s.calls[i];
    if c.key in s.stores[c.typ] {
      RunsOn(s, i);
    } else {
      UndisturbedEntry(s, i);
      UndisturbedSlowPath(Move(s, i, RegLoad(s.stores[c.typ])).(locks := s.locks[c.typ := Some(i)]), i);
    }
  }
}
