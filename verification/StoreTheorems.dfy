/** What every interleaving of registry and store calls guarantees to their callers. */
module StoreTheorems {
  import opened TagKeys
  import opened MetricStore

  ghost predicate StepAt(acts: seq<Act>, ss: seq<State>, k: nat)
    requires |ss| == |acts| + 1 && k < |acts|
  {
    Enabled(ss[k], acts[k]) && ss[k + 1] == Next(ss[k], acts[k])
  }

  /** `ss` is the sequence of states the actions `acts` lead through. */
  ghost predicate IsRun(acts: seq<Act>, ss: seq<State>) {
    |ss| == |acts| + 1 && ss[0] == INIT && forall k: nat :: k < |acts| ==> StepAt(acts, ss, k)
  }

  lemma {:induction false} RunInv(acts: seq<Act>, ss: seq<State>, k: nat)
    requires IsRun(acts, ss) && k < |ss|
    ensures Inv(ss[k])
  {
    if k == 0 {
      InitInv();
    } else {
      RunInv(acts, ss, k - 1);
      RunStepGrows(acts, ss, k - 1);
    }
  }

  lemma RunStepGrows(acts: seq<Act>, ss: seq<State>, k: nat)
    requires IsRun(acts, ss) && k < |acts| && Inv(ss[k])
    ensures Inv(ss[k + 1]) && Extends(ss[k], ss[k + 1])
  {
    assert StepAt(acts, ss, k);
    StepGrows(ss[k], acts[k], ss[k + 1]);
  }

  lemma RunShaped(acts: seq<Act>, ss: seq<State>, k: nat)
    requires IsRun(acts, ss) && k < |ss|
    ensures Shaped(ss[k])
  {
    RunInv(acts, ss, k);
  }

  lemma RunStepExtends(acts: seq<Act>, ss: seq<State>, k: nat)
    requires IsRun(acts, ss) && k < |acts|
    ensures Extends(ss[k], ss[k + 1])
  {
    RunInv(acts, ss, k);
    RunStepGrows(acts, ss, k);
  }

  /** Published maps only grow: no key's handle and no name's type is ever replaced or lost. */
  lemma {:induction false} MapsOnlyGrow(acts: seq<Act>, ss: seq<State>, j: nat, k: nat)
    requires IsRun(acts, ss) && j <= k < |ss|
    ensures Extends(ss[j], ss[k])
  {
    if j == k {
      RunShaped(acts, ss, j);
    } else {
      MapsOnlyGrow(acts, ss, j, k - 1);
      RunStepExtends(acts, ss, k - 1);
      ExtendsTransitive(ss[j], ss[k - 1], ss[k]);
    }
  }

  lemma ExtendsTransitive(a: State, b: State, c: State)
    requires Extends(a, b) && Extends(b, c)
    ensures Extends(a, c)
  {}

  /** What a caller holds is published under its key, from then on. */
  lemma ReturnedIsPublished(acts: seq<Act>, ss: seq<State>, j: nat, k: nat, i: nat)
    requires IsRun(acts, ss) && j <= k < |ss| && i < |ss[j].calls| && ss[j].calls[i].pc.Returned?
    ensures var c := ss[j].calls[i];
            && c.typ in ss[k].stores && c.key in ss[k].stores[c.typ]
            && ss[k].stores[c.typ][c.key] == c.pc.handle
  {
    RunInv(acts, ss, j);
    assert CallInv(ss[j], i);
    MapsOnlyGrow(acts, ss, j, k);
  }

  lemma HandlesIdentifyKeys(s: State, t: MetricType, k: MetricKey, t': MetricType, k': MetricKey)
    requires Inv(s) && k in s.stores[t] && k' in s.stores[t']
    ensures s.stores[t][k] == s.stores[t'][k'] ==> t == t' && k == k'
  {}

  /** Two callers, at whatever moments they return, share a handle exactly if they asked for the same metric. */
  lemma OneHandlePerKey(acts: seq<Act>, ss: seq<State>, p: nat, i: nat, q: nat, j: nat)
    requires IsRun(acts, ss) && p < |ss| && q < |ss|
    requires i < |ss[p].calls| && ss[p].calls[i].pc.Returned?
    requires j < |ss[q].calls| && ss[q].calls[j].pc.Returned?
    ensures var a, b := ss[p].calls[i], ss[q].calls[j];
            a.pc.handle == b.pc.handle <==> a.typ == b.typ && a.key == b.key
  {
    var last := |acts|;
    ReturnedIsPublished(acts, ss, p, last, i);
    ReturnedIsPublished(acts, ss, q, last, j);
    RunInv(acts, ss, last);
    HandlesIdentifyKeys(ss[last], ss[p].calls[i].typ, ss[p].calls[i].key, ss[q].calls[j].typ, ss[q].calls[j].key);
  }

  /** Asking twice for a name with tags gives one handle exactly if the tags are the same map. */
  lemma OneHandlePerTags(acts: seq<Act>, ss: seq<State>, p: nat, i: nat, q: nat, j: nat, name: string, s: Tags, t: Tags)
    requires IsRun(acts, ss) && p < |ss| && q < |ss|
    requires i < |ss[p].calls| && ss[p].calls[i].pc.Returned?
    requires j < |ss[q].calls| && ss[q].calls[j].pc.Returned?
    requires ss[p].calls[i].typ == ss[q].calls[j].typ
    requires ss[p].calls[i].key.name == name && Canonical(ss[p].calls[i].key.tagsKey, s) && Separable(s)
    requires ss[q].calls[j].key.name == name && Canonical(ss[q].calls[j].key.tagsKey, t) && Separable(t)
    ensures ss[p].calls[i].pc.handle == ss[q].calls[j].pc.handle <==> s == t
  {
    var a, b := ss[p].calls[i].key.tagsKey, ss[q].calls[j].key.tagsKey;
    OneHandlePerKey(acts, ss, p, i, q, j);
    if a == b {
      KeysInjective(a, s, t);
    } else if s == t {
      CanonicalUnique(a, b, s);
    }
  }

  /** No metric name ever appears in two of the four storages. */
  lemma NamesHaveOneStorage(acts: seq<Act>, ss: seq<State>, p: nat, q: nat, t: MetricType, k: MetricKey, t': MetricType, k': MetricKey)
    requires IsRun(acts, ss) && p < |ss| && q < |ss|
    requires t in ss[p].stores && k in ss[p].stores[t]
    requires t' in ss[q].stores && k' in ss[q].stores[t']
    requires k.name == k'.name
    ensures t == t'
  {
    var last := |acts|;
    MapsOnlyGrow(acts, ss, p, last);
    MapsOnlyGrow(acts, ss, q, last);
    RunInv(acts, ss, last);
    assert k in ss[last].stores[t] && k' in ss[last].stores[t'];
  }

  /** A type collision publishes nothing: not by the call that panics, not before it, not ever. */
  lemma CollisionPublishesNothing(acts: seq<Act>, ss: seq<State>, p: nat, i: nat, q: nat, key: MetricKey)
    requires IsRun(acts, ss) && p < |ss| && q < |ss|
    requires i < |ss[p].calls| && ss[p].calls[i].pc.Panicked? && key.name == ss[p].calls[i].key.name
    ensures var typ := ss[p].calls[i].typ;
            && typ in ss[q].stores && key !in ss[q].stores[typ]
  {
    var last := |acts|;
    RunInv(acts, ss, p);
    assert CallInv(ss[p], i);
    MapsOnlyGrow(acts, ss, p, last);
    MapsOnlyGrow(acts, ss, q, last);
    RunInv(acts, ss, last);
    var typ := ss[p].calls[i].typ;
  }

  predicate Finished(c: Call) {
    c.pc.Returned? || c.pc.Registered? || c.pc.Panicked?
  }

  /** A finished call succeeded exactly if its name belongs to its type, now and in every later state. */
  lemma OutcomeIsDecidedByTheName(acts: seq<Act>, ss: seq<State>, p: nat, q: nat, i: nat)
    requires IsRun(acts, ss) && p <= q < |ss| && i < |ss[p].calls| && Finished(ss[p].calls[i])
    ensures var c := ss[p].calls[i];
            && c.key.name in ss[q].names
            && (!c.pc.Panicked? <==> ss[q].names[c.key.name] == c.typ)
            && (c.pc.Returned? ==> c.creates) && (c.pc.Registered? ==> !c.creates)
  {
    RunInv(acts, ss, p);
    assert CallInv(ss[p], i);
    MapsOnlyGrow(acts, ss, p, q);
  }

  // ---------- The fast path ----------

  /** Nothing that other calls see has changed. */
  predicate SameButFor(s: State, s': State, i: nat) {
    && s'.stores == s.stores && s'.locks == s.locks && s'.names == s.names && s'.regLock == s.regLock
    && |s'.calls| == |s.calls| && forall j :: 0 <= j < |s.calls| && j != i ==> s'.calls[j] == s.calls[j]
  }

  /**
   Once a caller has been given a handle, every later call for the same metric is given the same one in a single
   step, whoever holds the locks, and leaves no trace.
   */
  lemma SecondCallNeedsNoLock(acts: seq<Act>, ss: seq<State>, p: nat, i: nat, q: nat, j: nat)
    requires IsRun(acts, ss) && p <= q < |ss| && i < |ss[p].calls| && ss[p].calls[i].pc.Returned?
    requires j < |ss[q].calls| && ss[q].calls[j].pc == FastLoad
    requires ss[q].calls[j].typ == ss[p].calls[i].typ && ss[q].calls[j].key == ss[p].calls[i].key
    ensures Enabled(ss[q], Step(j))
    ensures Next(ss[q], Step(j)).calls[j].pc == Returned(ss[p].calls[i].pc.handle) && SameButFor(ss[q], Next(ss[q], Step(j)), j)
  {
    ReturnedIsPublished(acts, ss, p, q, i);
    RunInv(acts, ss, q);
  }

  /** A name that is registered once never needs the registry's lock again. */
  lemma RegisteredNameNeedsNoLock(acts: seq<Act>, ss: seq<State>, p: nat, q: nat, j: nat)
    requires IsRun(acts, ss) && p <= q < |ss| && j < |ss[q].calls| && ss[q].calls[j].pc.RegLoad?
    requires ss[q].calls[j].key.name in ss[p].names
    ensures Enabled(ss[q], Step(j)) && SameButFor(ss[q], Next(ss[q], Step(j)), j)
    ensures var pc := Next(ss[q], Step(j)).calls[j].pc;
            if ss[p].names[ss[q].calls[j].key.name] == ss[q].calls[j].typ then pc.Copy? || pc.Registered? else pc.Unwind? || pc.Panicked?
  {
    MapsOnlyGrow(acts, ss, p, q);
    RunInv(acts, ss, q);
    assert CallInv(ss[q], j);
  }

  // ---------- Progress ----------

  /** While a call is unfinished some call can move: the two levels of locks cannot deadlock. */
  lemma NoDeadlock(acts: seq<Act>, ss: seq<State>, k: nat, i: nat)
    requires IsRun(acts, ss) && k < |ss| && i < |ss[k].calls| && !Finished(ss[k].calls[i])
    ensures exists j: nat :: Enabled(ss[k], Step(j))
  {
    var s := ss[k];
    RunInv(acts, ss, k);
    if !Enabled(s, Step(i)) {
      var holder := if s.calls[i].pc.WantLock? then s.locks[s.calls[i].typ].value else i;
      if !Enabled(s, Step(holder)) {
        assert s.calls[holder].pc.WantRegLock?;
        assert Enabled(s, Step(s.regLock.value));
      }
    }
  }

  function AllStepsLeft(calls: seq<Call>): nat {
    if calls == [] then 0 else StepsLeft(calls[0].pc) + AllStepsLeft(calls[1..])
  }

  lemma {:induction false} StepsLeftUpdate(calls: seq<Call>, i: nat, c: Call)
    requires i < |calls|
    ensures AllStepsLeft(calls[i := c]) == AllStepsLeft(calls) - StepsLeft(calls[i].pc) + StepsLeft(c.pc)
  {
    if i > 0 {
      assert calls[i := c][1..] == calls[1..][i - 1 := c];
      StepsLeftUpdate(calls[1..], i - 1, c);
    } else {
      assert calls[0 := c][1..] == calls[1..];
    }
  }

  lemma {:induction false} StepsLeftAppend(calls: seq<Call>, c: Call)
    ensures AllStepsLeft(calls + [c]) == AllStepsLeft(calls) + StepsLeft(c.pc)
  {
    if calls != [] {
      assert (calls + [c])[1..] == calls[1..] + [c];
      StepsLeftAppend(calls[1..], c);
    } else {
      assert (calls + [c])[1..] == [];
    }
  }

  function Steps(acts: seq<Act>): nat {
    if acts == [] then 0 else Steps(acts[..|acts| - 1]) + (if acts[|acts| - 1].Step? then 1 else 0)
  }

  /** No call loops: whatever the interleaving, n calls take at most 11 n steps. */
  lemma {:induction false} RunsAreBounded(acts: seq<Act>, ss: seq<State>, k: nat)
    requires IsRun(acts, ss) && k < |ss|
    ensures Steps(acts[..k]) + AllStepsLeft(ss[k].calls) <= 11 * |ss[k].calls|
    ensures k == Steps(acts[..k]) + |ss[k].calls|
  {
    if k > 0 {
      RunsAreBounded(acts, ss, k - 1);
      assert StepAt(acts, ss, k - 1);
      assert acts[..k][..k - 1] == acts[..k - 1];
      var s, s' := ss[k - 1], ss[k];
      match acts[k - 1]
      case Begin(creates, typ, key) =>
        StepsLeftAppend(s.calls, s'.calls[|s.calls|]);
      case Step(i) =>
        StepDescends(s, i);
        StepsLeftUpdate(s.calls, i, s'.calls[i]);
    }
  }
}
