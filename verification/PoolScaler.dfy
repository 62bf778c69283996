/**
 Scaling of a BareMetalPool (internal/controller/baremetalpool_controller.go): the instances of each
 host type are created or deleted one call at a time, any call may fail, and the status is written
 by a deferred call whatever happened.
 */
module PoolScaler {
  import opened Wrappers
  import opened CallFates
  import opened HostTypes
  import opened PoolGroups

  function Distance(a: int, b: int): nat {
    if a >= b then a - b else b - a
  }

  /** Where a scaling operation started: store, groups, and the calls made before. */
  datatype Origin = Origin(store: Store, groups: Groups, calls: nat)

  class PoolReconciler {
    const pool: PoolRef
    var store: Store                // the API server's instances
    const faults: seq<Outcome>      // fates of the Create and Delete calls; all later ones succeed
    var current: Groups             // currentBareMetalInstances
    var hostSets: seq<HostSet>      // Status.HostSets
    var calls: nat                  // Create and Delete calls made

    constructor (pool: PoolRef, store: Store, faults: seq<Outcome>)
      ensures this.pool == pool && this.store == store && this.faults == faults
      ensures current == map[] && hostSets == [] && calls == 0
    {
      this.pool, this.store, this.faults := pool, store, faults;
      this.current, this.hostSets, this.calls := map[], [], 0;
    }

    method NextFate() returns (o: Outcome)
      modifies this`calls
      ensures o == FateAt(faults, old(calls)) && calls == old(calls) + 1
    {
      o := FateAt(faults, calls);
      calls := calls + 1;
    }

    function NewInstance(t: string): Inst {
      Inst(pool.namespace, Some(pool.uid), t, false, false, false)
    }

    /** createBareMetalInstanceCR: a fresh name, the pool's label and namespace, and the host type. */
    method Create(t: string) returns (ok: bool, ghost lost: bool, ghost n: Name)
      modifies this`store, this`calls
      ensures calls == old(calls) + 1 && Went(faults, old(calls), calls, ok, lost)
      ensures n !in old(store) && store == if ok || lost then old(store)[n := NewInstance(t)] else old(store)
      ensures ok || lost ==>
        store[n] == Inst(pool.namespace, Some(pool.uid), t, deleting := false, finalizers := false, ready := false)
    {
      n := FreshName(store);
      var o := NextFate();
      lost := o.Lost?;
      ok := o.Applied?;
      if !o.Rejected? {
        var name: Name :| name !in store;
        n := name;
        store := store[name := NewInstance(t)];
      }
    }

    /** r.Delete: a missing object is not an error. */
    method Delete(n: Name) returns (ok: bool, ghost lost: bool)
      modifies this`store, this`calls
      ensures calls == old(calls) + 1 && Went(faults, old(calls), calls, ok, lost)
      ensures store == if (ok || lost) && n in old(store) then Deleted(old(store), n) else old(store)
    {
      var o := NextFate();
      lost := o.Lost?;
      ok := o.Applied?;
      if !o.Rejected? && n in store {
        store := if store[n].finalizers then store[n := store[n].(deleting := true)] else store - {n};
      }
    }

    /** The groups hold exactly the live ones among `seen`, each once. */
    ghost predicate Grouped(seen: seq<Name>)
      reads this
    {
      forall t :: GroupOk(store, pool, Entries(current, t), seen, t)
    }

    lemma GroupedNone()
      requires current == map[]
      ensures Grouped([])
    {
      forall t ensures GroupOk(store, pool, Entries(current, t), [], t) {
        assert Entries(current, t) == [];
      }
    }

    /** Once all of the pool's instances are seen, each group names the live ones of its type. */
    lemma GroupedAll(items: seq<Name>)
      requires Grouped(items) && forall n :: n in items <==> n in store && Mine(pool, store[n])
      ensures forall t :: Names(store, pool, Entries(current, t), t)
      ensures AllCounted(pool, store, current)
    {
      forall t ensures Names(store, pool, Entries(current, t), t) && Counts(store, pool, current, t) {
        assert GroupOk(store, pool, Entries(current, t), items, t);
        NamesCount(store, pool, Entries(current, t), t);
      }
    }

    /** Appends an instance to the group of its type, as the list loop does. */
    method Group(n: Name, ghost seen: seq<Name>)
      requires n in store && Mine(pool, store[n]) && n !in seen && Grouped(seen)
      modifies this`current
      ensures Grouped(seen + [n])
      ensures NonEmpty(old(current)) ==> NonEmpty(current)
    {
      forall t ensures
        var es := Entries(current, t);
        GroupOk(store, pool, if n in LiveNames(store, pool, t) then es + [Some(n)] else es, seen + [n], t)
      {
        assert GroupOk(store, pool, Entries(current, t), seen, t);
        GroupExtend(store, pool, Entries(current, t), seen, n, t);
      }
      var item := store[n];
      if item.deleting { return; }
      var hostType := item.hostType;
      current := current[hostType := Entries(current, hostType) + [Some(n)]];
    }

    /** The API server's list of the pool's instances, in an order of its own. */
    method List() returns (items: seq<Name>)
      ensures forall n :: n in items <==>
        n in store && store[n].namespace == pool.namespace && store[n].pool == Some(pool.uid)
      ensures forall i, j :: 0 <= i < j < |items| ==> items[i] != items[j]
    {
      items := [];
      var todo := set n | n in store && Mine(pool, store[n]);
      while todo != {}
        invariant forall n :: n in items || n in todo <==> n in store && Mine(pool, store[n])
        invariant forall n :: n in items ==> n !in todo
        invariant forall i, j :: 0 <= i < j < |items| ==> items[i] != items[j]
        decreases todo
      {
        var n: Name :| n in todo;
        items := items + [n];
        todo := todo - {n};
      }
    }

    /** listAndGroupBareMetalInstances; `items` is the API server's list, in its own order. */
    method ListAndGroup(items: seq<Name>)
      requires forall n :: n in items <==> n in store && Mine(pool, store[n])
      requires forall i, j :: 0 <= i < j < |items| ==> items[i] != items[j]
      modifies this`current
      ensures forall t :: Names(store, pool, Entries(current, t), t)
      ensures AllCounted(pool, store, current)
      ensures NonEmpty(current)
    {
      current := map[];
      GroupedNone();
      for i := 0 to |items|
        invariant NonEmpty(current) && Grouped(items[..i])
      {
        assert items[i] in items;
        assert forall j :: 0 <= j < i ==> items[..i][j] != items[i];
        Group(items[i], items[..i]);
        assert items[..i + 1] == items[..i] + [items[i]];
      }
      assert items[..|items|] == items;
      GroupedAll(items);
    }

    /** Since `o` only type `t` has changed; `ok` and `lost` tell how the last call went. */
    ghost predicate Since(o: Origin, t: string, ok: bool, lost: bool)
      reads this
    {
      Elsewhere(pool, t, o.store, o.groups, store, current) && Went(faults, o.calls, calls, ok, lost)
    }

    function Here(): Origin
      reads this
    {
      Origin(store, current, calls)
    }

    /** One iteration of the scale-up loop, which started at `o`: a success leaves a placeholder in the group. */
    method AddOne(t: string, ghost o: Origin) returns (ok: bool, ghost lost: bool)
      requires Counts(store, pool, current, t) && Since(o, t, true, false)
      modifies this`store, this`calls, this`current
      ensures Since(o, t, ok, lost) && calls == old(calls) + 1
      ensures Counts(store, pool, current, t) <==> !lost
      ensures Entries(current, t) == if ok then Entries(old(current), t) + [None] else Entries(old(current), t)
      ensures NonEmpty(old(current)) ==> NonEmpty(current)
    {
      ghost var before := Here();
      ghost var n;
      ok, lost, n := Create(t);
      if ok {
        current := current[t := Entries(current, t) + [None]];
      }
      if ok || lost {
        CreatedElsewhere(pool, before.store, before.groups, n, NewInstance(t), current);
      }
      ElsewhereTransitive(pool, t, o.store, o.groups, before.store, before.groups, store, current);
      WentOn(faults, o.calls, before.calls, calls, ok, lost);
    }

    method ScaleUp(t: string, delta: int) returns (ok: bool, ghost lost: bool)
      requires delta > 0 && Counts(store, pool, current, t)
      modifies this`store, this`calls, this`current
      ensures Since(old(Here()), t, ok, lost)
      ensures calls - old(calls) <= delta && (ok ==> calls - old(calls) == delta)
      ensures Counts(store, pool, current, t) <==> !lost
      ensures |Entries(current, t)| <= |Entries(old(current), t)| + delta
      ensures ok ==> |Entries(current, t)| == |Entries(old(current), t)| + delta
      ensures NonEmpty(old(current)) ==> NonEmpty(current)
    {
      ghost var o := Here();
      for k := 0 to delta
        invariant Counts(store, pool, current, t)
        invariant |Entries(current, t)| == |Entries(o.groups, t)| + k
        invariant Since(o, t, true, false)
        invariant NonEmpty(o.groups) ==> NonEmpty(current)
        invariant calls == old(calls) + k
      {
        ok, lost := AddOne(t, o);
        if !ok { return; }
      }
      ok, lost := true, false;
    }

    /**
     One iteration of the scale-down loop, which started at `o`: deletes the last instance of a group,
     never a placeholder; an emptied group is dropped.
     */
    method RemoveLast(t: string, ghost o: Origin) returns (ok: bool, ghost lost: bool)
      requires t in current && current[t] != [] && Names(store, pool, current[t], t) && Since(o, t, true, false)
      modifies this`store, this`calls, this`current
      ensures Since(o, t, ok, lost) && calls == old(calls) + 1
      ensures ok ==> Entries(current, t) == old(current)[t][..|old(current)[t]| - 1]
                     && Names(store, pool, Entries(current, t), t)
                     && (t in current <==> |old(current)[t]| > 1)
      ensures !ok ==> current == old(current) && (Counts(store, pool, current, t) <==> !lost)
      ensures NonEmpty(old(current)) ==> NonEmpty(current)
    {
      var lastIdx := |current[t]| - 1;
      var instance := current[t][lastIdx];
      ghost var before := Here();
      NamesDropLast(store, pool, current[t], t);
      NamesCount(store, pool, current[t], t);
      ok, lost := Delete(instance.value);
      if ok || lost {
        DeletedElsewhere(pool, t, before.store, before.groups, instance.value);
      }
      if ok {
        current := current[t := current[t][..lastIdx]];
        if |current[t]| == 0 {
          current := current - {t};
        }
        assert current == WithoutLast(before.groups, t);
        WithoutLastElsewhere(pool, t, before.store, before.groups, store);
      }
      ElsewhereTransitive(pool, t, o.store, o.groups, before.store, before.groups, store, current);
      WentOn(faults, o.calls, before.calls, calls, ok, lost);
    }

    /** Deletes from the end of the group until `replicas` are left. */
    method ScaleDown(t: string, replicas: int) returns (ok: bool, ghost lost: bool)
      requires 0 <= replicas < |Entries(current, t)| <= MAX_INT32
      requires Names(store, pool, Entries(current, t), t) && NonEmpty(current)
      modifies this`store, this`calls, this`current
      ensures Since(old(Here()), t, ok, lost)
      ensures
        var excess := |Entries(old(current), t)| - replicas;
        calls - old(calls) <= excess && (ok ==> calls - old(calls) == excess)
      ensures Counts(store, pool, current, t) <==> !lost
      ensures |Entries(current, t)| <= |Entries(old(current), t)|
      ensures Entries(current, t) == Entries(old(current), t)[..|Entries(current, t)|]
      ensures ok ==> |Entries(current, t)| == replicas && Names(store, pool, Entries(current, t), t)
      ensures NonEmpty(current)
    {
      ghost var o := Here();
      ghost var es := Entries(current, t);
      NamesCount(store, pool, es, t);
      ok, lost := true, false;
      while Int32(|Entries(current, t)|) > replicas
        invariant ok && !lost
        invariant replicas <= |Entries(current, t)| <= |es|
        invariant Entries(current, t) == es[..|Entries(current, t)|]
        invariant Names(store, pool, Entries(current, t), t)
        invariant Since(o, t, true, false)
        invariant NonEmpty(current)
        invariant calls == old(calls) + |es| - |Entries(current, t)|
        decreases |Entries(current, t)|
      {
        ok, lost := RemoveLast(t, o);
        if !ok { return; }
        if t !in current { break; }
      }
      NamesCount(store, pool, Entries(current, t), t);
    }

    /** One iteration of the main loop: brings type `t` to `replicas`. */
    method ReconcileType(t: string, replicas: int) returns (ok: bool, ghost lost: bool)
      requires 0 <= replicas <= MAX_INT32 && |Entries(current, t)| <= MAX_INT32
      requires Names(store, pool, Entries(current, t), t) && NonEmpty(current)
      modifies this`store, this`calls, this`current
      ensures Since(old(Here()), t, ok, lost)
      ensures
        var cost := Distance(|Entries(old(current), t)|, replicas);
        calls - old(calls) <= cost && (ok ==> calls - old(calls) == cost)
      ensures Counts(store, pool, current, t) <==> !lost
      ensures |Entries(current, t)| <= MAX_INT32
      ensures ok ==> |Entries(current, t)| == replicas
      ensures ok && replicas <= |Entries(old(current), t)| ==>
        Names(store, pool, Entries(old(current), t)[..replicas], t)
      ensures NonEmpty(current)
      ensures replicas == |Entries(old(current), t)| ==> store == old(store) && current == old(current)
    {
      NamesCount(store, pool, Entries(current, t), t);
      assert Entries(current, t)[..|Entries(current, t)|] == Entries(current, t);
      var delta := Int32(replicas - Int32(|Entries(current, t)|));
      assert delta == replicas - |Entries(current, t)|;
      if delta > 0 {
        ok, lost := ScaleUp(t, delta);
      } else if delta < 0 {
        ok, lost := ScaleDown(t, replicas);
      } else {
        ok, lost := true, false;
      }
    }

    /** The deletion loop of handleDeletion, which started at `s0` after `a` calls, is `i` items on. */
    ghost predicate Midst(items: seq<Name>, i: nat, s0: Store, a: nat)
      reads this
    {
      && i <= |items| && Shrunk(pool, s0, store)
      && (forall j :: 0 <= j < |items| ==> items[j] in s0 && Mine(pool, s0[items[j]]))
      && (forall j :: i <= j < |items| ==> items[j] in store && store[items[j]] == s0[items[j]])
      && (forall j :: 0 <= j < i && items[j] in store ==> store[items[j]].deleting)
      && a <= calls && Smooth(faults, a, calls) && calls - a + |StillLive(items, i, s0)| == |Undeleted(pool, s0)|
    }

    /** One iteration of it. */
    method DeleteNext(items: seq<Name>, i: nat, ghost s0: Store, ghost a: nat) returns (ok: bool)
      requires i < |items| && Midst(items, i, s0, a)
      requires forall i, j :: 0 <= i < j < |items| ==> items[i] != items[j]
      modifies this`store, this`calls
      ensures ok ==> Midst(items, i + 1, s0, a)
      ensures !ok ==> Shrunk(pool, s0, store) && !Smooth(faults, a, a + |Undeleted(pool, s0)|)
    {
      StillLiveStep(items, i, s0);
      if store[items[i]].deleting { return true; }
      ghost var before, lost := store, false;
      ok, lost := Delete(items[i]);
      if ok || lost { ShrunkDelete(pool, s0, before, items[i]); }
      assert ok == FateAt(faults, calls - 1).Applied?;
    }

    /** The deletion loop of handleDeletion: every listed instance without a deletion timestamp is deleted. */
    method DeleteAll(items: seq<Name>) returns (ok: bool)
      requires forall n :: n in items <==> n in store && Mine(pool, store[n])
      requires forall i, j :: 0 <= i < j < |items| ==> items[i] != items[j]
      modifies this`store, this`calls
      ensures Shrunk(pool, old(store), store)
      ensures ok ==> forall n :: n in store && Mine(pool, store[n]) ==> store[n].deleting
      ensures ok <==> Smooth(faults, old(calls), old(calls) + |Undeleted(pool, old(store))|)
    {
      ghost var s0, a := store, calls;
      assert StillLive(items, 0, s0) == Undeleted(pool, s0);
      for i := 0 to |items|
        invariant Midst(items, i, s0, a)
      {
        ok := DeleteNext(items, i, s0, a);
        if !ok { return; }
      }
      assert StillLive(items, |items|, s0) == {};
      forall n | n in store && Mine(pool, store[n]) ensures store[n].deleting {
        assert KeptOrDeleted(s0, store, n);
        assert n in items;
      }
      ok := true;
    }

    /** desiredReplicas: the spec's host sets, and zero for every other type there is. */
    method BuildDesired(spec: seq<HostSet>) returns (desired: map<string, int>)
      ensures forall t :: t in desired <==> t in current || SpecReplicas(spec, t).Some?
      ensures forall t :: t in desired ==> desired[t] == Desired(spec, t)
    {
      desired := map[];
      for i := 0 to |spec|
        invariant forall t :: t in desired <==> SpecReplicas(spec[..i], t).Some?
        invariant forall t :: t in desired ==> desired[t] == SpecReplicas(spec[..i], t).value
      {
        assert spec[..i + 1][..i] == spec[..i];
        desired := desired[spec[i].hostType := spec[i].replicas];
      }
      assert spec[..|spec|] == spec;
      var todo := current.Keys;
      while todo != {}
        invariant todo <= current.Keys
        invariant forall t :: t in desired <==> (t in current && t !in todo) || SpecReplicas(spec, t).Some?
        invariant forall t :: t in desired ==> desired[t] == Desired(spec, t)
        decreases todo
      {
        var t :| t in todo;
        if t !in desired {
          desired := desired[t := 0];
        }
        todo := todo - {t};
      }
    }

    /** The loop of updateStatusHostSets: one entry for every group, in any order. */
    method CountGroups() returns (updated: seq<HostSet>)
      requires NonEmpty(current) && AllSmall(current)
      ensures DistinctTypes(updated)
      ensures forall x :: x in updated ==> x.hostType in current && x.replicas == |current[x.hostType]|
      ensures forall t :: t in current ==> HostSet(t, |current[t]|) in updated
    {
      updated := [];
      var todo := current.Keys;
      while todo != {}
        invariant todo <= current.Keys
        invariant DistinctTypes(updated)
        invariant forall x :: x in updated ==>
          x.hostType in current && x.hostType !in todo && x.replicas == |current[x.hostType]|
        invariant forall t :: t in current && t !in todo ==> HostSet(t, |current[t]|) in updated
        decreases todo
      {
        var t :| t in todo;
        assert |Entries(current, t)| <= MAX_INT32;
        if |current[t]| > 0 {
          updated := updated + [HostSet(t, Int32(|current[t]|))];
        }
        todo := todo - {t};
      }
    }

    /** updateStatusHostSets. */
    method UpdateStatusHostSets()
      requires NonEmpty(current) && AllSmall(current)
      modifies this`hostSets
      ensures StrictlySorted(hostSets)
      ensures forall t :: Reports(hostSets, t, |Entries(current, t)|)
      ensures forall x :: x in hostSets ==> x.replicas > 0
    {
      var updated := CountGroups();
      hostSets := SortSlice(updated);
      forall x ensures x in hostSets <==> x in updated {
        assert x in multiset(hostSets) <==> x in multiset(updated);
      }
    }

    /** The main loop, which started at `o`, with `todo` ahead of it. */
    ghost predicate Midway(o: Origin, spec: seq<HostSet>, todo: set<string>)
      reads this
    {
      && Progress(pool, spec, todo, o.store, o.groups, store, current) && NonEmpty(current)
      && Went(faults, o.calls, calls, true, false)
      && calls + CostOf(pool, o.store, spec, todo) == o.calls + Work(pool, o.store, spec)
      && (Matches(pool, o.store, spec) ==> store == o.store && current == o.groups && calls == o.calls)
    }

    /** What the main loop leaves behind. */
    ghost predicate Scaled(o: Origin, spec: seq<HostSet>, ok: bool, lost: bool)
      reads this
    {
      var w := Work(pool, o.store, spec);
      && NonEmpty(current) && AllSmall(current) && Framed(pool, o.store, store)
      && calls <= o.calls + w && (ok ==> calls == o.calls + w) && Went(faults, o.calls, calls, ok, lost)
      && (AllCounted(pool, store, current) <==> !lost)
      && (ok ==> AllDone(pool, spec, o.groups, store, current))
      && (Matches(pool, o.store, spec) ==> ok && store == o.store && calls == o.calls)
    }

    /** The body of the main loop. */
    method ScaleNext(t: string, replicas: int,
                     ghost o: Origin, ghost spec: seq<HostSet>, ghost todo: set<string>)
      returns (ok: bool, ghost lost: bool)
      requires t in todo && ValidSpec(spec) && replicas == Desired(spec, t) && AllListed(pool, o.store, o.groups)
      requires Midway(o, spec, todo)
      modifies this`store, this`calls, this`current
      ensures lost ==> !ok
      ensures if ok then Midway(o, spec, todo - {t}) else Scaled(o, spec, ok, lost)
    {
      ghost var s, g, c := store, current, calls;
      ProgressReady(pool, spec, todo, t, o.store, o.groups, s, g);
      CostRemove(pool, o.store, spec, todo, t);
      ok, lost := ReconcileType(t, replicas);
      WentOn(faults, o.calls, c, calls, ok, lost);
      if ok {
        ProgressStep(pool, spec, todo, t, o.store, o.groups, s, g, store, current);
      } else {
        ProgressBroken(pool, spec, todo, t, o.store, o.groups, s, g, store, current);
      }
    }

    /** BuildDesired has found all types there are. */
    lemma AllTypes(spec: seq<HostSet>, desired: map<string, int>)
      requires AllListed(pool, store, current) && NonEmpty(current)
      requires forall t :: t in desired <==> t in current || SpecReplicas(spec, t).Some?
      ensures desired.Keys == Types(pool, store, spec)
    {
      forall t ensures t in desired <==> t in Types(pool, store, spec) {
        TypesListed(pool, store, current, spec, t);
      }
    }

    lemma MidwayStart(o: Origin, spec: seq<HostSet>, desired: map<string, int>)
      requires o == Here() && AllListed(pool, store, current) && NonEmpty(current)
      requires forall t :: t in desired <==> t in current || SpecReplicas(spec, t).Some?
      ensures Midway(o, spec, desired.Keys)
    {
      AllTypes(spec, desired);
      ProgressStart(pool, spec, desired.Keys, store, current);
    }

    lemma MidwayEnd(o: Origin, spec: seq<HostSet>)
      requires Midway(o, spec, {})
      ensures Scaled(o, spec, true, false)
    {
      ProgressEnd(pool, spec, o.store, o.groups, store, current);
    }

    /** The main loop over the desired types, in any order. */
    method ScaleAll(spec: seq<HostSet>) returns (ok: bool, ghost lost: bool)
      requires AllListed(pool, store, current)
      requires NonEmpty(current) && ValidSpec(spec)
      modifies this`store, this`calls, this`current
      ensures Scaled(old(Here()), spec, ok, lost)
    {
      ghost var o := Here();
      var desired := BuildDesired(spec);
      MidwayStart(o, spec, desired);
      var todo := desired.Keys;
      ok, lost := true, false;
      while todo != {}
        invariant ok && !lost && todo <= desired.Keys
        invariant Midway(o, spec, todo)
        decreases todo
      {
        var t :| t in todo;
        ok, lost := ScaleNext(t, desired[t], o, spec, todo);
        if !ok { return; }
        todo := todo - {t};
      }
      MidwayEnd(o, spec);
    }

    /** The status reports the live count of every type. */
    ghost predicate StatusExact()
      reads this
    {
      forall t :: Reports(hostSets, t, |LiveNames(store, pool, t)|)
    }

    /** A status that reports the groups is exact if and only if the groups are. */
    lemma StatusOfGroups()
      requires forall t :: Reports(hostSets, t, |Entries(current, t)|)
      ensures StatusExact() <==> AllCounted(pool, store, current)
    {
      if StatusExact() {
        forall t ensures Counts(store, pool, current, t) {
          assert Reports(hostSets, t, |LiveNames(store, pool, t)|);
          ReportsUnique(hostSets, t, |Entries(current, t)|, |LiveNames(store, pool, t)|);
        }
      }
      if AllCounted(pool, store, current) {
        forall t ensures Reports(hostSets, t, |LiveNames(store, pool, t)|) {
          assert Counts(store, pool, current, t);
        }
      }
    }

    /** Success means that every type has what the spec asks for. */
    lemma DoneMatches(spec: seq<HostSet>, g0: Groups)
      requires AllDone(pool, spec, g0, store, current) && AllCounted(pool, store, current)
      ensures Matches(pool, store, spec)
    {
      forall t ensures |LiveNames(store, pool, t)| == Desired(spec, t) {
        assert Counts(store, pool, current, t) && Done(pool, store, current, g0, Desired(spec, t), t);
      }
    }

    /**
     reconcileBareMetalInstances with its deferred status write. With work for `w` calls it succeeds
     exactly if the next `w` calls do. Whatever the order of the types and wherever a call fails, the
     status is sorted and has positive counts only; it equals the live counts exactly unless the
     first of these calls that is not acknowledged has landed.
     */
    method ReconcileInstances(spec: seq<HostSet>) returns (ok: bool)
      requires AllListed(pool, store, current)
      requires NonEmpty(current) && ValidSpec(spec)
      modifies this
      ensures ok <==> Smooth(faults, old(calls), old(calls) + Work(pool, old(store), spec))
      ensures StatusExact() <==> !LosesWrite(faults, old(calls), old(calls) + Work(pool, old(store), spec))
      ensures StrictlySorted(hostSets) && forall x :: x in hostSets ==> x.replicas > 0
      ensures ok ==> Matches(pool, store, spec)
      ensures ok ==> AllDone(pool, spec, old(current), store, current)
      ensures Framed(pool, old(store), store)
      ensures Matches(pool, old(store), spec) ==> ok && store == old(store) && calls == old(calls)
    {
      ghost var lost, w := false, Work(pool, store, spec);
      ok, lost := ScaleAll(spec);
      WentDecides(faults, old(calls), calls, w, ok, lost);
      UpdateStatusHostSets();
      StatusOfGroups();
      if ok { DoneMatches(spec, old(current)); }
    }
  }

  /** An empty pool that wants one instance, with a Create that lands and is reported as failed: the status is wrong. */
  method LostCreateMiscounts() returns (r: PoolReconciler, ok: bool)
    ensures !ok && !r.StatusExact()
  {
    var spec := [HostSet("a", 1)];
    r := new PoolReconciler(PoolRef(0, 0), map[], [Lost]);
    assert LiveNames(r.store, r.pool, "a") == {};
    assert Types(r.pool, r.store, spec) == {"a"};
    CostRemove(r.pool, r.store, spec, {"a"}, "a");
    assert FateAt(r.faults, 0).Lost? && Smooth(r.faults, 0, 0);
    forall t ensures Names(r.store, r.pool, Entries(r.current, t), t) {}
    ok := r.ReconcileInstances(spec);
  }
}
