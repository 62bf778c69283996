/**
 The pool controller and the pool steps of ClaimMachine: what PoolUpdater does to the pool's finalizer and
 instances, the machine does in a run of the pool's reconcile. A name stands for the UID of its object.
 */
module ClaimPools {
  import opened Wrappers
  import opened ClaimMachine
  import opened ClaimRuns
  import G = PoolGroups
  import H = HostTypes
  import U = PoolUpdate

  // ---------------------------------------------------------------- the two views

  /** The same instance, as the API server keeps it. */
  predicate SameInstance(i: G.Inst, obj: Instance) {
    i.deleting == obj.deleting && i.finalizers == (obj.invFin || obj.mgmtFin)
  }

  /** One member and one object show the same. */
  predicate SameAt(pool: G.PoolRef, store: G.Store, s: State, p: PoolUid, n: nat) {
    && (n in store && G.Mine(pool, store[n]) <==> n in s.store && s.store[n].pool == Some(p))
    && (n in store && G.Mine(pool, store[n]) ==> SameInstance(store[n], s.store[n]))
  }

  /** The pool's instances are those of the machine's pool `p`. */
  ghost predicate SameMembers(pool: G.PoolRef, store: G.Store, s: State, p: PoolUid) {
    forall n: nat :: SameAt(pool, store, s, p, n)
  }

  ghost predicate Mirrors(up: U.PoolUpdater, s: State, p: PoolUid)
    reads up, up.scaler
  {
    && SameMembers(up.scaler.pool, up.scaler.store, s, p)
    && p in s.pools && s.pools[p].fin == up.fin
  }

  lemma SameEmpty(pool: G.PoolRef, store: G.Store, s: State, p: PoolUid)
    requires SameMembers(pool, store, s, p)
    ensures U.MemberNames(pool, store) == {} <==> Members(s, p) == {}
  {
    forall n: nat ensures n in U.MemberNames(pool, store) <==> n in Members(s, p) {
      assert SameAt(pool, store, s, p, n);
    }
  }

  // ---------------------------------------------------------------- deletions

  /** What a Delete of `u` leaves of it. */
  function AfterDelete(s: State, u: Uid): Option<Instance>
    requires u in s.store
  {
    Stored(EventApply(s, RequestDelete(u)), u)
  }

  /** Of all instances, each of `us` is deleted in `t`, and nothing else differs. */
  ghost predicate AllDeleted(s: State, us: set<Uid>, t: State) {
    forall u :: Stored(t, u) == if u in us && u in s.store then AfterDelete(s, u) else Stored(s, u)
  }

  lemma DeleteOne(s: State, us: set<Uid>, t: State, u: Uid)
    requires AllDeleted(s, us - {u}, t) && u in us && u in s.store
    ensures u in t.store && AllDeleted(s, us, EventApply(t, RequestDelete(u)))
  {
    assert Stored(t, u) == Stored(s, u);
    var t' := EventApply(t, RequestDelete(u));
    forall v ensures Stored(t', v) == if v in us && v in s.store then AfterDelete(s, v) else Stored(s, v) {
      assert v != u ==> Stored(t', v) == Stored(t, v);
    }
  }

  lemma {:induction false} DeleteEach(s: State, us: set<Uid>) returns (acts: seq<Action>)
    requires forall u :: u in us ==> u in s.store
    ensures ValidRun(s, acts) && AllDeleted(s, us, After(s, acts))
    ensures After(s, acts) == s.(store := After(s, acts).store)
    ensures forall a :: a in acts ==> a.Env? && a.event.RequestDelete? && a.event.u in us
    decreases us
  {
    if us == {} {
      acts := [];
    } else {
      var u :| u in us;
      acts := DeleteEach(s, us - {u});
      DeleteOne(s, us, After(s, acts), u);
      Extend(s, acts, Env(RequestDelete(u)));
      acts := acts + [Env(RequestDelete(u))];
    }
  }

  /** The members that the pool controller has deleted. */
  ghost function Deleted(pool: G.PoolRef, before: G.Store, after: G.Store): set<Uid> {
    set n | n in before && G.Mine(pool, before[n]) && !(n in after && after[n] == before[n])
  }

  lemma DeletedAt(pool: G.PoolRef, before: G.Store, after: G.Store, s: State, t: State, p: PoolUid, n: nat)
    requires SameAt(pool, before, s, p, n) && G.KeptOrDeleted(before, after, n)
    requires n in before && !G.Mine(pool, before[n]) ==> n in after && after[n] == before[n]
    requires Stored(t, n) ==
      if n in Deleted(pool, before, after) && n in s.store then AfterDelete(s, n) else Stored(s, n)
    ensures SameAt(pool, after, t, p, n)
  {
  }

  lemma DeletedMirror(pool: G.PoolRef, before: G.Store, after: G.Store, s: State, t: State, p: PoolUid)
    requires SameMembers(pool, before, s, p) && G.Shrunk(pool, before, after)
    requires AllDeleted(s, Deleted(pool, before, after), t)
    ensures SameMembers(pool, after, t, p)
  {
    forall n: nat ensures SameAt(pool, after, t, p, n) {
      assert SameAt(pool, before, s, p, n) && G.KeptOrDeleted(before, after, n);
      assert Stored(t, n) ==
        if n in Deleted(pool, before, after) && n in s.store then AfterDelete(s, n) else Stored(s, n);
      DeletedAt(pool, before, after, s, t, p, n);
    }
  }

  /** One Delete by the scaler. */
  lemma DeleteMirrors(pool: G.PoolRef, store: G.Store, s: State, p: PoolUid, n: nat)
    requires SameMembers(pool, store, s, p) && n in store && G.Mine(pool, store[n])
    ensures n in s.store && SameMembers(pool, G.Deleted(store, n), EventApply(s, RequestDelete(n)), p)
  {
    assert SameAt(pool, store, s, p, n);
    var store', s' := G.Deleted(store, n), EventApply(s, RequestDelete(n));
    forall m: nat ensures SameAt(pool, store', s', p, m) {
      assert SameAt(pool, store, s, p, m);
    }
  }

  /** One Create by the scaler, under a fresh name; the machine allows it while the pool is scaling. */
  lemma CreateMirrors(pool: G.PoolRef, store: G.Store, s: State, p: PoolUid, n: nat, i: G.Inst, matching: set<HostId>)
    requires SameMembers(pool, store, s, p) && pool.uid == p && PoolTaskOf(s, p).Scaling?
    requires n !in store && n !in s.store && n !in s.lineage
    requires G.Mine(pool, i) && !i.deleting && !i.finalizers
    ensures EventEnabled(s, CreateInstance(n, Some(p), matching))
    ensures SameMembers(pool, store[n := i], EventApply(s, CreateInstance(n, Some(p), matching)), p)
  {
    var store', s' := store[n := i], EventApply(s, CreateInstance(n, Some(p), matching));
    forall m: nat ensures SameAt(pool, store', s', p, m) {
      assert SameAt(pool, store, s, p, m);
    }
  }

  // ---------------------------------------------------------------- the handlers

  /** A step of the pool's own reconcile, or the deletion of one of its instances. */
  predicate OfDeletion(a: Action, p: PoolUid, members: set<Uid>) {
    match a
    case OwnPool(q, _) => q == p
    case Env(RequestDelete(u)) => u in members
    case _ => false
  }

  lemma PoolStepRun(s: State, p: PoolUid, step: PoolStep)
    requires PoolStepEnabled(s, p, step)
    ensures ValidRun(s, [OwnPool(p, step)])
    ensures After(s, [OwnPool(p, step)]) == PoolPerform(s, p, PoolStepEffect(s, p, step))
  {
    Extend(s, [], OwnPool(p, step));
    assert [] + [OwnPool(p, step)] == [OwnPool(p, step)];
  }

  /** The run for a list that came back empty. */
  lemma EmptyRun(s: State, p: PoolUid, last: PoolStep) returns (acts: seq<Action>)
    requires p in s.pools && s.pools[p].deleting && s.pools[p].fin && PoolTaskOf(s, p) == Emptying(s.pools[p])
    requires Members(s, p) == {} && (last.EndPool? || last.DropPoolFinalizer?)
    ensures acts == [OwnPool(p, ListInstances), OwnPool(p, last)] && ValidRun(s, acts)
    ensures
      var t := After(s, acts);
      && t.store == s.store && PoolTaskOf(t, p).PoolIdle?
      && (p in t.pools <==> last.EndPool? || last.out.Rejected?) && (p in t.pools ==> t.pools[p].fin)
  {
    PoolStepRun(s, p, ListInstances);
    var s1 := After(s, [OwnPool(p, ListInstances)]);
    Extend(s, [OwnPool(p, ListInstances)], OwnPool(p, last));
    acts := [OwnPool(p, ListInstances)] + [OwnPool(p, last)];
  }

  /** The run for a list that did not. */
  lemma BusyRun(s: State, p: PoolUid, us: set<Uid>) returns (acts: seq<Action>)
    requires p in s.pools && PoolTaskOf(s, p) == Emptying(s.pools[p]) && Members(s, p) != {} && us <= Members(s, p)
    ensures ValidRun(s, acts) && forall a :: a in acts ==> OfDeletion(a, p, us)
    ensures
      var t := After(s, acts);
      AllDeleted(s, us, t) && PoolTaskOf(t, p).PoolIdle? && t.pools == s.pools
  {
    PoolStepRun(s, p, ListInstances);
    var first := [OwnPool(p, ListInstances)];
    var s1 := After(s, first);
    var rest := DeleteEach(s1, us);
    Compose(s, first, rest);
    acts := first + rest;
    forall u ensures Stored(After(s1, rest), u) == if u in us && u in s.store then AfterDelete(s, u) else Stored(s, u) {
      assert Stored(s1, u) == Stored(s, u);
    }
  }

  /**
   handleDeletion is a run of the machine's pool reconcile: the finalizer goes in the one exactly if it
   goes in the other, and the instances left are the same.
   */
  method HandleDeletion(up: U.PoolUpdater, r: U.DeletionReplies, ghost s: State, ghost p: PoolUid)
    returns (ghost acts: seq<Action>)
    requires up.Valid() && Mirrors(up, s, p)
    requires s.pools[p].deleting && s.pools[p].fin && PoolTaskOf(s, p) == Emptying(s.pools[p])
    modifies up, up.scaler
    ensures ValidRun(s, acts) && forall a :: a in acts ==> OfDeletion(a, p, Members(s, p))
    ensures
      var t := After(s, acts);
      && SameMembers(up.scaler.pool, up.scaler.store, t, p) && PoolTaskOf(t, p).PoolIdle?
      && (up.fin <==> p in t.pools) && (p in t.pools ==> t.pools[p].fin)
  {
    ghost var before := up.scaler.store;
    ghost var pool := up.scaler.pool;
    var result, err := up.HandleDeletion(r);
    SameEmpty(pool, before, s, p);
    ghost var us := Deleted(pool, before, up.scaler.store);
    forall n | n in us ensures n in Members(s, p) {
      assert SameAt(pool, before, s, p, n);
    }
    if !r.listed {
      PoolStepRun(s, p, EndPool);
      acts := [OwnPool(p, EndPool)];
    } else if Members(s, p) == {} {
      assert us == {};
      acts := EmptyRun(s, p, if U.TornDown(r) then DropPoolFinalizer(r.finalizer) else EndPool);
    } else {
      acts := BusyRun(s, p, us);
    }
    ghost var t := After(s, acts);
    assert us == {} || AllDeleted(s, us, t);
    if us == {} {
      forall u ensures Stored(t, u) == Stored(s, u) {}
    }
    DeletedMirror(pool, before, up.scaler.store, s, t, p);
  }

  /**
   handleUpdate up to the scaling is a run of the machine's pool reconcile, with the same finalizer; and
   it creates or deletes instances only if the machine's reconcile has got to the scaling, too.
   */
  method HandleUpdate(up: U.PoolUpdater, spec: seq<H.HostSet>, r: U.PoolReplies, ghost s: State, ghost p: PoolUid)
    returns (ghost acts: seq<Action>)
    requires up.Valid() && Mirrors(up, s, p) && G.ValidSpec(spec) && U.Countable(up.scaler.pool, up.scaler.store)
    requires !s.pools[p].deleting && PoolTaskOf(s, p) == Growing(s.pools[p])
    modifies up, up.scaler
    ensures ValidRun(s, acts) && forall a :: a in acts ==> a.OwnPool? && a.p == p
    ensures
      var t := After(s, acts);
      && t.store == s.store && p in t.pools && t.pools[p].fin == up.fin
      && (up.scaler.store != old(up.scaler.store) ==> PoolTaskOf(t, p).Scaling?)
  {
    ghost var step := if U.Checked(r) then AddPoolFinalizer(if up.fin then Applied else r.finalizer) else EndPool;
    PoolStepRun(s, p, step);
    acts := [OwnPool(p, step)];
    var result, err := up.HandleUpdate(spec, r);
  }

  // ---------------------------------------------------------------- a pool's whole life

  /** A new pool, its finalizer and its first instance. */
  lemma PoolGrows(s: State, p: PoolUid, u: Uid) returns (acts: seq<Action>)
    requires p !in s.poolsEver && p !in s.pools && PoolTaskOf(s, p).PoolIdle? && u !in s.lineage
    ensures ValidRun(s, acts)
    ensures
      var t := After(s, acts);
      && PoolTaskOf(t, p).PoolIdle? && p in t.poolsEver && p in t.pools && t.pools[p] == Pool(1, false, true)
      && t.store == s.store[u := Instance(0, Some(p), false, false, false, None, false)]
      && t.lineage == s.lineage[u := Some(p)]
  {
    var a, b, c := Env(CreatePool(p)), OwnPool(p, StartPool), OwnPool(p, AddPoolFinalizer(Applied));
    var s1 := Apply(s, a);
    var s2 := Apply(s1, b);
    Chain3(s, a, b, c, s1, s2);
    var s3 := After(s, [a, b, c]);
    var d, e := Env(CreateInstance(u, Some(p), {})), OwnPool(p, EndPool);
    Chain2(s3, d, e, Apply(s3, d));
    Compose(s, [a, b, c], [d, e]);
    acts := [a, b, c] + [d, e];
  }

  /** The deletion of a pool that has one instance, which nobody has fulfilled yet. */
  lemma PoolGoes(s: State, p: PoolUid, u: Uid) returns (acts: seq<Action>)
    requires PoolTaskOf(s, p).PoolIdle? && p in s.pools && s.pools[p].fin && Members(s, p) == {u}
    requires !s.store[u].invFin && !s.store[u].mgmtFin
    ensures ValidRun(s, acts)
    ensures
      var t := After(s, acts);
      p !in t.pools && (p in s.poolsEver <==> p in t.poolsEver) && t.store == s.store - {u} && t.lineage == s.lineage
  {
    var a, b, c := Env(RequestDelete(u)), Env(RequestPoolDelete(p)), OwnPool(p, StartPool);
    var s1 := Apply(s, a);
    assert s1.store == s.store - {u};
    var s2 := Apply(s1, b);
    Chain3(s, a, b, c, s1, s2);
    var s3 := After(s, [a, b, c]);
    assert Members(s3, p) == {} by {
      assert forall v :: v in Members(s3, p) ==> v in Members(s, p) && v != u;
    }
    var d, e := OwnPool(p, ListInstances), OwnPool(p, DropPoolFinalizer(Applied));
    Chain2(s3, d, e, Apply(s3, d));
    Compose(s, [a, b, c], [d, e]);
    acts := [a, b, c] + [d, e];
  }

  /** TeardownComplete is not idle: from the empty cluster, any pool can come, have any instance, and go. */
  lemma PoolLives(init: State, p: PoolUid, u: Uid) returns (acts: seq<Action>)
    requires Init(init)
    ensures ValidRun(init, acts)
    ensures
      var t := After(init, acts);
      && p in t.poolsEver && p !in t.pools
      && u in t.lineage && t.lineage[u] == Some(p) && u !in t.store
  {
    var one := PoolGrows(init, p, u);
    var s := After(init, one);
    assert Members(s, p) == {u};
    var two := PoolGoes(s, p, u);
    Compose(init, one, two);
    acts := one + two;
  }
}
