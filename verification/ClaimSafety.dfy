/** What holds in every reachable state of the claim protocol. */
module ClaimSafety {
  import opened Wrappers
  import opened HostLock
  import opened ClaimMachine
  import opened ClaimInvariant

  // ---------------------------------------------------------------- no leaked hosts

  /**
   No orphaned claims: whoever unassigns, whatever fails and whenever the process crashes, a
   marked host is named by an existing instance that still carries the inventory finalizer.
   */
  lemma NoOrphanedClaims(init: State, acts: seq<Action>, h: HostId)
    requires Init(init) && ValidRun(init, acts)
    ensures
      var s := After(init, acts);
      h in s.marks && s.marks[h].Some? ==>
        var u := s.marks[h].value;
        u in s.store && s.store[u].invFin && s.store[u].ext == Some(h)
  {
    InitKeeps(init);
    RunKeeps(init, acts);
    assert NoOrphans(After(init, acts));
  }

  /** So one instance never holds two hosts. */
  lemma OneHostPerInstance(init: State, acts: seq<Action>, g: HostId, h: HostId)
    requires Init(init) && ValidRun(init, acts)
    requires g in After(init, acts).marks && h in After(init, acts).marks
    requires After(init, acts).marks[g].Some? && After(init, acts).marks[g] == After(init, acts).marks[h]
    ensures g == h
  {
    NoOrphanedClaims(init, acts, g);
    NoOrphanedClaims(init, acts, h);
  }

  // ---------------------------------------------------------------- pool teardown

  lemma EventKeepsPoolGone(s: State, e: Event, p: PoolUid)
    requires EventEnabled(s, e) && p in s.poolsEver && p !in s.pools
    ensures p in EventApply(s, e).poolsEver && p !in EventApply(s, e).pools
  {
  }

  lemma {:induction false} PoolStaysGone(s: State, acts: seq<Action>, p: PoolUid)
    requires Inv(s) && ValidRun(s, acts) && p in s.poolsEver && p !in s.pools
    ensures p in After(s, acts).poolsEver && p !in After(s, acts).pools
    decreases |acts|
  {
    if acts == [] {
    } else {
      var a := acts[0];
      if a.OwnPool? { PoolStepGuarded(s, a.p, a.pstep); }
      if a.Env? { EventKeepsPoolGone(s, a.event, p); }
      StepKeeps(s, a);
      PoolStaysGone(Apply(s, a), acts[1..], p);
    }
  }

  /**
   Teardown is complete across both controllers and for good: once a pool is gone, then at every
   later moment no instance carries its label and no host is marked by an instance it ever had.
   */
  lemma TeardownComplete(init: State, acts: seq<Action>, more: seq<Action>, p: PoolUid)
    requires Init(init) && ValidRun(init, acts) && ValidRun(After(init, acts), more)
    requires p in After(init, acts).poolsEver && p !in After(init, acts).pools
    ensures
      var s := After(After(init, acts), more);
      && p !in s.pools && Members(s, p) == {}
      && forall h :: h in s.marks && s.marks[h].Some? ==>
           s.marks[h].value in s.lineage && s.lineage[s.marks[h].value] != Some(p)
  {
    InitKeeps(init);
    RunKeeps(init, acts);
    PoolStaysGone(After(init, acts), more, p);
    RunKeeps(After(init, acts), more);
    var s := After(After(init, acts), more);
    forall u ensures u !in Members(s, p) {}
    forall h | h in s.marks && s.marks[h].Some?
      ensures s.marks[h].value in s.lineage && s.lineage[s.marks[h].value] != Some(p)
    {
      var u := s.marks[h].value;
      assert Backed(s, u, h);
      assert u !in Members(s, p);
    }
  }

  // ---------------------------------------------------------------- lock discipline

  /** At most one reconcile is in a host's critical section, and a lock is held exactly meanwhile. */
  lemma MutualExclusion(init: State, acts: seq<Action>, u: Uid, v: Uid, h: HostId)
    requires Init(init) && ValidRun(init, acts)
    ensures
      var s := After(init, acts);
      && (Critical(TaskOf(s, u)) == Some(h) && Critical(TaskOf(s, v)) == Some(h) ==> u == v)
      && (Held(s.locks, h) <==> exists w :: Critical(TaskOf(s, w)) == Some(h))
  {
    InitKeeps(init);
    RunKeeps(init, acts);
    var s := After(init, acts);
    assert LocksOk(s);
    if Held(s.locks, h) { assert Occupied(s, h); }
  }

  /** `u` changes only the lock it takes or gives back, and ends without one. */
  predicate Balanced(s: State, s': State, u: Uid, h: HostId) {
    && (Held(s'.locks, h) && !Held(s.locks, h) <==>
          Critical(TaskOf(s', u)) == Some(h) && Critical(TaskOf(s, u)).None?)
    && (!Held(s'.locks, h) && Held(s.locks, h) <==>
          Critical(TaskOf(s, u)) == Some(h) && Critical(TaskOf(s', u)).None?)
    && (TaskOf(s', u).Idle? && Critical(TaskOf(s, u)) == Some(h) ==> !Held(s'.locks, h))
  }

  lemma EffectBalanced(s: State, u: Uid, e: Effect, h: HostId)
    requires Disciplined(s, TaskOf(s, u), e)
    requires Critical(TaskOf(s, u)).Some? ==> Held(s.locks, Critical(TaskOf(s, u)).value)
    ensures Balanced(s, Perform(s, u, e), u, h)
  {
  }

  lemma LocksBalanced(s: State, u: Uid, step: Step, h: HostId)
    requires Inv(s) && StepEnabled(s, u, step)
    ensures Balanced(s, Perform(s, u, StepEffect(s, u, step)), u, h)
  {
    StepDisciplined(s, u, step);
    assert LocksOk(s);
    EffectBalanced(s, u, StepEffect(s, u, step), h);
  }
}
