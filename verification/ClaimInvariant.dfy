/** What every step of the claim protocol keeps. */
module ClaimInvariant {
  import opened Wrappers
  import opened HostLock
  import opened ClaimMachine

  /** The in-memory copy agrees with the stored object wherever only this reconcile may write. */
  predicate Snapshot(s: State, u: Uid, obj: Instance) {
    && u in s.lineage
    && (if u in s.store then
          var cur := s.store[u];
          && obj.rv <= cur.rv && (obj.rv == cur.rv ==> cur == obj)
          && cur.(rv := obj.rv, deleting := obj.deleting) == obj
          && (obj.deleting ==> cur.deleting)
        else !obj.invFin && !obj.mgmtFin)
  }

  predicate Fresh(obj: Instance) {
    !obj.deleting && !obj.classed
  }

  predicate OnHost(s: State, obj: Instance, h: HostId) {
    obj.invFin && obj.ext == Some(h)
  }

  /** What the reconcile of `u` has established when it stands at `t`. */
  predicate TaskOk(s: State, u: Uid, t: Task) {
    match t
    case Idle => true
    case Unlocking(h) => u in s.lineage
    case Inventory(obj) => Snapshot(s, u, obj) && Fresh(obj)
    case Found(obj, h) => Snapshot(s, u, obj) && Fresh(obj) && obj.invFin && obj.ext.None? && h in s.marks
    case Locked(obj, h) => Snapshot(s, u, obj) && Fresh(obj) && OnHost(s, obj, h)
    case Writing(obj, h) =>
      && Snapshot(s, u, obj) && Fresh(obj) && OnHost(s, obj, h)
      && h in s.marks && Claimable(s.marks[h], u)
    case Taken(obj, h) =>
      && Snapshot(s, u, obj) && Fresh(obj) && OnHost(s, obj, h)
      && h in s.marks && !Claimable(s.marks[h], u)
    case Claimed(obj, h) =>
      && Snapshot(s, u, obj) && Fresh(obj) && OnHost(s, obj, h)
      && h in s.marks && s.marks[h] == Some(u)
    case Management(obj) => Snapshot(s, u, obj) && !obj.deleting && obj.classed
    case Teardown(obj) => Snapshot(s, u, obj) && obj.deleting
    case Cleanup(obj, h) => Snapshot(s, u, obj) && obj.deleting && !obj.mgmtFin && OnHost(s, obj, h)
    case CleanupLocked(obj, h) => Snapshot(s, u, obj) && obj.deleting && !obj.mgmtFin && OnHost(s, obj, h)
    case Clearing(obj, h, present) =>
      && Snapshot(s, u, obj) && obj.deleting && !obj.mgmtFin && OnHost(s, obj, h)
      && h in s.marks && present == s.marks[h].Some?
    case Dropping(obj, held) =>
      && Snapshot(s, u, obj) && obj.deleting && !obj.mgmtFin && obj.invFin && held == obj.ext
      && (held.Some? ==> held.value in s.marks && s.marks[held.value].None?)
  }

  ghost predicate TasksOk(s: State) {
    forall u :: TaskOk(s, u, TaskOf(s, u))
  }

  ghost predicate Occupied(s: State, h: HostId) {
    exists u :: Critical(TaskOf(s, u)) == Some(h)
  }

  /** A lock is held exactly while one reconcile is inside that host's critical section. */
  ghost predicate LocksOk(s: State) {
    && (forall u :: Critical(TaskOf(s, u)).Some? ==> Held(s.locks, Critical(TaskOf(s, u)).value))
    && (forall u, v :: Critical(TaskOf(s, u)).Some? && Critical(TaskOf(s, u)) == Critical(TaskOf(s, v)) ==> u == v)
    && (forall h :: Held(s.locks, h) ==> Occupied(s, h))
  }

  predicate Backed(s: State, u: Uid, h: HostId) {
    u in s.store && s.store[u].invFin && s.store[u].ext == Some(h)
  }

  /** No orphaned claims. */
  ghost predicate NoOrphans(s: State) {
    forall h :: h in s.marks && s.marks[h].Some? ==> Backed(s, s.marks[h].value, h)
  }

  predicate Wellformed(s: State, obj: Instance) {
    && (obj.ext.Some? ==> obj.invFin && obj.ext.value in s.marks)
    && (obj.classed ==> obj.ext.Some?)
    && (obj.mgmtFin ==> obj.classed)
  }

  predicate InstanceOk(s: State, u: Uid) {
    u in s.store ==>
      && u in s.lineage && s.lineage[u] == s.store[u].pool && u in s.eligible
      && Wellformed(s, s.store[u])
      && (s.store[u].deleting ==> s.store[u].invFin)
  }

  ghost predicate StoreOk(s: State) {
    forall u :: u in s.store ==> InstanceOk(s, u)
  }

  predicate PoolTaskOk(s: State, p: PoolUid, t: PoolTask) {
    match t
    case PoolIdle => true
    case Growing(pool) =>
      && p in s.poolsEver && !pool.deleting
      && (pool.fin ==> p in s.pools && s.pools[p].fin)
      && (p in s.pools ==> pool.rv <= s.pools[p].rv && (pool.rv == s.pools[p].rv ==> s.pools[p] == pool))
    case Scaling => p in s.poolsEver && p in s.pools && s.pools[p].fin
    case Emptying(pool) => p in s.pools && s.pools[p].deleting && pool.deleting
    case Releasing(pool) => p in s.pools && s.pools[p].deleting && pool.deleting && Members(s, p) == {}
  }

  ghost predicate PoolsOk(s: State) {
    && (forall p :: PoolTaskOk(s, p, PoolTaskOf(s, p)))
    && (forall p :: p in s.pools ==> p in s.poolsEver && (s.pools[p].deleting ==> s.pools[p].fin))
    && (forall u :: u in s.store && s.store[u].pool.Some? ==>
          s.store[u].pool.value in s.pools && s.pools[s.store[u].pool.value].fin)
  }

  ghost predicate Inv(s: State) {
    TasksOk(s) && LocksOk(s) && NoOrphans(s) && StoreOk(s) && PoolsOk(s)
  }

  lemma InitKeeps(s: State)
    requires Init(s)
    ensures Inv(s)
  {
  }

  // ---------------------------------------------------------------- one step of one reconcile

  /** The lock discipline of a single step: take when free, give back what is held, else keep. */
  predicate Disciplined(s: State, t: Task, e: Effect) {
    match e.lock
    case NoLock => Critical(e.next) == Critical(t)
    case Take(h) => !Held(s.locks, h) && Critical(t).None? && Critical(e.next) == Some(h)
    case Give(h) => Critical(t) == Some(h) && Critical(e.next).None?
  }

  /** A mark is only written inside the host's critical section: set to the caller or cleared. */
  predicate GuardedMark(s: State, u: Uid, e: Effect) {
    e.mark.Some? ==>
      var (h, m) := e.mark.value;
      && Critical(TaskOf(s, u)) == Some(h) && h in s.marks
      && (if m.Some? then m.value == u && Claimable(s.marks[h], u) && Backed(s, u, h) else true)
  }

  /** What an accepted Update may change. */
  predicate GuardedWrite(s: State, u: Uid, e: Effect) {
    e.write.Some? ==>
      var obj := e.write.value;
      && u in s.store && obj.rv == s.store[u].rv
      && obj.pool == s.store[u].pool && obj.deleting == s.store[u].deleting
      && (forall h :: h in s.marks && s.marks[h] == Some(u) ==> obj.invFin && obj.ext == Some(h))
      && (obj.deleting && !obj.invFin ==> !obj.mgmtFin)
      && (obj.invFin || !obj.deleting ==> Wellformed(s, obj))
  }

  lemma StepDisciplined(s: State, u: Uid, step: Step)
    requires StepEnabled(s, u, step)
    ensures Disciplined(s, TaskOf(s, u), StepEffect(s, u, step))
  {
  }

  lemma StepGuardedMark(s: State, u: Uid, step: Step)
    requires Inv(s) && StepEnabled(s, u, step)
    ensures GuardedMark(s, u, StepEffect(s, u, step))
  {
    assert TaskOk(s, u, TaskOf(s, u));
  }

  lemma StepGuardedWrite(s: State, u: Uid, step: Step)
    requires Inv(s) && StepEnabled(s, u, step)
    ensures GuardedWrite(s, u, StepEffect(s, u, step))
  {
    assert TaskOk(s, u, TaskOf(s, u));
  }

  predicate OfDeletion(step: Step) {
    step.DropMgmtFinalizer? || step.TryLockCleanup? || step.ReadForClear? || step.ClearMark? || step.DropFinalizer?
  }

  lemma StepOwnTaskUpdate(s: State, u: Uid, step: Step)
    requires InstanceOk(s, u) && TaskOk(s, u, TaskOf(s, u)) && StepEnabled(s, u, step) && !OfDeletion(step)
    ensures TaskOk(Perform(s, u, StepEffect(s, u, step)), u, StepEffect(s, u, step).next)
  {
  }

  lemma StepOwnTaskDeletion(s: State, u: Uid, step: Step)
    requires InstanceOk(s, u) && TaskOk(s, u, TaskOf(s, u)) && StepEnabled(s, u, step) && OfDeletion(step)
    ensures TaskOk(Perform(s, u, StepEffect(s, u, step)), u, StepEffect(s, u, step).next)
  {
  }

  // ---------------------------------------------------------------- one step of the whole system

  /** Others keep their tasks in order: no step of `u` touches a mark they are looking at. */
  lemma StepOtherTask(s: State, u: Uid, e: Effect, v: Uid)
    requires TaskOk(s, v, TaskOf(s, v)) && GuardedMark(s, u, e) && u != v
    requires Critical(TaskOf(s, u)).Some? ==> Critical(TaskOf(s, v)) != Critical(TaskOf(s, u))
    ensures TaskOk(Perform(s, u, e), v, TaskOf(s, v))
  {
  }

  lemma StepTasks(s: State, u: Uid, step: Step)
    requires Inv(s) && StepEnabled(s, u, step)
    ensures TasksOk(Perform(s, u, StepEffect(s, u, step)))
  {
    var e := StepEffect(s, u, step);
    var s' := Perform(s, u, e);
    assert TaskOk(s, u, TaskOf(s, u)) && InstanceOk(s, u);
    if OfDeletion(step) { StepOwnTaskDeletion(s, u, step); } else { StepOwnTaskUpdate(s, u, step); }
    StepGuardedMark(s, u, step);
    forall v ensures TaskOk(s', v, TaskOf(s', v)) {
      assert TaskOk(s, v, TaskOf(s, v));
      if v != u { StepOtherTask(s, u, e, v); }
    }
  }

  lemma StepLocks(s: State, u: Uid, e: Effect)
    requires LocksOk(s) && Disciplined(s, TaskOf(s, u), e)
    ensures LocksOk(Perform(s, u, e))
  {
    var s' := Perform(s, u, e);
    assert TaskOf(s', u) == e.next;
    assert forall v :: v != u ==> TaskOf(s', v) == TaskOf(s, v);
    forall h: HostId | Held(s'.locks, h) ensures Occupied(s', h) {
      if Critical(e.next) == Some(h) {
        assert Critical(TaskOf(s', u)) == Some(h);
      } else {
        assert Occupied(s, h);
        var v :| Critical(TaskOf(s, v)) == Some(h);
        assert Critical(TaskOf(s', v)) == Some(h);
      }
    }
  }

  lemma StepNoOrphans(s: State, u: Uid, e: Effect)
    requires Inv(s) && GuardedMark(s, u, e) && GuardedWrite(s, u, e)
    requires e.mark.None? || e.write.None?
    ensures NoOrphans(Perform(s, u, e))
  {
  }

  lemma StepStore(s: State, u: Uid, e: Effect)
    requires StoreOk(s) && GuardedMark(s, u, e) && GuardedWrite(s, u, e)
    ensures StoreOk(Perform(s, u, e))
  {
  }

  lemma StepPools(s: State, u: Uid, e: Effect)
    requires PoolsOk(s) && GuardedWrite(s, u, e)
    ensures PoolsOk(Perform(s, u, e))
  {
    var s' := Perform(s, u, e);
    forall p ensures PoolTaskOk(s', p, PoolTaskOf(s', p)) {
      assert PoolTaskOk(s, p, PoolTaskOf(s, p));
      assert Members(s', p) <= Members(s, p);
    }
  }

  lemma OwnStepKeeps(s: State, u: Uid, step: Step)
    requires Inv(s) && StepEnabled(s, u, step)
    ensures Inv(Perform(s, u, StepEffect(s, u, step)))
  {
    var e := StepEffect(s, u, step);
    StepDisciplined(s, u, step);
    StepGuardedMark(s, u, step);
    StepGuardedWrite(s, u, step);
    StepTasks(s, u, step);
    StepLocks(s, u, e);
    StepNoOrphans(s, u, e);
    StepStore(s, u, e);
    StepPools(s, u, e);
  }

  lemma SameLocks(s: State, s': State)
    requires LocksOk(s) && s'.tasks == s.tasks && s'.locks == s.locks
    ensures LocksOk(s')
  {
    assert forall u :: TaskOf(s', u) == TaskOf(s, u);
    forall h: HostId | Held(s'.locks, h) ensures Occupied(s', h) {
      assert Occupied(s, h);
    }
  }

  lemma SameTasks(s: State, s': State)
    requires TasksOk(s)
    requires s'.store == s.store && s'.marks == s.marks && s'.lineage == s.lineage && s'.tasks == s.tasks
    ensures TasksOk(s')
  {
    forall v ensures TaskOk(s', v, TaskOf(s', v)) {
      assert TaskOk(s, v, TaskOf(s, v));
    }
  }

  lemma EventSnapshot(s: State, e: Event, v: Uid, obj: Instance)
    requires Snapshot(s, v, obj) && InstanceOk(s, v) && EventEnabled(s, e)
    ensures Snapshot(EventApply(s, e), v, obj)
  {
  }

  lemma EventTasks(s: State, e: Event, v: Uid, t: Task)
    requires TaskOk(s, v, t) && InstanceOk(s, v) && EventEnabled(s, e)
    ensures TaskOk(EventApply(s, e), v, t)
  {
    match t
    case Idle =>
    case Unlocking(_) =>
    case Inventory(obj) => EventSnapshot(s, e, v, obj);
    case Found(obj, _) => EventSnapshot(s, e, v, obj);
    case Locked(obj, _) => EventSnapshot(s, e, v, obj);
    case Writing(obj, _) => EventSnapshot(s, e, v, obj);
    case Taken(obj, _) => EventSnapshot(s, e, v, obj);
    case Claimed(obj, _) => EventSnapshot(s, e, v, obj);
    case Management(obj) => EventSnapshot(s, e, v, obj);
    case Teardown(obj) => EventSnapshot(s, e, v, obj);
    case Cleanup(obj, _) => EventSnapshot(s, e, v, obj);
    case CleanupLocked(obj, _) => EventSnapshot(s, e, v, obj);
    case Clearing(obj, _, _) => EventSnapshot(s, e, v, obj);
    case Dropping(obj, _) => EventSnapshot(s, e, v, obj);
  }

  lemma EventPoolTask(s: State, e: Event, p: PoolUid)
    requires PoolTaskOk(s, p, PoolTaskOf(s, p)) && EventEnabled(s, e)
    requires p in s.pools ==> p in s.poolsEver && (s.pools[p].deleting ==> s.pools[p].fin)
    requires e.CreateInstance? && e.pool == Some(p) ==> PoolTaskOf(s, p).Scaling?
    ensures PoolTaskOk(EventApply(s, e), p, PoolTaskOf(s, p))
  {
    assert (e.CreateInstance? && e.pool == Some(p)) || Members(EventApply(s, e), p) <= Members(s, p);
  }

  lemma EventPools(s: State, e: Event)
    requires StoreOk(s) && PoolsOk(s) && EventEnabled(s, e)
    ensures PoolsOk(EventApply(s, e))
  {
    var s' := EventApply(s, e);
    forall p ensures PoolTaskOk(s', p, PoolTaskOf(s', p)) {
      assert PoolTaskOk(s, p, PoolTaskOf(s, p));
      EventPoolTask(s, e, p);
    }
    assert e.CreateInstance? && e.pool.Some? ==> PoolTaskOk(s, e.pool.value, PoolTaskOf(s, e.pool.value));
  }

  lemma EventStore(s: State, e: Event)
    requires StoreOk(s) && NoOrphans(s) && EventEnabled(s, e)
    ensures StoreOk(EventApply(s, e)) && NoOrphans(EventApply(s, e))
  {
  }

  lemma EventKeeps(s: State, e: Event)
    requires Inv(s) && EventEnabled(s, e)
    ensures Inv(EventApply(s, e))
  {
    var s' := EventApply(s, e);
    forall v ensures TaskOk(s', v, TaskOf(s', v)) {
      assert TaskOk(s, v, TaskOf(s, v));
      assert InstanceOk(s, v);
      EventTasks(s, e, v, TaskOf(s, v));
    }
    EventPools(s, e);
    EventStore(s, e);
    SameLocks(s, s');
  }

  /** What a pool reconcile may write: its own pool as it last read it; only an empty pool goes. */
  predicate GuardedPoolWrite(s: State, p: PoolUid, e: PoolEffect) {
    e.write.Some? ==>
      && p in s.pools && p in s.poolsEver && e.write.value.rv == s.pools[p].rv
      && (if e.write.value.fin then !e.write.value.deleting && !s.pools[p].deleting
          else e.write.value.deleting && Members(s, p) == {})
  }

  lemma PoolStepGuarded(s: State, p: PoolUid, step: PoolStep)
    requires PoolsOk(s) && PoolStepEnabled(s, p, step)
    ensures GuardedPoolWrite(s, p, PoolStepEffect(s, p, step))
    ensures PoolTaskOk(PoolPerform(s, p, PoolStepEffect(s, p, step)), p, PoolStepEffect(s, p, step).next)
  {
    assert PoolTaskOk(s, p, PoolTaskOf(s, p));
    assert Members(PoolPerform(s, p, PoolStepEffect(s, p, step)), p) == Members(s, p);
  }

  lemma PoolStepPools(s: State, p: PoolUid, e: PoolEffect)
    requires PoolsOk(s) && GuardedPoolWrite(s, p, e) && PoolTaskOk(PoolPerform(s, p, e), p, e.next)
    ensures PoolsOk(PoolPerform(s, p, e))
  {
    var s' := PoolPerform(s, p, e);
    forall q ensures PoolTaskOk(s', q, PoolTaskOf(s', q)) {
      assert PoolTaskOk(s, q, PoolTaskOf(s, q));
      assert Members(s', q) == Members(s, q);
    }
    forall u | u in s'.store && s'.store[u].pool.Some?
      ensures s'.store[u].pool.value in s'.pools && s'.pools[s'.store[u].pool.value].fin
    {
      assert u in Members(s, s'.store[u].pool.value);
    }
  }

  lemma PoolStepRest(s: State, p: PoolUid, e: PoolEffect)
    requires TasksOk(s) && LocksOk(s) && NoOrphans(s) && StoreOk(s)
    ensures
      var s' := PoolPerform(s, p, e);
      TasksOk(s') && LocksOk(s') && NoOrphans(s') && StoreOk(s')
  {
    SameTasks(s, PoolPerform(s, p, e));
    SameLocks(s, PoolPerform(s, p, e));
  }

  lemma PoolStepKeeps(s: State, p: PoolUid, step: PoolStep)
    requires Inv(s) && PoolStepEnabled(s, p, step)
    ensures Inv(PoolPerform(s, p, PoolStepEffect(s, p, step)))
  {
    var e := PoolStepEffect(s, p, step);
    PoolStepGuarded(s, p, step);
    PoolStepPools(s, p, e);
    PoolStepRest(s, p, e);
  }

  lemma StepKeeps(s: State, a: Action)
    requires Inv(s) && Enabled(s, a)
    ensures Inv(Apply(s, a))
  {
    match a
    case Own(u, step) => OwnStepKeeps(s, u, step);
    case OwnPool(p, step) => PoolStepKeeps(s, p, step);
    case Env(e) => EventKeeps(s, e);
    case Crash =>
  }

  /** Every state of every run satisfies the invariant. */
  lemma {:induction false} RunKeeps(s: State, acts: seq<Action>)
    requires Inv(s) && ValidRun(s, acts)
    ensures Inv(After(s, acts))
    decreases |acts|
  {
    if acts == [] {
    } else {
      StepKeeps(s, acts[0]);
      RunKeeps(Apply(s, acts[0]), acts[1..]);
    }
  }
}
