/**
 Host fulfilment as a state machine over the API store, the inventory, the host-lock table and
 the reconciles in flight (at most one per object key). One action is one remote call, one lock
 operation or one environment event, so every interleaving of reconciles is a sequence of
 actions. A call may fail before it lands or after it landed, and the process may crash.
 */
module ClaimMachine {
  import opened Wrappers
  import opened HostLock

  type Uid = nat
  type HostId = nat
  type PoolUid = nat

  /** A stored BareMetalInstance. `ext` is ExternalHostID (None is ""), `classed` is HostClass != "". */
  datatype Instance = Instance(
    rv: nat,
    pool: Option<PoolUid>,
    deleting: bool,
    invFin: bool,
    mgmtFin: bool,
    ext: Option<HostId>,
    classed: bool)

  datatype Pool = Pool(rv: nat, deleting: bool, fin: bool)

  /** Where an in-flight reconcile of an instance stands; `obj` is its in-memory copy. */
  datatype Task =
    | Idle
    | Inventory(obj: Instance)                                 // reconcileInventory entered
    | Found(obj: Instance, host: HostId)                       // FindFreeHost returned a host
    | Locked(obj: Instance, host: HostId)                      // TryLock succeeded
    | Writing(obj: Instance, host: HostId)                     // AssignHost read a free or own mark
    | Taken(obj: Instance, host: HostId)                       // AssignHost returned nil
    | Claimed(obj: Instance, host: HostId)                     // AssignHost returned the host
    | Unlocking(host: HostId)                                  // only the deferred Unlock is left
    | Management(obj: Instance)                                // reconcileManagement entered
    | Teardown(obj: Instance)                                  // handleDeletion entered
    | Cleanup(obj: Instance, host: HostId)                     // inventory cleanup reached
    | CleanupLocked(obj: Instance, host: HostId)
    | Clearing(obj: Instance, host: HostId, present: bool)     // UnassignHost read the host
    | Dropping(obj: Instance, held: Option<HostId>)            // host unassigned, finalizer left

  datatype PoolTask =
    | PoolIdle
    | Growing(pool: Pool)       // handleUpdate entered
    | Scaling                   // finalizer ensured, instances may be created
    | Emptying(pool: Pool)      // handleDeletion entered
    | Releasing(pool: Pool)     // the list came back empty

  datatype State = State(
    store: map<Uid, Instance>,
    pools: map<PoolUid, Pool>,
    marks: map<HostId, Option<Uid>>,         // owner mark of every inventory host
    locks: Table<HostId>,
    tasks: map<Uid, Task>,
    poolTasks: map<PoolUid, PoolTask>,
    lineage: map<Uid, Option<PoolUid>>,      // every instance ever created, with its pool
    poolsEver: set<PoolUid>,
    eligible: map<Uid, set<HostId>>,         // hosts passing the instance's filter, mark aside
    blocked: set<Uid>)                       // real template but no provisioning provider

  /** One step of the reconcile of one instance. */
  datatype Step =
    | Start
    | Abort                                  // a failed call ends the reconcile
    | Finish                                 // nothing more to write: management done, or teardown not over yet
    | AddFinalizer(out: Outcome)
    | Find(found: HostId)
    | FindNone
    | RecordHost(out: Outcome)
    | TryLock
    | ReadMark
    | WriteMark(out: Outcome)
    | UnsetHost(out: Outcome)
    | RecordClass(out: Outcome)
    | Unlock
    | AddMgmtFinalizer(out: Outcome)
    | DropMgmtFinalizer(out: Outcome)
    | TryLockCleanup
    | ReadForClear
    | ClearMark(out: Outcome)
    | DropFinalizer(out: Outcome)

  datatype PoolStep =
    | StartPool
    | AddPoolFinalizer(out: Outcome)
    | ListInstances
    | DropPoolFinalizer(out: Outcome)
    | EndPool

  /** Calls of users, of the garbage collector and of a pool reconcile on one stored object. */
  datatype Event =
    | CreateInstance(u: Uid, pool: Option<PoolUid>, matching: set<HostId>)
    | RequestDelete(u: Uid)
    | Touch(u: Uid)                          // status writes and user edits of other fields
    | HostsChange(u: Uid, matching: set<HostId>)
    | CreatePool(p: PoolUid)
    | RequestPoolDelete(p: PoolUid)
    | TouchPool(p: PoolUid)

  datatype Action =
    | Own(u: Uid, step: Step)
    | OwnPool(p: PoolUid, pstep: PoolStep)
    | Env(event: Event)
    | Crash

  function TaskOf(s: State, u: Uid): Task {
    if u in s.tasks then s.tasks[u] else Idle
  }

  function PoolTaskOf(s: State, p: PoolUid): PoolTask {
    if p in s.poolTasks then s.poolTasks[p] else PoolIdle
  }

  /** The host whose lock the reconcile holds. */
  function Critical(t: Task): Option<HostId> {
    match t
    case Locked(_, h) => Some(h)
    case Writing(_, h) => Some(h)
    case Taken(_, h) => Some(h)
    case Claimed(_, h) => Some(h)
    case Unlocking(h) => Some(h)
    case CleanupLocked(_, h) => Some(h)
    case Clearing(_, h, _) => Some(h)
    case Dropping(_, held) => held
    case _ => None
  }

  /** Returning from the handler: the deferred Unlock runs if and only if the lock was taken. */
  function Return(t: Task): Task {
    if Critical(t).Some? then Unlocking(Critical(t).value) else Idle
  }

  // ---------------------------------------------------------------- API writes

  /** Optimistic concurrency: an Update can only land at the version that was read. */
  predicate Permitted(s: State, u: Uid, obj: Instance, o: Outcome) {
    o.Rejected? || (u in s.store && s.store[u].rv == obj.rv)
  }

  /** An object marked for deletion disappears with its last finalizer. */
  function Save(store: map<Uid, Instance>, u: Uid, obj: Instance): map<Uid, Instance> {
    if obj.deleting && !obj.invFin && !obj.mgmtFin then store - {u} else store[u := obj.(rv := obj.rv + 1)]
  }

  predicate PoolPermitted(s: State, p: PoolUid, obj: Pool, o: Outcome) {
    o.Rejected? || (p in s.pools && s.pools[p].rv == obj.rv)
  }

  function SavePool(pools: map<PoolUid, Pool>, p: PoolUid, obj: Pool): map<PoolUid, Pool> {
    if obj.deleting && !obj.fin then pools - {p} else pools[p := obj.(rv := obj.rv + 1)]
  }

  // ---------------------------------------------------------------- instance reconciles

  /** A host FindFreeHost may return to `u`: it passes the filter and carries no mark. */
  predicate Free(s: State, u: Uid, h: HostId) {
    u in s.eligible && h in s.eligible[u] && h in s.marks && s.marks[h].None?
  }

  /** The check of AssignHost: unmarked, or marked by the caller already. */
  predicate Claimable<U(==)>(m: Option<U>, u: U) {
    m.None? || m.value == u
  }

  predicate StepEnabled(s: State, u: Uid, step: Step) {
    var t := TaskOf(s, u);
    match step
    case Start => u in s.store && t.Idle?
    case Abort => !t.Idle? && !t.Unlocking?
    case Finish => (t.Management? || t.Teardown?) && t.obj.mgmtFin
    case AddFinalizer(o) => t.Inventory? && !t.obj.invFin && Permitted(s, u, t.obj, o)
    case Find(h) => t.Inventory? && t.obj.invFin && t.obj.ext.None? && Free(s, u, h)
    case FindNone => t.Inventory? && t.obj.invFin && t.obj.ext.None? && forall h :: h in s.marks ==> !Free(s, u, h)
    case RecordHost(o) => t.Found? && Permitted(s, u, t.obj, o)
    case TryLock => t.Inventory? && t.obj.invFin && t.obj.ext.Some?
    case ReadMark => t.Locked? && t.host in s.marks
    case WriteMark(_) => t.Writing?
    case UnsetHost(o) => t.Taken? && Permitted(s, u, t.obj, o)
    case RecordClass(o) => t.Claimed? && Permitted(s, u, t.obj, o)
    case Unlock => t.Unlocking?
    case AddMgmtFinalizer(o) => t.Management? && !t.obj.mgmtFin && Permitted(s, u, t.obj, o)
    case DropMgmtFinalizer(o) =>
      t.Teardown? && (if t.obj.mgmtFin then u !in s.blocked && Permitted(s, u, t.obj, o) else o.Applied?)
    case TryLockCleanup => t.Cleanup?
    case ReadForClear => t.CleanupLocked? && t.host in s.marks
    case ClearMark(_) => t.Clearing?
    case DropFinalizer(o) => t.Dropping? && Permitted(s, u, t.obj, o)
  }

  datatype LockOp = NoLock | Take(h: HostId) | Give(h: HostId)

  /** All a step does: where the reconcile stands next, and at most one write of each kind. */
  datatype Effect = Effect(
    next: Task,
    write: Option<Instance>,
    mark: Option<(HostId, Option<Uid>)>,
    lock: LockOp)

  function Go(t: Task): Effect {
    Effect(t, None, None, NoLock)
  }

  function Write(obj: Instance, o: Outcome, t: Task): Effect {
    Effect(t, if o.Rejected? then None else Some(obj), None, NoLock)
  }

  function Mark(h: HostId, m: Option<Uid>, o: Outcome, t: Task): Effect {
    Effect(t, None, if o.Rejected? then None else Some((h, m)), NoLock)
  }

  function LockOr(s: State, h: HostId, t: Task): Effect {
    if Held(s.locks, h) then Go(Idle) else Effect(t, None, None, Take(h))
  }

  /** Reconcile and handleUpdate up to the first remote call. */
  function Dispatch(s: State, u: Uid, obj: Instance): Task {
    if obj.deleting then Teardown(obj)
    else if u in s.blocked then Idle
    else if !obj.classed then Inventory(obj)
    else Management(obj)
  }

  /** handleDeletion below the management part. */
  function CleanupStage(obj: Instance): Task {
    if !obj.invFin then Idle
    else if obj.ext.None? then Dropping(obj, None)
    else Cleanup(obj, obj.ext.value)
  }

  function StepEffect(s: State, u: Uid, step: Step): Effect
    requires StepEnabled(s, u, step)
  {
    var t := TaskOf(s, u);
    match step
    case Start => Go(Dispatch(s, u, s.store[u]))
    case Abort => Go(Return(t))
    case Finish => Go(Idle)
    case AddFinalizer(o) => Write(t.obj.(invFin := true), o, Idle)
    case Find(h) => Go(Found(t.obj, h))
    case FindNone => Go(Idle)
    case RecordHost(o) => Write(t.obj.(ext := Some(t.host)), o, Idle)
    case TryLock => LockOr(s, t.obj.ext.value, Locked(t.obj, t.obj.ext.value))
    case ReadMark =>
      Go(if Claimable(s.marks[t.host], u) then Writing(t.obj, t.host) else Taken(t.obj, t.host))
    case WriteMark(o) => Mark(t.host, Some(u), o, if o.Applied? then Claimed(t.obj, t.host) else Unlocking(t.host))
    case UnsetHost(o) => Write(t.obj.(ext := None), o, Unlocking(t.host))
    case RecordClass(o) => Write(t.obj.(classed := true), o, Unlocking(t.host))
    case Unlock => Effect(Idle, None, None, Give(t.host))
    case AddMgmtFinalizer(o) => Write(t.obj.(mgmtFin := true), o, Idle)
    case DropMgmtFinalizer(o) =>
      if !t.obj.mgmtFin then Go(CleanupStage(t.obj))
      else
        Write(t.obj.(mgmtFin := false), o,
              if o.Applied? then CleanupStage(t.obj.(mgmtFin := false, rv := t.obj.rv + 1)) else Idle)
    case TryLockCleanup => LockOr(s, t.host, CleanupLocked(t.obj, t.host))
    case ReadForClear => Go(Clearing(t.obj, t.host, s.marks[t.host].Some?))
    case ClearMark(o) =>
      Mark(t.host, None, if t.present then o else Rejected,
           if o.Applied? then Dropping(t.obj, Some(t.host)) else Unlocking(t.host))
    case DropFinalizer(o) => Write(t.obj.(invFin := false), o, Return(t))
  }

  function Perform(s: State, u: Uid, e: Effect): State {
    s.(tasks := s.tasks[u := e.next],
       store := if e.write.Some? then Save(s.store, u, e.write.value) else s.store,
       marks := if e.mark.Some? then s.marks[e.mark.value.0 := e.mark.value.1] else s.marks,
       locks := match e.lock
                case NoLock => s.locks
                case Take(h) => s.locks[h := true]
                case Give(h) => Release(s.locks, h))
  }

  // ---------------------------------------------------------------- pool reconciles

  /** Stored instances carrying the pool's label, in any state. */
  function Members(s: State, p: PoolUid): set<Uid> {
    set u | u in s.store && s.store[u].pool == Some(p)
  }

  predicate PoolStepEnabled(s: State, p: PoolUid, step: PoolStep) {
    var t := PoolTaskOf(s, p);
    match step
    case StartPool => p in s.pools && t.PoolIdle?
    case AddPoolFinalizer(o) => t.Growing? && (if t.pool.fin then o.Applied? else PoolPermitted(s, p, t.pool, o))
    case ListInstances => t.Emptying?
    case DropPoolFinalizer(o) => t.Releasing? && PoolPermitted(s, p, t.pool, o)
    case EndPool => !t.PoolIdle?
  }

  datatype PoolEffect = PoolEffect(next: PoolTask, write: Option<Pool>)

  function PoolWrite(pool: Pool, o: Outcome, t: PoolTask): PoolEffect {
    PoolEffect(t, if o.Rejected? then None else Some(pool))
  }

  function PoolStepEffect(s: State, p: PoolUid, step: PoolStep): PoolEffect
    requires PoolStepEnabled(s, p, step)
  {
    var t := PoolTaskOf(s, p);
    match step
    case StartPool => PoolEffect(if s.pools[p].deleting then Emptying(s.pools[p]) else Growing(s.pools[p]), None)
    case AddPoolFinalizer(o) =>
      if t.pool.fin then PoolEffect(Scaling, None)
      else PoolWrite(t.pool.(fin := true), o, if o.Applied? then Scaling else PoolIdle)
    case ListInstances => PoolEffect(if Members(s, p) == {} then Releasing(t.pool) else PoolIdle, None)
    case DropPoolFinalizer(o) => PoolWrite(t.pool.(fin := false), o, PoolIdle)
    case EndPool => PoolEffect(PoolIdle, None)
  }

  function PoolPerform(s: State, p: PoolUid, e: PoolEffect): State {
    s.(poolTasks := s.poolTasks[p := e.next],
       pools := if e.write.Some? then SavePool(s.pools, p, e.write.value) else s.pools)
  }

  // ---------------------------------------------------------------- transitions and runs

  predicate EventEnabled(s: State, e: Event) {
    match e
    case CreateInstance(u, pool, _) => u !in s.lineage && (pool.Some? ==> PoolTaskOf(s, pool.value).Scaling?)
    case RequestDelete(u) => u in s.store
    case Touch(u) => u in s.store
    case HostsChange(u, _) => u in s.store
    case CreatePool(p) => p !in s.poolsEver
    case RequestPoolDelete(p) => p in s.pools
    case TouchPool(p) => p in s.pools
  }

  function EventApply(s: State, e: Event): State
    requires EventEnabled(s, e)
  {
    match e
    case CreateInstance(u, pool, matching) =>
      s.(store := s.store[u := Instance(0, pool, false, false, false, None, false)],
         lineage := s.lineage[u := pool], eligible := s.eligible[u := matching])
    case RequestDelete(u) => s.(store := Save(s.store, u, s.store[u].(deleting := true)))
    case Touch(u) => s.(store := Save(s.store, u, s.store[u]))
    case HostsChange(u, matching) => s.(eligible := s.eligible[u := matching])
    case CreatePool(p) => s.(pools := s.pools[p := Pool(0, false, false)], poolsEver := s.poolsEver + {p})
    case RequestPoolDelete(p) => s.(pools := SavePool(s.pools, p, s.pools[p].(deleting := true)))
    case TouchPool(p) => s.(pools := SavePool(s.pools, p, s.pools[p]))
  }

  predicate Enabled(s: State, a: Action) {
    match a
    case Own(u, step) => StepEnabled(s, u, step)
    case OwnPool(p, step) => PoolStepEnabled(s, p, step)
    case Env(e) => EventEnabled(s, e)
    case Crash => true
  }

  function Apply(s: State, a: Action): State
    requires Enabled(s, a)
  {
    match a
    case Own(u, step) => Perform(s, u, StepEffect(s, u, step))
    case OwnPool(p, step) => PoolPerform(s, p, PoolStepEffect(s, p, step))
    case Env(e) => EventApply(s, e)
    case Crash => s.(tasks := map[], poolTasks := map[], locks := map[])
  }

  ghost predicate ValidRun(s: State, acts: seq<Action>)
    decreases |acts|
  {
    acts == [] || (Enabled(s, acts[0]) && ValidRun(Apply(s, acts[0]), acts[1..]))
  }

  ghost function After(s: State, acts: seq<Action>): State
    requires ValidRun(s, acts)
    decreases |acts|
  {
    if acts == [] then s else After(Apply(s, acts[0]), acts[1..])
  }

  ghost predicate Init(s: State) {
    && s.store == map[] && s.pools == map[] && s.locks == map[] && s.tasks == map[] && s.poolTasks == map[]
    && s.lineage == map[] && s.poolsEver == {} && s.eligible == map[]
    && forall h :: h in s.marks ==> s.marks[h].None?
  }
}
