/**
 The instance controller in its own form (internal/controller/baremetalinstance_controller.go): one
 reconcile makes its calls one after the other while everybody else moves in between. Whatever they
 do and whatever fails, what happens is a run of ClaimMachine.
 */
module InstanceController {
  import opened Wrappers
  import opened HostLock
  import opened ClaimMachine
  import opened ClaimInvariant
  import opened ClaimRuns
  import opened ClaimTermination
  import opened InstanceManagement
  import opened InstanceProperties

  // Seconds.
  const DEFAULT_NO_FREE_HOSTS: int := 30
  const DEFAULT_TRY_LOCK_FAIL: int := 1
  const DEFAULT_RECHECK: int := 10

  /** What RunDeprovisioningLifecycle returns. */
  datatype Deprovision = Deprovision(result: Requeue, done: bool, err: bool)

  // ---------------------------------------------------------------- progress

  /** The stored object but for its version. */
  function Content(s: State, u: Uid): Option<Instance> {
    if u in s.store then Some(s.store[u].(rv := 0)) else None
  }

  /** A step of the reconcile of `u` that changes the stored spec or finalizers of `u`. */
  predicate Moves(s: State, a: Action, u: Uid)
    requires Enabled(s, a)
  {
    a.Own? && a.u == u && Content(Apply(s, a), u) != Content(s, u)
  }

  ghost function Progress(s: State, acts: seq<Action>, u: Uid): nat
    requires ValidRun(s, acts)
    decreases |acts|
  {
    if acts == [] then 0
    else (if Moves(s, acts[0], u) then 1 else 0) + Progress(Apply(s, acts[0]), acts[1..], u)
  }

  lemma {:induction false} ProgressExtend(s: State, acts: seq<Action>, a: Action, u: Uid)
    requires ValidRun(s, acts) && Enabled(After(s, acts), a)
    ensures ValidRun(s, acts + [a])
    ensures Progress(s, acts + [a], u) == Progress(s, acts, u) + (if Moves(After(s, acts), a, u) then 1 else 0)
    decreases |acts|
  {
    Extend(s, acts, a);
    if acts == [] {
      assert [] + [a] == [a] && [a][1..] == [];
      assert Progress(Apply(s, a), [], u) == 0;
    } else {
      assert (acts + [a])[1..] == acts[1..] + [a];
      ProgressExtend(Apply(s, acts[0]), acts[1..], a, u);
    }
  }

  predicate Erroneous(a: Action, u: Uid) {
    a.Own? && a.u == u && !ErrorFree(a.step)
  }

  /** Steps of reconciles of `u` that stand for a failed call. */
  ghost function ErrorsIn(acts: seq<Action>, u: Uid): nat {
    if acts == [] then 0
    else ErrorsIn(acts[..|acts| - 1], u) + if Erroneous(acts[|acts| - 1], u) then 1 else 0
  }

  lemma ErrorsExtend(acts: seq<Action>, a: Action, u: Uid)
    ensures ErrorsIn(acts + [a], u) == ErrorsIn(acts, u) + if Erroneous(a, u) then 1 else 0
  {
    assert (acts + [a])[..|acts|] == acts;
  }

  /** A step of the reconcile of `u` by which it gives up a finalizer or its host. */
  predicate GivesUp(a: Action, u: Uid) {
    a.Own? && a.u == u && (a.step.DropMgmtFinalizer? || a.step.ClearMark? || a.step.DropFinalizer?)
  }

  ghost function GivenUpIn(acts: seq<Action>, u: Uid): nat {
    if acts == [] then 0
    else GivenUpIn(acts[..|acts| - 1], u) + if GivesUp(acts[|acts| - 1], u) then 1 else 0
  }

  lemma GivenUpExtend(acts: seq<Action>, a: Action, u: Uid)
    ensures GivenUpIn(acts + [a], u) == GivenUpIn(acts, u) + if GivesUp(a, u) then 1 else 0
  {
    assert (acts + [a])[..|acts|] == acts;
  }

  /** The outcome of the write of the object that a step makes, if it makes one. */
  function WriteOutcome(s: State, u: Uid, step: Step): Option<Outcome> {
    match step
    case AddFinalizer(o) => Some(o)
    case RecordHost(o) => Some(o)
    case UnsetHost(o) => Some(o)
    case RecordClass(o) => Some(o)
    case AddMgmtFinalizer(o) => Some(o)
    case DropMgmtFinalizer(o) => if TaskOf(s, u).Teardown? && TaskOf(s, u).obj.mgmtFin then Some(o) else None
    case DropFinalizer(o) => Some(o)
    case _ => None
  }

  predicate Lands(s: State, u: Uid, step: Step) {
    WriteOutcome(s, u, step).Some? && !WriteOutcome(s, u, step).value.Rejected?
  }

  /** No write of a reconcile repeats what is stored: it moves the object if and only if it lands. */
  lemma WritesMove(s: State, u: Uid, step: Step)
    requires Inv(s) && StepEnabled(s, u, step)
    ensures Moves(s, Own(u, step), u) <==> Lands(s, u, step)
  {
    assert TaskOk(s, u, TaskOf(s, u));
  }

  lemma EventKeepsTasks(s: State, e: ClaimMachine.Event)
    requires EventEnabled(s, e)
    ensures EventApply(s, e).tasks == s.tasks && EventApply(s, e).blocked == s.blocked
  {
  }

  /** What the actions of others leave to a reconcile of `u`. */
  lemma OthersKeepTask(s: State, a: Action, u: Uid)
    requires Enabled(s, a) && !a.Crash? && !(a.Own? && a.u == u)
    ensures TaskOf(Apply(s, a), u) == TaskOf(s, u) && !Moves(s, a, u)
  {
    if a.Env? { EventKeepsTasks(s, a.event); }
  }

  lemma BlockedFixed(s: State, a: Action)
    requires Enabled(s, a)
    ensures Apply(s, a).blocked == s.blocked
  {
    if a.Env? { EventKeepsTasks(s, a.event); }
  }

  /** No host is free for `u`. */
  ghost predicate NoneFree(s: State, u: Uid) {
    forall h :: !Free(s, u, h)
  }

  /** The lock of the host that `u` has recorded is taken. */
  predicate LockTaken(s: State, u: Uid) {
    u in s.store && s.store[u].ext.Some? && Held(s.locks, s.store[u].ext.value)
  }

  // ---------------------------------------------------------------- the management half

  /** The reconcile of `u` gets to the management half. */
  predicate Managed(s: State, u: Uid) {
    u in s.store && !s.store[u].deleting && u !in s.blocked && s.store[u].classed && s.store[u].mgmtFin
  }

  /** reconcileManagement below its finalizer, with what InstanceProperties says about it. */
  method Manage(m: ManagedInstance, interval: int, r: Replies) returns (result: Requeue, err: bool)
    requires interval > 0 && !m.triggered && m.calls == []
    modifies m
    ensures Pass(m.status, result, err, m.triggered) == ManagementPass(interval, m.spec, old(m.status), r)
    ensures m.calls == ManagementCalls(interval, m.spec, old(m.status), r)
    ensures Failures(m.calls) == if err then 1 else 0
    ensures m.status.phase.Ready? ==> !err && result.IsZero()
    ensures !err && result.IsZero() ==>
      m.status.phase.Ready? || FailedForGood(m.spec, m.status) || Forgotten(m.spec, old(m.status), r.lifecycle)
  {
    NoSilentStall(interval, m.spec, m.status, r);
    ErrorCondition(interval, m.spec, m.status, r);
    ghost var calls := ManagementCalls(interval, m.spec, m.status, r);
    result, err := m.ReconcileManagement(interval, r);
    assert [] + calls == calls;
  }

  // ---------------------------------------------------------------- the reconciler

  class InstanceReconciler {
    ghost const init: State
    ghost var trace: seq<Action>     // all that has happened since `init`
    ghost var faults: nat            // failed calls of the reconciles
    var s: State
    const provider: bool             // a provisioning provider is configured
    const noFreeHosts: int
    const tryLockFail: int
    const recheck: int
    const provisionPoll: int

    /** `libraryPoll` is the provisioning library's own default interval. */
    constructor (s: State, provider: bool, noFreeHosts: int, tryLockFail: int, recheck: int,
                 provisionPoll: int, libraryPoll: int)
      requires Inv(s) && libraryPoll > 0
      ensures Valid() && this.s == s && this.provider == provider
      ensures this.noFreeHosts == Positive(noFreeHosts, DEFAULT_NO_FREE_HOSTS)
      ensures this.tryLockFail == Positive(tryLockFail, DEFAULT_TRY_LOCK_FAIL)
      ensures this.recheck == Positive(recheck, DEFAULT_RECHECK)
      ensures this.provisionPoll == Positive(provisionPoll, libraryPoll)
    {
      this.init, this.trace, this.faults, this.s, this.provider := s, [], 0, s, provider;
      this.noFreeHosts := Positive(noFreeHosts, DEFAULT_NO_FREE_HOSTS);
      this.tryLockFail := Positive(tryLockFail, DEFAULT_TRY_LOCK_FAIL);
      this.recheck := Positive(recheck, DEFAULT_RECHECK);
      this.provisionPoll := Positive(provisionPoll, libraryPoll);
    }

    ghost predicate Valid()
      reads this
    {
      && noFreeHosts > 0 && tryLockFail > 0 && recheck > 0 && provisionPoll > 0
      && Inv(init) && ValidRun(init, trace) && After(init, trace) == s
    }

    /** How often reconciles of `u` have changed its stored spec or finalizers. */
    ghost function Moved(u: Uid): nat
      requires Valid()
      reads this
    {
      Progress(init, trace, u)
    }

    /** The reconcile of `u` stands at `t` and has moved its object `n` times. */
    ghost predicate At(u: Uid, t: Task, n: nat)
      reads this
    {
      Valid() && TaskOf(s, u) == t && Moved(u) == n
    }

    ghost predicate Stands(u: Uid, t: Task)
      reads this
    {
      Valid() && TaskOf(s, u) == t
    }

    /** The inventory has a reason to be asked again later. */
    ghost predicate MustWait(now: State, u: Uid, result: Requeue) {
      (result == Later(noFreeHosts) && NoneFree(now, u)) || (result == Later(tryLockFail) && LockTaken(now, u))
    }

    /** This reconcile found the instance Ready; see InstanceProperties.ReadySound. */
    predicate BecameReady(spec: Spec, before: Status, r: Replies, after: Status) {
      after.phase.Ready? && after == ManagementPass(recheck, spec, before, r).status
    }

    /** How many steps of reconciles of `u` stand for a failed call. */
    ghost function Errors(u: Uid): nat
      reads this
    {
      ErrorsIn(trace, u)
    }

    /** How many steps of reconciles of `u` have tried to give up a finalizer or its host. */
    ghost function GivenUp(u: Uid): nat
      reads this
    {
      GivenUpIn(trace, u)
    }

    /** Since then the run has only got longer; `n` more calls have failed, and `e` more steps tell so. */
    twostate predicate Grown(u: Uid, n: nat, e: nat)
      reads this
    {
      && old(trace) <= trace && s.blocked == old(s.blocked)
      && faults == old(faults) + n && Errors(u) == old(Errors(u)) + e
    }

    /** The same, with a failed call for every step that stands for one. */
    twostate predicate Sound(u: Uid, n: nat)
      reads this
    {
      && old(trace) <= trace && s.blocked == old(s.blocked)
      && faults == old(faults) + n && old(Errors(u)) <= Errors(u) <= old(Errors(u)) + n
    }

    /** One action of the machine takes place. */
    method Do(a: Action, ghost u: Uid)
      requires Valid() && Enabled(s, a)
      modifies this`s, this`trace
      ensures Valid() && s == Apply(old(s), a) && trace == old(trace) + [a]
      ensures Grown(u, 0, if Erroneous(a, u) then 1 else 0)
      ensures GivenUp(u) == old(GivenUp(u)) + if GivesUp(a, u) then 1 else 0
      ensures Moved(u) == old(Moved(u)) + if Moves(old(s), a, u) then 1 else 0
    {
      Extend(init, trace, a);
      ProgressExtend(init, trace, a, u);
      BlockedFixed(s, a);
      ErrorsExtend(trace, a, u);
      GivenUpExtend(trace, a, u);
      s := Apply(s, a);
      trace := trace + [a];
    }

    /** A step moves the object exactly if it lands a write of it. */
    lemma StepKeepsCount(u: Uid, step: Step)
      requires Valid() && StepEnabled(s, u, step)
      ensures Moves(s, Own(u, step), u) <==> Lands(s, u, step)
    {
      RunKeeps(init, trace);
      WritesMove(s, u, step);
    }

    /** The next step of the reconcile of `u`. */
    method Step(u: Uid, step: Step)
      requires Valid() && StepEnabled(s, u, step)
      modifies this`s, this`trace
      ensures At(u, StepEffect(old(s), u, step).next, old(Moved(u)) + if Lands(old(s), u, step) then 1 else 0)
      ensures Grown(u, 0, if ErrorFree(step) then 0 else 1)
      ensures trace == old(trace) + [Own(u, step)]
      ensures GivenUp(u) == old(GivenUp(u)) + if GivesUp(Own(u, step), u) then 1 else 0
    {
      StepKeepsCount(u, step);
      Do(Own(u, step), u);
    }

    /** Anybody but the reconcile of `u` does anything. */
    method Interfere(u: Uid)
      requires Valid()
      modifies this`s, this`trace
      ensures At(u, old(TaskOf(s, u)), old(Moved(u))) && Grown(u, 0, 0) && GivenUp(u) == old(GivenUp(u))
    {
      var n: nat :| 0 <= n;
      for i := 0 to n
        invariant At(u, old(TaskOf(s, u)), old(Moved(u))) && Grown(u, 0, 0) && GivenUp(u) == old(GivenUp(u))
      {
        var a: Action := *;
        if Enabled(s, a) && !a.Crash? && !(a.Own? && a.u == u) {
          OthersKeepTask(s, a, u);
          Do(a, u);
        }
      }
    }

    /** A remote read: it fails or not. */
    method Read(u: Uid) returns (ok: bool)
      requires Valid()
      modifies this`s, this`trace, this`faults
      ensures At(u, old(TaskOf(s, u)), old(Moved(u))) && Grown(u, if ok then 0 else 1, 0)
      ensures GivenUp(u) == old(GivenUp(u))
    {
      Interfere(u);
      ok := *;
      if !ok { faults := faults + 1; }
    }

    /** The fate of a remote write: anything. */
    method WriteFate(u: Uid) returns (o: Outcome)
      requires Valid()
      modifies this`s, this`trace, this`faults
      ensures At(u, old(TaskOf(s, u)), old(Moved(u))) && Grown(u, if o.Applied? then 0 else 1, 0)
    {
      Interfere(u);
      o := *;
      if o != Applied { faults := faults + 1; }
    }

    /** The fate of an Update of `obj`: anything, but a conflict if the stored version has moved on. */
    method UpdateFate(u: Uid, obj: Instance) returns (o: Outcome)
      requires Valid()
      modifies this`s, this`trace, this`faults
      ensures At(u, old(TaskOf(s, u)), old(Moved(u))) && Grown(u, if o.Applied? then 0 else 1, 0)
      ensures Permitted(s, u, obj, o)
    {
      Interfere(u);
      o := *;
      if u !in s.store || s.store[u].rv != obj.rv {
        o := Rejected;
      }
      if o != Applied { faults := faults + 1; }
    }

    // -------------------------------------------------------------- inventory calls

    /** Ahead of a lock, the host in hand is the one that is stored. */
    lemma Recorded(u: Uid)
      requires Valid()
      ensures
        var t := TaskOf(s, u);
        && (t.Inventory? && t.obj.ext.Some? && t.obj.invFin ==> u in s.store && s.store[u].ext == t.obj.ext)
        && (t.Cleanup? ==> u in s.store && s.store[u].ext == Some(t.host))
    {
      RunKeeps(init, trace);
      assert TaskOk(s, u, TaskOf(s, u));
    }

    method TryLock(u: Uid) returns (ok: bool)
      requires Valid() && StepEnabled(s, u, ClaimMachine.TryLock)
      modifies this`s, this`trace
      ensures
        var obj := old(TaskOf(s, u)).obj;
        At(u, if ok then Locked(obj, obj.ext.value) else Idle, old(Moved(u)))
      ensures Grown(u, 0, 0)
      ensures !ok ==>
        LockTaken(s, u) && u in s.store && s.store[u].ext.Some? && Held(s.locks, s.store[u].ext.value)
    {
      Interfere(u);
      Recorded(u);
      ok := !Held(s.locks, TaskOf(s, u).obj.ext.value);
      StepKeepsCount(u, ClaimMachine.TryLock);
      Do(Own(u, ClaimMachine.TryLock), u);
    }

    method TryLockCleanup(u: Uid) returns (ok: bool)
      requires Valid() && TaskOf(s, u).Cleanup?
      modifies this`s, this`trace
      ensures var t := old(TaskOf(s, u)); At(u, if ok then CleanupLocked(t.obj, t.host) else Idle, old(Moved(u)))
      ensures Grown(u, 0, 0)
      ensures !ok ==>
        LockTaken(s, u) && u in s.store && s.store[u].ext.Some? && Held(s.locks, s.store[u].ext.value)
    {
      Interfere(u);
      Recorded(u);
      ok := !Held(s.locks, TaskOf(s, u).host);
      StepKeepsCount(u, ClaimMachine.TryLockCleanup);
      Do(Own(u, ClaimMachine.TryLockCleanup), u);
    }

    method FindFreeHost(u: Uid) returns (r: Result<Option<HostId>, ()>)
      requires Valid() && TaskOf(s, u).Inventory? && TaskOf(s, u).obj.invFin && TaskOf(s, u).obj.ext.None?
      modifies this`s, this`trace, this`faults
      ensures At(u, if r.Ok? && r.value.Some? then Found(old(TaskOf(s, u)).obj, r.value.value) else Idle, old(Moved(u)))
      ensures Sound(u, if r.Ok? then 0 else 1)
      ensures r == Ok(None) ==>
        NoneFree(s, u) && forall h :: h in s.marks && s.marks[h].None? ==> u !in s.eligible || h !in s.eligible[u]
      ensures r.Ok? && r.value.Some? ==>
        var h := r.value.value;
        Free(s, u, h) && h in s.marks && s.marks[h].None? && u in s.eligible && h in s.eligible[u]
    {
      var ok := Read(u);
      if !ok {
        Step(u, Abort);
        return Err(());
      }
      var candidates := set h | h in s.marks && Free(s, u, h);
      if candidates == {} {
        assert forall h :: h in s.marks ==> h !in candidates;
        StepKeepsCount(u, FindNone);
        Do(Own(u, FindNone), u);
        return Ok(None);
      }
      var h :| h in candidates;
      StepKeepsCount(u, Find(h));
      Do(Own(u, Find(h)), u);
      r := Ok(Some(h));
    }

    /** A recorded host is in the inventory. */
    lemma HostKnown(u: Uid)
      requires Valid()
      ensures TaskOf(s, u).Locked? || TaskOf(s, u).CleanupLocked? ==> TaskOf(s, u).host in s.marks
    {
      RunKeeps(init, trace);
      assert TaskOk(s, u, TaskOf(s, u));
      assert StoreOk(s);
    }

    /** AssignHost: reads the mark, and sets it if it is free or the caller's. Ok(false) is a nil host. */
    method AssignHost(u: Uid) returns (r: Result<bool, ()>)
      requires Valid() && TaskOf(s, u).Locked?
      modifies this`s, this`trace, this`faults
      ensures
        var t := old(TaskOf(s, u));
        At(u, if r.Err? then Unlocking(t.host) else if r.value then Claimed(t.obj, t.host) else Taken(t.obj, t.host),
           old(Moved(u)))
      ensures Sound(u, if r.Ok? then 0 else 1)
    {
      HostKnown(u);
      var ok := Read(u);
      if !ok {
        Step(u, Abort);
        return Err(());
      }
      HostKnown(u);
      Step(u, ReadMark);
      if TaskOf(s, u).Taken? { return Ok(false); }
      var o := WriteFate(u);
      Step(u, WriteMark(o));
      r := if o.Applied? then Ok(true) else Err(());
    }

    /** The write half of UnassignHost: it is made even if the mark is gone already, and may fail. */
    method ClearHost(u: Uid) returns (ok: bool)
      requires Valid() && TaskOf(s, u).Clearing?
      modifies this`s, this`trace, this`faults
      ensures
        var t := old(TaskOf(s, u));
        At(u, if ok then Dropping(t.obj, Some(t.host)) else Unlocking(t.host), old(Moved(u)))
      ensures Sound(u, if ok then 0 else 1)
    {
      var o := WriteFate(u);
      Step(u, ClearMark(o));
      ok := o.Applied?;
    }

    /** UnassignHost: clears the mark of the host, whoever it names. */
    method UnassignHost(u: Uid) returns (ok: bool)
      requires Valid() && TaskOf(s, u).CleanupLocked?
      modifies this`s, this`trace, this`faults
      ensures
        var t := old(TaskOf(s, u));
        At(u, if ok then Dropping(t.obj, Some(t.host)) else Unlocking(t.host), old(Moved(u)))
      ensures Sound(u, if ok then 0 else 1)
    {
      ok := Read(u);
      if !ok {
        Step(u, Abort);
        return;
      }
      HostKnown(u);
      Step(u, ReadForClear);
      ok := ClearHost(u);
    }

    // -------------------------------------------------------------- reconcileInventory

    /** Ahead of its last write, an assignment works on an object that is neither allocated nor deleted. */
    lemma InHand(u: Uid)
      requires Valid() && (TaskOf(s, u).Taken? || TaskOf(s, u).Claimed?)
      ensures Fresh(TaskOf(s, u).obj) && TaskOf(s, u).obj.ext.Some?
    {
      RunKeeps(init, trace);
      assert TaskOk(s, u, TaskOf(s, u));
    }

    /** The record of what AssignHost answered: a host that is the caller's, or nil, so that it is unset. */
    method ConcludeAssign(u: Uid, claimed: bool) returns (err: bool)
      requires Valid() && if claimed then TaskOf(s, u).Claimed? else TaskOf(s, u).Taken?
      modifies this`s, this`trace, this`faults
      ensures Stands(u, Unlocking(old(TaskOf(s, u)).host)) && Sound(u, if err then 1 else 0)
      ensures !err ==> Moved(u) > old(Moved(u))
      ensures !err ==> u in s.store && s.store[u].classed == claimed && s.store[u].ext.Some? == claimed
    {
      var o := UpdateFate(u, TaskOf(s, u).obj);
      InHand(u);
      var step := if claimed then RecordClass(o) else UnsetHost(o);
      StepKeepsCount(u, step);
      Do(Own(u, step), u);
      err := o != Applied;
    }

    /** The deferred Unlock. */
    method UnlockHost(u: Uid)
      requires Valid() && TaskOf(s, u).Unlocking?
      modifies this`s, this`trace
      ensures At(u, Idle, old(Moved(u))) && Grown(u, 0, 0) && s.store == old(s.store)
    {
      StepKeepsCount(u, Unlock);
      Do(Own(u, Unlock), u);
    }

    /** The part under the lock; the deferred Unlock is left to the caller. */
    method AssignLocked(u: Uid) returns (claimed: bool, err: bool)
      requires Valid() && TaskOf(s, u).Locked?
      modifies this`s, this`trace, this`faults
      ensures Stands(u, Unlocking(old(TaskOf(s, u)).host)) && Sound(u, if err then 1 else 0)
      ensures !err ==> Moved(u) > old(Moved(u))
      ensures !err ==> u in s.store && s.store[u].classed == claimed && s.store[u].ext.Some? == claimed
    {
      var host := AssignHost(u);
      if host.Err? { return false, true; }
      claimed := host.value;
      err := ConcludeAssign(u, claimed);
    }

    /** FindFreeHost and the record of what it found. */
    method RecordFreeHost(u: Uid) returns (result: Requeue, err: bool)
      requires Valid() && TaskOf(s, u).Inventory? && TaskOf(s, u).obj.invFin && TaskOf(s, u).obj.ext.None?
      modifies this`s, this`trace, this`faults
      ensures Stands(u, Idle) && Sound(u, if err then 1 else 0)
      ensures result == DONE || (result == Later(noFreeHosts) && NoneFree(s, u))
      ensures !err ==> (result == DONE <==> Moved(u) > old(Moved(u)))
    {
      var found := FindFreeHost(u);
      if found.Err? { return DONE, true; }
      if found.value.None? { return Later(noFreeHosts), false; }
      var o := UpdateFate(u, TaskOf(s, u).obj);
      Step(u, RecordHost(o));
      result, err := DONE, o != Applied;
    }

    method AddInventoryFinalizer(u: Uid) returns (err: bool)
      requires Valid() && TaskOf(s, u).Inventory? && !TaskOf(s, u).obj.invFin
      modifies this`s, this`trace, this`faults
      ensures Stands(u, Idle) && Sound(u, if err then 1 else 0)
      ensures !err ==> Moved(u) > old(Moved(u))
    {
      var o := UpdateFate(u, TaskOf(s, u).obj);
      Step(u, AddFinalizer(o));
      err := o != Applied;
    }

    /** The recorded host: takes its lock, assigns it, and unlocks it on every way out. */
    method AssignRecorded(u: Uid) returns (claimed: bool, result: Requeue, err: bool)
      requires Valid() && StepEnabled(s, u, ClaimMachine.TryLock)
      modifies this`s, this`trace, this`faults
      ensures Stands(u, Idle) && Sound(u, if err then 1 else 0)
      ensures result == DONE || (result == Later(tryLockFail) && LockTaken(s, u) && !err)
      ensures !err ==> (result == DONE <==> Moved(u) > old(Moved(u)))
      ensures claimed ==> !err && result == DONE
      ensures !err && result == DONE ==>
        u in s.store && s.store[u].classed == claimed && s.store[u].ext.Some? == claimed
    {
      var locked := TryLock(u);
      if !locked { return false, Later(tryLockFail), false; }
      claimed, err := AssignLocked(u);
      claimed := claimed && !err;
      UnlockHost(u);
      result := DONE;
    }

    /**
     Fails exactly if a call failed, else writes, or waits for a host or for its lock. The phase tells
     which: Failed without a free host, Progressing with a host that was just allocated, else Allocating.
     */
    method ReconcileInventory(u: Uid, obj: Instance, m: ManagedInstance) returns (result: Requeue, err: bool)
      requires Valid() && TaskOf(s, u) == Inventory(obj)
      modifies this`s, this`trace, this`faults, m`status
      ensures Stands(u, Idle) && Sound(u, if err then 1 else 0)
      ensures !err ==> (result.IsZero() <==> Moved(u) > old(Moved(u)))
      ensures !err && !result.IsZero() ==> MustWait(s, u, result)
      ensures m.status == old(m.status).(phase := m.status.phase)
      ensures m.status.phase in {Allocating, Failed, Progressing}
      ensures m.status.phase.Failed? <==> obj.invFin && obj.ext.None? && !result.IsZero()
      ensures obj.invFin && obj.ext.Some? && !err && result.IsZero() ==>
        u in s.store && s.store[u].ext.Some? == s.store[u].classed == m.status.phase.Progressing?
      ensures !obj.invFin || obj.ext.None? || err || !result.IsZero() ==> !m.status.phase.Progressing?
    {
      m.status := m.status.(phase := Allocating);
      if !obj.invFin {
        err := AddInventoryFinalizer(u);
        return DONE, err;
      }
      if obj.ext.None? {
        result, err := RecordFreeHost(u);
        if result != DONE { m.status := m.status.(phase := Failed); }
        return;
      }
      var claimed;
      claimed, result, err := AssignRecorded(u);
      if claimed { m.status := m.status.(phase := Progressing); }
    }

    // -------------------------------------------------------------- reconcileManagement

    method AddManagementFinalizer(u: Uid) returns (err: bool)
      requires Valid() && TaskOf(s, u).Management? && !TaskOf(s, u).obj.mgmtFin
      modifies this`s, this`trace, this`faults
      ensures Stands(u, Idle) && Sound(u, if err then 1 else 0)
      ensures !err ==> Moved(u) > old(Moved(u))
    {
      var o := UpdateFate(u, TaskOf(s, u).obj);
      Step(u, AddMgmtFinalizer(o));
      err := o != Applied;
    }

    /** The end of a management reconcile, after calls that touch neither store nor inventory. */
    method Leave(u: Uid, failed: bool)
      requires Valid() && TaskOf(s, u).Management? && TaskOf(s, u).obj.mgmtFin
      modifies this`s, this`trace
      ensures At(u, Idle, old(Moved(u))) && Grown(u, 0, if failed then 1 else 0)
    {
      Interfere(u);
      Step(u, if failed then Abort else Finish);
    }

    method ReconcileManagement(u: Uid, obj: Instance, m: ManagedInstance, r: Replies)
      returns (result: Requeue, err: bool)
      requires Valid() && TaskOf(s, u) == Management(obj) && !m.triggered && m.calls == []
      modifies this`s, this`trace, this`faults, m
      ensures Stands(u, Idle) && Sound(u, if err then 1 else 0)
      ensures m.status.phase.Ready? ==> obj.mgmtFin && !err && result.IsZero()
      ensures !obj.mgmtFin ==> result == DONE && !m.triggered && m.calls == []
      ensures !obj.mgmtFin ==> m.status == old(m.status).(phase := if err then Failed else Progressing)
      ensures obj.mgmtFin ==>
        Pass(m.status, result, err, m.triggered) == ManagementPass(recheck, m.spec, old(m.status), r)
      ensures obj.mgmtFin ==> m.calls == ManagementCalls(recheck, m.spec, old(m.status), r)
      ensures !err && result.IsZero() ==>
        || Moved(u) > old(Moved(u)) || BecameReady(m.spec, old(m.status), r, m.status)
        || FailedForGood(m.spec, m.status) || Forgotten(m.spec, old(m.status), r.lifecycle)
    {
      if !obj.mgmtFin {
        err := AddManagementFinalizer(u);
        m.status := m.status.(phase := if err then Failed else Progressing);
        return DONE, err;
      }
      result, err := Manage(m, recheck, r);
      Leave(u, err);
      faults := faults + Failures(m.calls);
    }

    /** handleUpdate. */
    method HandleUpdate(u: Uid, obj: Instance, m: ManagedInstance, r: Replies) returns (result: Requeue, err: bool)
      requires Valid() && !m.triggered && m.calls == [] && !obj.deleting && TaskOf(s, u) == Dispatch(s, u, obj)
      requires u in s.blocked <==> m.spec.realTemplate && !provider
      modifies this`s, this`trace, this`faults, m
      ensures Stands(u, Idle) && Sound(u, if err then 1 else 0)
      ensures m.status.phase.Ready? ==>
        u !in s.blocked && obj.classed && obj.mgmtFin && !err && BecameReady(m.spec, old(m.status), r, m.status)
      ensures u !in s.blocked && obj.classed && obj.mgmtFin ==>
        Pass(m.status, result, err, m.triggered) == ManagementPass(recheck, m.spec, old(m.status), r)
      ensures u in s.blocked || !obj.classed || !obj.mgmtFin ==> OnlyPhase(old(m.status), m.status) && !m.triggered
      ensures u in s.blocked ==>
        !err && result == DONE && m.status.phase.Failed? && trace == old(trace) && m.calls == []
      ensures u !in s.blocked && obj.classed && !obj.mgmtFin ==> m.status.phase == if err then Failed else Progressing
      ensures u !in s.blocked && !obj.classed ==>
        (m.status.phase.Failed? <==> obj.invFin && obj.ext.None? && !result.IsZero())
        && (m.status.phase.Progressing? ==> u in s.store && s.store[u].classed && !err && result.IsZero())
      ensures !err && result.IsZero() ==>
        || Moved(u) > old(Moved(u)) || BecameReady(m.spec, old(m.status), r, m.status)
        || (m.status.phase.Failed? && u in s.blocked) || FailedForGood(m.spec, m.status)
        || Forgotten(m.spec, old(m.status), r.lifecycle)
      ensures !err && !result.IsZero() ==>
        MustWait(s, u, result) || result == ManagementPass(recheck, m.spec, old(m.status), r).result
    {
      if m.spec.realTemplate && !provider {
        m.status := m.status.(phase := Failed);
        return DONE, false;
      }
      if !obj.classed {
        result, err := ReconcileInventory(u, obj, m);
      } else {
        result, err := ReconcileManagement(u, obj, m, r);
      }
    }

    // -------------------------------------------------------------- handleDeletion

    /** The deprovisioning template, if there is one: whether the cleanup may go on. */
    method Deprovisioned(m: ManagedInstance, d: Deprovision) returns (go: bool, result: Requeue, err: bool)
      modifies m`status, this`faults
      ensures faults == old(faults) + (if err then 1 else 0) && trace == old(trace)
      ensures go <==> !m.spec.realTemplate || (provider && !d.err && (d.done || d.result == DONE))
      ensures err <==> m.spec.realTemplate && provider && d.err
      ensures !go ==> result == if provider then d.result else DONE
      ensures m.status == old(m.status).(phase := if m.spec.realTemplate && !provider then Failed else Deleting)
    {
      m.status := m.status.(phase := Deleting);
      go, result, err := true, DONE, false;
      if m.spec.realTemplate {
        if !provider {
          m.status := m.status.(phase := Failed);
          return false, DONE, false;
        }
        var done := d.done || (d.result.IsZero() && !d.err);
        if d.err { faults := faults + 1; }
        go, result, err := !d.err && done, d.result, d.err;
      }
    }

    /** The removal of the management finalizer. */
    method DropManagement(u: Uid, obj: Instance) returns (ok: bool)
      requires Valid() && TaskOf(s, u) == Teardown(obj) && obj.mgmtFin && u !in s.blocked
      modifies this`s, this`trace, this`faults
      ensures Stands(u, if ok then CleanupStage(obj.(mgmtFin := false, rv := obj.rv + 1)) else Idle)
      ensures Sound(u, if ok then 0 else 1)
      ensures Moved(u) == old(Moved(u)) + 1 || (!ok && Moved(u) == old(Moved(u)))
    {
      var o := UpdateFate(u, obj);
      Step(u, DropMgmtFinalizer(o));
      ok := o == Applied;
    }

    /** handleDeletion up to the removal of the management finalizer. */
    method CleanupManagement(u: Uid, obj: Instance, m: ManagedInstance, d: Deprovision)
      returns (go: bool, result: Requeue, err: bool)
      requires Valid() && TaskOf(s, u) == Teardown(obj)
      requires u in s.blocked <==> m.spec.realTemplate && !provider
      modifies this`s, this`trace, this`faults, m`status
      ensures Valid() && Sound(u, if err then 1 else 0)
      ensures go ==>
        !err && TaskOf(s, u) == CleanupStage(if obj.mgmtFin then obj.(mgmtFin := false, rv := obj.rv + 1) else obj)
      ensures go ==> Moved(u) == old(Moved(u)) + if obj.mgmtFin then 1 else 0
      ensures !go ==> obj.mgmtFin && (Moved(u) == old(Moved(u)) || (err && Moved(u) == old(Moved(u)) + 1))
      ensures !go ==> TaskOf(s, u).Idle? && (!err && result.IsZero() ==> u in s.blocked && m.status.phase.Failed?)
      ensures !go && !err && !result.IsZero() ==> m.spec.realTemplate && !d.done && result == d.result
      ensures
        var over := !m.spec.realTemplate || (provider && !d.err && (d.done || d.result == DONE));
        obj.mgmtFin && !over ==>
          && !go && err == (provider && d.err) && result == (if provider then d.result else DONE)
          && Moved(u) == old(Moved(u)) && GivenUp(u) == old(GivenUp(u))
      ensures m.status == if !obj.mgmtFin then old(m.status)
        else old(m.status).(phase := if m.spec.realTemplate && !provider then Failed else Deleting)
    {
      if !obj.mgmtFin {
        Step(u, DropMgmtFinalizer(Applied));
        return true, DONE, false;
      }
      go, result, err := Deprovisioned(m, d);
      if !go {
        Step(u, if err then Abort else Finish);
        return;
      }
      go := DropManagement(u, obj);
      result, err := DONE, !go;
    }

    /** The finalizer, after the host is unassigned. */
    method DropAssigned(u: Uid) returns (err: bool)
      requires Valid() && TaskOf(s, u).Dropping? && TaskOf(s, u).held.Some?
      modifies this`s, this`trace, this`faults
      ensures Stands(u, Unlocking(old(TaskOf(s, u)).held.value)) && Sound(u, if err then 1 else 0)
      ensures Moved(u) >= old(Moved(u)) && (!err ==> Moved(u) > old(Moved(u)))
    {
      var o := UpdateFate(u, TaskOf(s, u).obj);
      Step(u, DropFinalizer(o));
      err := o != Applied;
    }

    /** The part under the lock; the deferred Unlock is left to the caller. */
    method ReleaseLocked(u: Uid) returns (err: bool)
      requires Valid() && TaskOf(s, u).CleanupLocked?
      modifies this`s, this`trace, this`faults
      ensures Stands(u, Unlocking(old(TaskOf(s, u)).host)) && Sound(u, if err then 1 else 0)
      ensures Moved(u) >= old(Moved(u)) && (!err ==> Moved(u) > old(Moved(u)))
    {
      var ok := UnassignHost(u);
      if !ok { return true; }
      err := DropAssigned(u);
    }

    /** The end of a deletion without a recorded host. */
    method DropUnassigned(u: Uid) returns (err: bool)
      requires Valid() && TaskOf(s, u).Dropping? && TaskOf(s, u).held.None?
      modifies this`s, this`trace, this`faults
      ensures Stands(u, Idle) && Sound(u, if err then 1 else 0)
      ensures Moved(u) >= old(Moved(u)) && (!err ==> Moved(u) > old(Moved(u)))
    {
      var o := UpdateFate(u, TaskOf(s, u).obj);
      Step(u, DropFinalizer(o));
      err := o != Applied;
    }

    /** The recorded host: takes its lock, releases it, and unlocks it on every way out. */
    method ReleaseRecorded(u: Uid) returns (result: Requeue, err: bool)
      requires Valid() && TaskOf(s, u).Cleanup?
      modifies this`s, this`trace, this`faults
      ensures Stands(u, Idle) && Sound(u, if err then 1 else 0)
      ensures Moved(u) >= old(Moved(u)) && (!err && result == DONE ==> Moved(u) > old(Moved(u)))
      ensures result == DONE || (result == Later(tryLockFail) && LockTaken(s, u) && !err)
    {
      var locked := TryLockCleanup(u);
      if !locked { return Later(tryLockFail), false; }
      err := ReleaseLocked(u);
      UnlockHost(u);
      result := DONE;
    }

    /** The inventory cleanup. */
    method CleanupInventory(u: Uid, obj: Instance) returns (result: Requeue, err: bool)
      requires Valid() && TaskOf(s, u) == CleanupStage(obj)
      modifies this`s, this`trace, this`faults
      ensures Stands(u, Idle) && Sound(u, if err then 1 else 0)
      ensures Moved(u) >= old(Moved(u))
      ensures !err && result.IsZero() ==> Moved(u) > old(Moved(u)) || !obj.invFin
      ensures !err && !result.IsZero() ==> MustWait(s, u, result)
    {
      if !obj.invFin { return DONE, false; }
      if obj.ext.None? {
        err := DropUnassigned(u);
        return DONE, err;
      }
      result, err := ReleaseRecorded(u);
    }

    /**
     handleDeletion. As long as the deprovisioning that an instance with the management finalizer needs is
     not over, or has failed, it gives up neither a finalizer nor the host.
     */
    method HandleDeletion(u: Uid, obj: Instance, m: ManagedInstance, d: Deprovision)
      returns (result: Requeue, err: bool)
      requires Valid() && TaskOf(s, u) == Teardown(obj)
      requires u in s.blocked <==> m.spec.realTemplate && !provider
      modifies this`s, this`trace, this`faults, m`status
      ensures Stands(u, Idle) && Sound(u, if err then 1 else 0)
      ensures m.status == if !obj.mgmtFin then old(m.status)
        else old(m.status).(phase := if m.spec.realTemplate && !provider then Failed else Deleting)
      ensures
        var over := !m.spec.realTemplate || (provider && !d.err && (d.done || d.result == DONE));
        obj.mgmtFin && !over ==>
          && err == (provider && d.err) && result == (if provider then d.result else DONE)
          && Moved(u) == old(Moved(u)) && GivenUp(u) == old(GivenUp(u))
      ensures !err && result.IsZero() ==>
        || Moved(u) > old(Moved(u)) || (m.status.phase.Failed? && u in s.blocked)
        || (!obj.invFin && !obj.mgmtFin)
      ensures !err && !result.IsZero() ==>
        MustWait(s, u, result) || (m.spec.realTemplate && !d.done && result == d.result)
    {
      var go;
      go, result, err := CleanupManagement(u, obj, m, d);
      if go {
        result, err := CleanupInventory(u, if obj.mgmtFin then obj.(mgmtFin := false, rv := obj.rv + 1) else obj);
      }
    }

    // -------------------------------------------------------------- Reconcile

    /** A stored object has a finalizer or is not being deleted, so a status write does not remove it. */
    lemma StoredLasts(u: Uid)
      requires Valid()
      ensures u in s.store ==> u in EventApply(s, Touch(u)).store
    {
      RunKeeps(init, trace);
      assert StoreOk(s);
    }

    /** Status().Update, if the status changed; a vanished object is not an error. */
    method WriteStatus(u: Uid) returns (err: bool, landed: bool)
      requires Valid()
      modifies this`s, this`trace, this`faults
      ensures At(u, old(TaskOf(s, u)), old(Moved(u))) && Grown(u, if err then 1 else 0, 0)
      ensures GivenUp(u) == old(GivenUp(u))
      ensures u !in s.store ==> !err && !landed
      ensures u in s.store && !err ==> landed
    {
      Interfere(u);
      StoredLasts(u);
      err, landed := false, false;
      if u in s.store {
        var o: Outcome := *;
        landed := o != Rejected;
        if landed { Do(Env(Touch(u)), u); }
        if o != Applied { faults := faults + 1; }
        err := o != Applied;
      }
    }

    lemma DeletedHasFinalizer(u: Uid)
      requires Valid()
      ensures u in s.store && s.store[u].deleting ==> s.store[u].invFin
    {
      RunKeeps(init, trace);
      assert StoreOk(s);
    }

    /** The dispatch of Reconcile on a stored object. */
    method Handle(u: Uid, m: ManagedInstance, r: Replies, d: Deprovision) returns (result: Requeue, err: bool)
      requires Valid() && TaskOf(s, u).Idle? && u in s.store && !m.triggered && m.calls == []
      requires u in s.blocked <==> m.spec.realTemplate && !provider
      modifies this`s, this`trace, this`faults, m
      ensures Stands(u, Idle) && Sound(u, if err then 1 else 0)
      ensures |old(trace)| < |trace| && trace[|old(trace)|] == Own(u, Start)
      ensures old(Managed(s, u)) ==>
        Pass(m.status, result, err, m.triggered) == ManagementPass(recheck, m.spec, old(m.status), r)
      ensures !old(Managed(s, u)) ==> OnlyPhase(old(m.status), m.status) && !m.triggered
      ensures
        var over := !m.spec.realTemplate || (provider && !d.err && (d.done || d.result == DONE));
        old(s.store[u].deleting && s.store[u].mgmtFin) && !over ==>
          && err == (provider && d.err) && result == (if provider then d.result else DONE)
          && m.status == old(m.status).(phase := if provider then Deleting else Failed)
          && Moved(u) == old(Moved(u)) && GivenUp(u) == old(GivenUp(u))
      ensures !err && result.IsZero() ==>
        || Moved(u) > old(Moved(u)) || BecameReady(m.spec, old(m.status), r, m.status)
        || (m.status.phase.Failed? && u in s.blocked) || FailedForGood(m.spec, m.status)
        || Forgotten(m.spec, old(m.status), r.lifecycle)
      ensures !err && !result.IsZero() ==>
        || MustWait(s, u, result) || (m.spec.realTemplate && !d.done && result == d.result)
        || result == ManagementPass(recheck, m.spec, old(m.status), r).result
    {
      var obj := s.store[u];
      DeletedHasFinalizer(u);
      Step(u, Start);
      if obj.deleting {
        result, err := HandleDeletion(u, obj, m, d);
      } else {
        result, err := HandleUpdate(u, obj, m, r);
      }
    }

    /** The handler, and the status write if the status has changed; `n` actions into the run the handler returns. */
    method Process(u: Uid, m: ManagedInstance, r: Replies, d: Deprovision)
      returns (stored: Status, result: Requeue, err: bool, ghost n: nat, ghost landed: bool)
      requires Valid() && TaskOf(s, u).Idle? && u in s.store && !m.triggered && m.calls == []
      requires u in s.blocked <==> m.spec.realTemplate && !provider
      modifies this`s, this`trace, this`faults, m
      ensures Stands(u, Idle) && old(trace) <= trace && s.blocked == old(s.blocked)
      ensures err <==> faults > old(faults)
      ensures !err ==> Errors(u) == old(Errors(u))
      ensures |old(trace)| < n <= |trace| && ValidRun(init, trace[..n]) && trace[|old(trace)|] == Own(u, Start)
      ensures old(Managed(s, u)) ==>
        && m.status == ManagementPass(recheck, m.spec, old(m.status), r).status
        && m.triggered == ManagementPass(recheck, m.spec, old(m.status), r).triggered
      ensures !old(Managed(s, u)) ==> OnlyPhase(old(m.status), m.status) && !m.triggered
      ensures
        var over := !m.spec.realTemplate || (provider && !d.err && (d.done || d.result == DONE));
        old(s.store[u].deleting && s.store[u].mgmtFin) && !over ==>
          && (provider && d.err ==> err) && result == (if provider then d.result else DONE)
          && m.status == old(m.status).(phase := if provider then Deleting else Failed)
          && Moved(u) == old(Moved(u)) && GivenUp(u) == old(GivenUp(u))
      ensures !err && result.IsZero() ==>
        || Moved(u) > old(Moved(u)) || BecameReady(m.spec, old(m.status), r, m.status)
        || (m.status.phase.Failed? && u in s.blocked) || FailedForGood(m.spec, m.status)
        || Forgotten(m.spec, old(m.status), r.lifecycle)
      ensures !err && !result.IsZero() ==>
        || MustWait(After(init, trace[..n]), u, result)
        || (m.spec.realTemplate && !d.done && result == d.result)
        || result == ManagementPass(recheck, m.spec, old(m.status), r).result
      ensures stored == if landed then m.status else old(m.status)
      ensures m.status == old(m.status) ==> n == |trace| && landed
      ensures !err && u in s.store ==> stored == m.status
    {
      ghost var status := m.status;
      stored := m.status;
      result, err := Handle(u, m, r, d);
      ghost var done := trace;
      n, landed := |trace|, true;
      assert trace[..n] == done;
      if m.status != stored {
        var statusErr, kept;
        statusErr, kept := WriteStatus(u);
        assert trace[..n] == done;
        err, landed := err || statusErr, kept;
        if kept { stored := m.status; }
      }
    }

    /**
     Reconcile. Its calls and everything around them are a run of the machine; it ends without a
     lock; it returns an error exactly if a call of its own failed, and without an error none of its
     steps stands for a failed call. It never stalls silently: without an error and without a requeue it
     has changed the stored spec or finalizers, or ended Ready, or failed for want of a provider or by a
     failed template, or the lifecycle has forgotten the template, or the object is gone. It asks for a
     requeue only for a reason that stood when the handler returned, `n` actions into the run, and writes the
     status after that only if it has changed. While the
     deprovisioning of an instance is not over, as read `start` actions into the run, it gives up neither a
     finalizer nor the host.

     `stored` is the status that the API keeps. If the management half was reached, `e` is this
     reconcile as an event of InstanceProperties; else only the phase may change and no restart is triggered.
     */
    method Reconcile(u: Uid, spec: Spec, status: Status, r: Replies, d: Deprovision)
      returns (after: Status, stored: Status, result: Requeue, err: bool,
               ghost start: nat, ghost n: nat, ghost e: Option<InstanceProperties.Event>, ghost triggered: bool)
      requires Valid() && TaskOf(s, u).Idle? && (u in s.blocked <==> spec.realTemplate && !provider)
      modifies this`s, this`trace, this`faults
      ensures Stands(u, Idle) && old(trace) <= trace && s.blocked == old(s.blocked)
      ensures err <==> faults > old(faults)
      ensures !err ==> Errors(u) == old(Errors(u))
      ensures !err && result.IsZero() ==>
        || Moved(u) > old(Moved(u)) || BecameReady(spec, status, r, after)
        || (after.phase.Failed? && u in s.blocked) || FailedForGood(spec, after)
        || Forgotten(spec, status, r.lifecycle)
        || u !in s.store
      ensures |old(trace)| <= start <= n <= |trace| && ValidRun(init, trace[..start]) && ValidRun(init, trace[..n])
      ensures !err && !result.IsZero() ==>
        || MustWait(After(init, trace[..n]), u, result)
        || (spec.realTemplate && !d.done && result == d.result)
        || result == ManagementPass(recheck, spec, status, r).result
      ensures start == n ==> Moved(u) == old(Moved(u)) && GivenUp(u) == old(GivenUp(u)) && after == stored == status
      ensures start == n ==> result == DONE && (err || u !in s.store)
      ensures start < n ==> trace[start] == Own(u, Start) && u in After(init, trace[..start]).store
      ensures start < n ==>
        var obj := After(init, trace[..start]).store[u];
        var over := !spec.realTemplate || (provider && !d.err && (d.done || d.result == DONE));
        obj.deleting && obj.mgmtFin && !over ==>
          && (provider && d.err ==> err) && result == (if provider then d.result else DONE)
          && after == status.(phase := if provider then Deleting else Failed)
          && Moved(u) == old(Moved(u)) && GivenUp(u) == old(GivenUp(u))
      ensures e.Some? ==>
        && e.value.Reconcile? && e.value.replies == r
        && stored == StatusAfter(recheck, spec, status, e.value)
        && (triggered <==> Triggered(recheck, spec, status, e.value) == 1)
      ensures e.None? ==> OnlyPhase(status, stored) && !triggered
      ensures !err && u in s.store ==> stored == after
      ensures after == status ==> n == |trace|
    {
      e, triggered := None, false;
      after, stored, result, err := status, status, DONE, true;
      var ok := Read(u);
      ghost var front := trace;
      start, n := |trace|, |trace|;
      assert trace[..n] == front;
      if !ok { return; }
      err := false;
      if u !in s.store { return; }
      var m := new ManagedInstance(spec, status);
      ghost var managed, landed := Managed(s, u), false;
      stored, result, err, n, landed := Process(u, m, r, d);
      assert trace[..start] == front;
      after, triggered := m.status, m.triggered;
      if managed { e := Some(InstanceProperties.Event.Reconcile(r, landed)); }
    }
  }
}
