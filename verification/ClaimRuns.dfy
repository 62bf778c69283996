/** Composing runs, and the runs of one reconcile that nobody interrupts. */
module ClaimRuns {
  import opened Wrappers
  import opened HostLock
  import opened ClaimMachine

  lemma {:induction false} Compose(s: State, one: seq<Action>, two: seq<Action>)
    requires ValidRun(s, one) && ValidRun(After(s, one), two)
    ensures ValidRun(s, one + two) && After(s, one + two) == After(After(s, one), two)
    decreases |one|
  {
    if one == [] {
      assert one + two == two;
    } else {
      assert (one + two)[1..] == one[1..] + two;
      Compose(Apply(s, one[0]), one[1..], two);
    }
  }

  lemma Extend(s: State, acts: seq<Action>, a: Action)
    requires ValidRun(s, acts) && Enabled(After(s, acts), a)
    ensures ValidRun(s, acts + [a]) && After(s, acts + [a]) == Apply(After(s, acts), a)
  {
    var t := After(s, acts);
    var t' := Apply(t, a);
    assert [a][1..] == [];
    assert ValidRun(t', []) && After(t', []) == t';
    assert ValidRun(t, [a]) && After(t, [a]) == Apply(t, a);
    Compose(s, acts, [a]);
  }

  /** `u` is stored, wants a host and no reconcile of it is running. */
  predicate Waiting(s: State, u: Uid) {
    && u in s.store && TaskOf(s, u).Idle? && u !in s.blocked
    && !s.store[u].deleting && !s.store[u].classed
  }

  function Stored(s: State, u: Uid): Option<Instance> {
    if u in s.store then Some(s.store[u]) else None
  }

  function Bump(obj: Instance): Instance {
    obj.(rv := obj.rv + 1)
  }

  function Rest(s: State, u: Uid): State {
    s.(tasks := s.tasks[u := Idle])
  }

  lemma Chain2(s: State, a: Action, b: Action, s1: State)
    requires Enabled(s, a) && Apply(s, a) == s1 && Enabled(s1, b)
    ensures ValidRun(s, [a, b]) && After(s, [a, b]) == Apply(s1, b)
  {
    Extend(s, [], a);
    Extend(s, [a], b);
    assert [] + [a] == [a] && [a] + [b] == [a, b];
  }

  lemma Chain3(s: State, a: Action, b: Action, c: Action, s1: State, s2: State)
    requires Enabled(s, a) && Apply(s, a) == s1 && Enabled(s1, b) && Apply(s1, b) == s2 && Enabled(s2, c)
    ensures ValidRun(s, [a, b, c]) && After(s, [a, b, c]) == Apply(s2, c)
  {
    Chain2(s, a, b, s1);
    Extend(s, [a, b], c);
    assert [a, b] + [c] == [a, b, c];
  }

  lemma SoloAddFinalizer(s: State, u: Uid) returns (acts: seq<Action>)
    requires Waiting(s, u) && !s.store[u].invFin
    ensures acts == [Own(u, Start), Own(u, AddFinalizer(Applied))]
    ensures ValidRun(s, acts)
    ensures After(s, acts) == Rest(s, u).(store := s.store[u := Bump(s.store[u]).(invFin := true)])
  {
    var a, b := Own(u, Start), Own(u, AddFinalizer(Applied));
    acts := [a, b];
    var s1 := s.(tasks := s.tasks[u := Inventory(s.store[u])]);
    assert Apply(s, a) == s1;
    Chain2(s, a, b, s1);
    assert s1.tasks[u := Idle] == s.tasks[u := Idle];
  }

  /** Start and FindFreeHost. */
  lemma SoloFind(s: State, u: Uid, h: HostId) returns (acts: seq<Action>)
    requires Waiting(s, u) && s.store[u].invFin && s.store[u].ext.None? && Free(s, u, h)
    ensures acts == [Own(u, Start), Own(u, Find(h))] && ValidRun(s, acts)
    ensures After(s, acts) == s.(tasks := s.tasks[u := Found(s.store[u], h)])
  {
    var a, b := Own(u, Start), Own(u, Find(h));
    acts := [a, b];
    var s1 := s.(tasks := s.tasks[u := Inventory(s.store[u])]);
    assert Apply(s, a) == s1;
    Chain2(s, a, b, s1);
    assert s1.tasks[u := Found(s.store[u], h)] == s.tasks[u := Found(s.store[u], h)];
  }

  lemma SoloRecord(s: State, u: Uid, h: HostId) returns (acts: seq<Action>)
    requires Waiting(s, u) && s.store[u].invFin && s.store[u].ext.None? && Free(s, u, h)
    ensures acts == [Own(u, Start), Own(u, Find(h)), Own(u, RecordHost(Applied))]
    ensures ValidRun(s, acts)
    ensures After(s, acts) == Rest(s, u).(store := s.store[u := Bump(s.store[u]).(ext := Some(h))])
  {
    var front := SoloFind(s, u, h);
    var mid := After(s, front);
    Extend(s, front, Own(u, RecordHost(Applied)));
    acts := front + [Own(u, RecordHost(Applied))];
    assert mid.tasks[u := Idle] == s.tasks[u := Idle];
  }

  /** `mid` is `s` with `u` inside the critical section of `h`. */
  predicate Inside(s: State, mid: State, u: Uid, h: HostId, t: Task) {
    mid == s.(locks := s.locks[h := true], tasks := s.tasks[u := t])
  }

  /** Leaving a critical section undoes what entering it has changed. */
  lemma RestFrom(s: State, mid: State, u: Uid, h: HostId, t: Task,
                 store: map<Uid, Instance>, marks: map<HostId, Option<Uid>>)
    requires Inside(s, mid, u, h, t)
    ensures Rest(mid, u).(store := store, marks := marks, locks := mid.locks[h := false]) ==
            Rest(s, u).(store := store, marks := marks, locks := s.locks[h := false])
  {
    assert mid.tasks[u := Idle] == s.tasks[u := Idle];
    assert mid.locks[h := false] == s.locks[h := false];
  }

  /** Start and TryLock. */
  lemma LockedStart(s: State, u: Uid, h: HostId) returns (acts: seq<Action>)
    requires Waiting(s, u) && s.store[u].invFin && s.store[u].ext == Some(h) && !Held(s.locks, h)
    ensures acts == [Own(u, Start), Own(u, TryLock)] && ValidRun(s, acts)
    ensures Inside(s, After(s, acts), u, h, Locked(s.store[u], h))
  {
    var a, b := Own(u, Start), Own(u, TryLock);
    acts := [a, b];
    var s1 := s.(tasks := s.tasks[u := Inventory(s.store[u])]);
    assert Apply(s, a) == s1;
    Chain2(s, a, b, s1);
    assert s1.tasks[u := Locked(s.store[u], h)] == s.tasks[u := Locked(s.store[u], h)];
  }

  /** AssignHost's answer to what it reads. */
  function Verdict(s: State, u: Uid, h: HostId, obj: Instance): Task
    requires h in s.marks
  {
    if Claimable(s.marks[h], u) then Writing(obj, h) else Taken(obj, h)
  }

  /** Start, TryLock, and AssignHost's read. */
  lemma LockedRead(s: State, u: Uid, h: HostId) returns (acts: seq<Action>)
    requires Waiting(s, u) && s.store[u].invFin && s.store[u].ext == Some(h)
    requires !Held(s.locks, h) && h in s.marks
    ensures acts == [Own(u, Start), Own(u, TryLock), Own(u, ReadMark)]
    ensures ValidRun(s, acts) && Inside(s, After(s, acts), u, h, Verdict(s, u, h, s.store[u]))
  {
    var front := LockedStart(s, u, h);
    var mid := After(s, front);
    Extend(s, front, Own(u, ReadMark));
    acts := front + [Own(u, ReadMark)];
    var t := Verdict(s, u, h, s.store[u]);
    assert mid.tasks[u := t] == s.tasks[u := t];
  }

  /** The write half of a claim and the deferred Unlock. */
  lemma LockedWrite(s: State, u: Uid, h: HostId, obj: Instance) returns (acts: seq<Action>)
    requires TaskOf(s, u) == Writing(obj, h) && u in s.store && s.store[u] == obj && !obj.deleting
    requires Held(s.locks, h)
    ensures acts == [Own(u, WriteMark(Applied)), Own(u, RecordClass(Applied)), Own(u, Unlock)]
    ensures ValidRun(s, acts)
    ensures After(s, acts) == Rest(s, u).(store := s.store[u := Bump(obj).(classed := true)],
                                          marks := s.marks[h := Some(u)], locks := s.locks[h := false])
  {
    var a, b, c := Own(u, WriteMark(Applied)), Own(u, RecordClass(Applied)), Own(u, Unlock);
    acts := [a, b, c];
    var s1 := s.(tasks := s.tasks[u := Claimed(obj, h)], marks := s.marks[h := Some(u)]);
    var s2 := s1.(tasks := s.tasks[u := Unlocking(h)], store := s.store[u := Bump(obj).(classed := true)]);
    assert Apply(s, a) == s1;
    assert s1.tasks[u := Unlocking(h)] == s2.tasks;
    assert Apply(s1, b) == s2;
    Chain3(s, a, b, c, s1, s2);
    assert s2.tasks[u := Idle] == s.tasks[u := Idle];
  }

  /** The whole locked section of a successful claim. */
  lemma SoloClaim(s: State, u: Uid, h: HostId) returns (acts: seq<Action>)
    requires Waiting(s, u) && s.store[u].invFin && s.store[u].ext == Some(h)
    requires !Held(s.locks, h) && h in s.marks && Claimable(s.marks[h], u)
    ensures acts == [Own(u, Start), Own(u, TryLock), Own(u, ReadMark)]
                    + [Own(u, WriteMark(Applied)), Own(u, RecordClass(Applied)), Own(u, Unlock)]
    ensures ValidRun(s, acts)
    ensures After(s, acts) == Rest(s, u).(store := s.store[u := Bump(s.store[u]).(classed := true)],
                                          marks := s.marks[h := Some(u)], locks := s.locks[h := false])
  {
    var front := LockedRead(s, u, h);
    var mid := After(s, front);
    var back := LockedWrite(mid, u, h, s.store[u]);
    Compose(s, front, back);
    acts := front + back;
    RestFrom(s, mid, u, h, Writing(s.store[u], h),
             s.store[u := Bump(s.store[u]).(classed := true)], s.marks[h := Some(u)]);
  }

  lemma LockedUnset(s: State, u: Uid, h: HostId, obj: Instance) returns (acts: seq<Action>)
    requires TaskOf(s, u) == Taken(obj, h) && u in s.store && s.store[u] == obj && !obj.deleting && Held(s.locks, h)
    ensures acts == [Own(u, UnsetHost(Applied)), Own(u, Unlock)]
    ensures ValidRun(s, acts)
    ensures After(s, acts) == Rest(s, u).(store := s.store[u := Bump(obj).(ext := None)],
                                          locks := s.locks[h := false])
  {
    var a, b := Own(u, UnsetHost(Applied)), Own(u, Unlock);
    acts := [a, b];
    var s1 := s.(tasks := s.tasks[u := Unlocking(h)], store := s.store[u := Bump(obj).(ext := None)]);
    assert Apply(s, a) == s1;
    Chain2(s, a, b, s1);
    assert s1.tasks[u := Idle] == s.tasks[u := Idle];
  }

  /** The locked section of an instance that lost the race for its candidate. */
  lemma SoloUnset(s: State, u: Uid, h: HostId) returns (acts: seq<Action>)
    requires Waiting(s, u) && s.store[u].invFin && s.store[u].ext == Some(h)
    requires !Held(s.locks, h) && h in s.marks && !Claimable(s.marks[h], u)
    ensures acts == [Own(u, Start), Own(u, TryLock), Own(u, ReadMark)]
                    + [Own(u, UnsetHost(Applied)), Own(u, Unlock)]
    ensures ValidRun(s, acts)
    ensures After(s, acts) == Rest(s, u).(store := s.store[u := Bump(s.store[u]).(ext := None)],
                                          locks := s.locks[h := false])
  {
    var front := LockedRead(s, u, h);
    var mid := After(s, front);
    var back := LockedUnset(mid, u, h, s.store[u]);
    Compose(s, front, back);
    acts := front + back;
    RestFrom(s, mid, u, h, Taken(s.store[u], h), s.store[u := Bump(s.store[u]).(ext := None)], s.marks);
  }

  /** Start and the empty management stage. */
  lemma CleanupStart(s: State, u: Uid, h: HostId) returns (acts: seq<Action>)
    requires u in s.store && TaskOf(s, u).Idle? && s.store[u].deleting && s.store[u].invFin && !s.store[u].mgmtFin
    requires s.store[u].ext == Some(h)
    ensures acts == [Own(u, Start), Own(u, DropMgmtFinalizer(Applied))] && ValidRun(s, acts)
    ensures After(s, acts) == s.(tasks := s.tasks[u := Cleanup(s.store[u], h)])
  {
    var a, b := Own(u, Start), Own(u, DropMgmtFinalizer(Applied));
    acts := [a, b];
    var s1 := s.(tasks := s.tasks[u := Teardown(s.store[u])]);
    assert Apply(s, a) == s1;
    Chain2(s, a, b, s1);
    assert s1.tasks[u := Cleanup(s.store[u], h)] == s.tasks[u := Cleanup(s.store[u], h)];
  }

  /** The same and the lock of handleDeletion. */
  lemma LockedCleanup(s: State, u: Uid, h: HostId) returns (acts: seq<Action>)
    requires u in s.store && TaskOf(s, u).Idle? && s.store[u].deleting && s.store[u].invFin && !s.store[u].mgmtFin
    requires s.store[u].ext == Some(h) && !Held(s.locks, h)
    ensures acts == [Own(u, Start), Own(u, DropMgmtFinalizer(Applied)), Own(u, TryLockCleanup)]
    ensures ValidRun(s, acts) && Inside(s, After(s, acts), u, h, CleanupLocked(s.store[u], h))
  {
    var front := CleanupStart(s, u, h);
    var mid := After(s, front);
    Extend(s, front, Own(u, TryLockCleanup));
    acts := front + [Own(u, TryLockCleanup)];
    assert mid.tasks[u := CleanupLocked(s.store[u], h)] == s.tasks[u := CleanupLocked(s.store[u], h)];
  }

  lemma LockedClear(s: State, u: Uid, h: HostId, obj: Instance) returns (acts: seq<Action>)
    requires TaskOf(s, u) == CleanupLocked(obj, h) && h in s.marks && s.marks[h].Some?
    ensures acts == [Own(u, ReadForClear), Own(u, ClearMark(Applied))]
    ensures ValidRun(s, acts)
    ensures After(s, acts) == s.(marks := s.marks[h := None], tasks := s.tasks[u := Dropping(obj, Some(h))])
  {
    var a, b := Own(u, ReadForClear), Own(u, ClearMark(Applied));
    acts := [a, b];
    var s1 := s.(tasks := s.tasks[u := Clearing(obj, h, true)]);
    assert Apply(s, a) == s1;
    Chain2(s, a, b, s1);
    assert s1.tasks[u := Dropping(obj, Some(h))] == s.tasks[u := Dropping(obj, Some(h))];
  }

  lemma LockedDrop(s: State, u: Uid, h: HostId, obj: Instance) returns (acts: seq<Action>)
    requires TaskOf(s, u) == Dropping(obj, Some(h)) && u in s.store && s.store[u] == obj && Held(s.locks, h)
    requires obj.deleting && !obj.mgmtFin
    ensures acts == [Own(u, DropFinalizer(Applied)), Own(u, Unlock)]
    ensures ValidRun(s, acts)
    ensures After(s, acts) == Rest(s, u).(store := s.store - {u}, locks := s.locks[h := false])
  {
    var a, b := Own(u, DropFinalizer(Applied)), Own(u, Unlock);
    acts := [a, b];
    var s1 := s.(tasks := s.tasks[u := Unlocking(h)], store := s.store - {u});
    assert Apply(s, a) == s1;
    Chain2(s, a, b, s1);
    assert s1.tasks[u := Idle] == s.tasks[u := Idle];
  }

  lemma LockedRelease(s: State, u: Uid, h: HostId, obj: Instance) returns (acts: seq<Action>)
    requires TaskOf(s, u) == CleanupLocked(obj, h) && h in s.marks && s.marks[h].Some?
    requires u in s.store && s.store[u] == obj && Held(s.locks, h) && obj.deleting && !obj.mgmtFin
    ensures acts == [Own(u, ReadForClear), Own(u, ClearMark(Applied))]
                    + [Own(u, DropFinalizer(Applied)), Own(u, Unlock)]
    ensures ValidRun(s, acts)
    ensures After(s, acts) == Rest(s, u).(store := s.store - {u}, marks := s.marks[h := None],
                                          locks := s.locks[h := false])
  {
    var mid := LockedClear(s, u, h, obj);
    var s1 := After(s, mid);
    var back := LockedDrop(s1, u, h, obj);
    Compose(s, mid, back);
    acts := mid + back;
    assert s1.tasks[u := Idle] == s.tasks[u := Idle];
  }

  /** handleDeletion of an instance that never reached the management stage. */
  lemma SoloRelease(s: State, u: Uid, h: HostId) returns (acts: seq<Action>)
    requires u in s.store && TaskOf(s, u).Idle? && s.store[u].deleting && s.store[u].invFin && !s.store[u].mgmtFin
    requires s.store[u].ext == Some(h) && !Held(s.locks, h) && h in s.marks && s.marks[h].Some?
    ensures acts == [Own(u, Start), Own(u, DropMgmtFinalizer(Applied)), Own(u, TryLockCleanup)]
                    + ([Own(u, ReadForClear), Own(u, ClearMark(Applied))]
                       + [Own(u, DropFinalizer(Applied)), Own(u, Unlock)])
    ensures ValidRun(s, acts)
    ensures After(s, acts) == Rest(s, u).(store := s.store - {u}, marks := s.marks[h := None],
                                          locks := s.locks[h := false])
  {
    var front := LockedCleanup(s, u, h);
    var mid := After(s, front);
    var back := LockedRelease(mid, u, h, s.store[u]);
    Compose(s, front, back);
    acts := front + back;
    RestFrom(s, mid, u, h, CleanupLocked(s.store[u], h), s.store - {u}, s.marks[h := None]);
  }
}
