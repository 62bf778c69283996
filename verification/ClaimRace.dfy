/** Without a courtesy check in UnassignHost, exclusive ownership can be lost: the run that loses it. */
module ClaimRace {
  import opened Wrappers
  import opened HostLock
  import opened ClaimMachine
  import opened ClaimRuns
  import opened ClaimRegister

  /** `u` wants a host, has the inventory finalizer and has recorded the free host `h`. */
  predicate Recorded(s: State, u: Uid, h: HostId) {
    && Waiting(s, u) && s.store[u].invFin && !s.store[u].mgmtFin && s.store[u].ext == Some(h)
    && h in s.marks && s.marks[h].None? && !Held(s.locks, h)
  }

  /** `u` has just been created, matching `h`. */
  ghost predicate Created(s: State, t: State, u: Uid, h: HostId) {
    && Waiting(t, u) && t.store[u] == Instance(0, None, false, false, false, None, false)
    && u in t.eligible && t.eligible[u] == {h}
    && t == s.(store := t.store, lineage := s.lineage[u := None], eligible := t.eligible)
    && forall v :: v != u ==> Stored(t, v) == Stored(s, v)
  }

  lemma Create(s: State, u: Uid, h: HostId) returns (acts: seq<Action>)
    requires u !in s.lineage && TaskOf(s, u).Idle? && u !in s.blocked
    ensures ValidRun(s, acts) && Created(s, After(s, acts), u, h)
  {
    var create := Env(CreateInstance(u, None, {h}));
    acts := [create];
    Extend(s, [], create);
    assert [] + [create] == [create];
  }

  /** From a new instance to one that has recorded `h`, alone. */
  lemma AddAndRecord(s: State, u: Uid, h: HostId) returns (acts: seq<Action>)
    requires Waiting(s, u) && !s.store[u].invFin && !s.store[u].mgmtFin && s.store[u].ext.None? && !Held(s.locks, h)
    requires u in s.eligible && h in s.eligible[u] && h in s.marks && s.marks[h].None?
    ensures ValidRun(s, acts) && Recorded(After(s, acts), u, h)
    ensures
      var t := After(s, acts);
      t == Rest(s, u).(store := t.store) && forall v :: v != u ==> Stored(t, v) == Stored(s, v)
  {
    var fin := SoloAddFinalizer(s, u);
    var s1 := After(s, fin);
    var rec := SoloRecord(s1, u, h);
    Compose(s, fin, rec);
    acts := fin + rec;
    assert s1.tasks[u := Idle] == s.tasks[u := Idle];
  }

  /** From creation to a recorded host, alone. */
  lemma CreateAndRecord(s: State, u: Uid, h: HostId) returns (acts: seq<Action>)
    requires u !in s.lineage && TaskOf(s, u).Idle? && u !in s.blocked
    requires h in s.marks && s.marks[h].None? && !Held(s.locks, h)
    ensures ValidRun(s, acts)
    ensures
      var t := After(s, acts);
      && Recorded(t, u, h)
      && t.marks == s.marks && t.locks == s.locks && t.blocked == s.blocked && t.lineage == s.lineage[u := None]
      && (forall v :: v != u ==> Stored(t, v) == Stored(s, v) && TaskOf(t, v) == TaskOf(s, v))
  {
    var create := Create(s, u, h);
    var s1 := After(s, create);
    var rest := AddAndRecord(s1, u, h);
    Compose(s, create, rest);
    acts := create + rest;
  }

  lemma DeleteRecorded(s: State, v: Uid, h: HostId) returns (acts: seq<Action>)
    requires Waiting(s, v) && s.store[v].invFin && !s.store[v].mgmtFin && s.store[v].ext == Some(h)
    requires h in s.marks && s.marks[h].Some? && !Held(s.locks, h)
    ensures ValidRun(s, acts)
    ensures
      var t := After(s, acts);
      && t.marks == s.marks[h := None] && !Held(t.locks, h) && t.blocked == s.blocked && t.lineage == s.lineage
      && (forall w :: w != v ==> Stored(t, w) == Stored(s, w) && TaskOf(t, w) == TaskOf(s, w))
  {
    var del := Env(RequestDelete(v));
    var s1 := Apply(s, del);
    Extend(s, [], del);
    assert [] + [del] == [del];
    var rel := SoloRelease(s1, v, h);
    Compose(s, [del], rel);
    acts := [del] + rel;
  }

  /** The loser of a race for `h` is deleted and takes the winner's mark away. */
  lemma LoserClearsWinner(s: State, u: Uid, v: Uid, h: HostId) returns (acts: seq<Action>)
    requires u != v && Recorded(s, u, h) && Recorded(s, v, h)
    ensures ValidRun(s, acts)
    ensures
      var t := After(s, acts);
      && Live(t, u) && t.store[u].ext == Some(h) && TaskOf(t, u).Idle?
      && h in t.marks && t.marks[h].None? && !Held(t.locks, h)
      && t.blocked == s.blocked && t.lineage == s.lineage
      && (forall w :: w !in {u, v} ==> TaskOf(t, w) == TaskOf(s, w))
  {
    var claim := SoloClaim(s, u, h);
    var s1 := After(s, claim);
    assert Waiting(s1, v);
    var del := DeleteRecorded(s1, v, h);
    Compose(s, claim, del);
    acts := claim + del;
    assert Stored(After(s, acts), u) == Stored(s1, u);
  }

  /** Whatever hosts there are: a run from an empty cluster after which two live instances share one. */
  lemma OwnershipCanBeLost(init: State, h: HostId, u: Uid, v: Uid, w: Uid) returns (acts: seq<Action>)
    requires Init(init) && h in init.marks && u !in {v, w} && v != w && init.blocked !! {u, v, w}
    ensures ValidRun(init, acts)
    ensures !Exclusive(After(init, acts)) && !Courteous(init, acts)
  {
    var one := CreateAndRecord(init, u, h);
    var s1 := After(init, one);
    var two := CreateAndRecord(s1, v, h);
    var s2 := After(s1, two);
    assert Stored(s2, u) == Stored(s1, u);
    var three := LoserClearsWinner(s2, u, v, h);
    var s3 := After(s2, three);
    var four := CreateAndRecord(s3, w, h);
    var s4 := After(s3, four);
    assert Stored(s4, u) == Stored(s3, u);
    var five := SoloClaim(s4, w, h);
    Compose(s3, four, five);
    Compose(s2, three, four + five);
    Compose(s1, two, three + (four + five));
    Compose(init, one, two + (three + (four + five)));
    acts := one + (two + (three + (four + five)));
    var t := After(init, acts);
    assert Live(t, u) && Live(t, w) && t.store[u].ext == t.store[w].ext;
    if Courteous(init, acts) { ExclusiveOwnership(init, acts); }
  }
}
