/**
 The lock-protected read-check-write of AssignHost against its specification: one atomic
 compare-and-set on the owner mark of a host. And what that gives: exclusive ownership.
 */
module ClaimRegister {
  import opened Wrappers
  import opened ClaimMachine
  import opened ClaimInvariant

  // ---------------------------------------------------------------- the atomic specification

  datatype Op = Nop | Acquire(h: HostId, u: Uid) | Clear(h: HostId)

  /** None: the register refuses. */
  function Atomic(marks: map<HostId, Option<Uid>>, op: Op): Option<map<HostId, Option<Uid>>> {
    match op
    case Nop => Some(marks)
    case Acquire(h, u) =>
      if h in marks && Claimable(marks[h], u) then Some(marks[h := Some(u)]) else None
    case Clear(h) => if h in marks then Some(marks[h := None]) else None
  }

  function AtomicRun(marks: map<HostId, Option<Uid>>, ops: seq<Op>): Option<map<HostId, Option<Uid>>>
    decreases |ops|
  {
    if ops == [] then Some(marks)
    else
      match Atomic(marks, ops[0])
      case None => None
      case Some(next) => AtomicRun(next, ops[1..])
  }

  // ---------------------------------------------------------------- refinement

  /** The register operation a concrete step stands for: its mark write, if it makes one. */
  function OpOfEffect(e: Effect): Op {
    match e.mark
    case None => Nop
    case Some((h, m)) => if m.Some? then Acquire(h, m.value) else Clear(h)
  }

  ghost function OpOf(s: State, a: Action): Op
    requires Enabled(s, a)
  {
    if a.Own? then OpOfEffect(StepEffect(s, a.u, a.step)) else Nop
  }

  ghost function OpsOf(s: State, acts: seq<Action>): seq<Op>
    requires ValidRun(s, acts)
    decreases |acts|
  {
    if acts == [] then [] else [OpOf(s, acts[0])] + OpsOf(Apply(s, acts[0]), acts[1..])
  }

  lemma EffectRefines(s: State, u: Uid, e: Effect)
    requires GuardedMark(s, u, e)
    ensures Atomic(s.marks, OpOfEffect(e)) == Some(Perform(s, u, e).marks)
    ensures OpOfEffect(e).Acquire? ==> OpOfEffect(e).u == u
  {
  }

  lemma EventMarks(s: State, e: Event)
    requires EventEnabled(s, e)
    ensures EventApply(s, e).marks == s.marks
  {
  }

  lemma StepRefines(s: State, a: Action)
    requires Inv(s) && Enabled(s, a)
    ensures Atomic(s.marks, OpOf(s, a)) == Some(Apply(s, a).marks)
    ensures OpOf(s, a).Acquire? ==> a.Own? && a.u == OpOf(s, a).u
  {
    match a
    case Own(u, step) =>
      StepGuardedMark(s, u, step);
      EffectRefines(s, u, StepEffect(s, u, step));
    case OwnPool(_, _) =>
    case Env(e) => EventMarks(s, e);
    case Crash =>
  }

  /** Every interleaved run is a run of the atomic register that is never refused. */
  lemma {:induction false} RunRefines(s: State, acts: seq<Action>)
    requires Inv(s) && ValidRun(s, acts)
    ensures AtomicRun(s.marks, OpsOf(s, acts)) == Some(After(s, acts).marks)
    decreases |acts|
  {
    if acts == [] {
    } else {
      StepRefines(s, acts[0]);
      StepKeeps(s, acts[0]);
      RunRefines(Apply(s, acts[0]), acts[1..]);
      assert OpsOf(s, acts)[1..] == OpsOf(Apply(s, acts[0]), acts[1..]);
    }
  }

  /**
   The answers agree too: AssignHost says "taken" exactly when the register would refuse the claim
   at the read and still refuses it when the instance gives the host up, and it returns the host
   only after the claim was made and while it stands.
   */
  lemma AnswersAgree(s: State, u: Uid)
    requires Inv(s)
    ensures
      var t := TaskOf(s, u);
      && (t.Locked? && t.host in s.marks ==>
            (StepEffect(s, u, ReadMark).next.Taken? <==> Atomic(s.marks, Acquire(t.host, u)).None?))
      && (t.Taken? ==> Atomic(s.marks, Acquire(t.host, u)).None?)
      && (t.Writing? ==> Atomic(s.marks, Acquire(t.host, u)).Some?)
      && (t.Claimed? ==> t.host in s.marks && s.marks[t.host] == Some(u))
  {
    assert TaskOk(s, u, TaskOf(s, u));
  }

  /** A host never changes hands directly. */
  lemma MarkNeverStolen(init: State, acts: seq<Action>, a: Action, h: HostId)
    requires Init(init) && ValidRun(init, acts) && Enabled(After(init, acts), a)
    ensures
      var s := After(init, acts);
      var s' := Apply(s, a);
      h in s.marks && s.marks[h].Some? ==> h in s'.marks && s'.marks[h] in {s.marks[h], None}
  {
    InitKeeps(init);
    RunKeeps(init, acts);
    StepRefines(After(init, acts), a);
  }

  // ---------------------------------------------------------------- exclusive ownership

  predicate Live(s: State, u: Uid) {
    u in s.store && !s.store[u].deleting && s.store[u].classed
  }

  /** `u` is the owner on record of its host. */
  predicate OnRecord(s: State, u: Uid)
    requires u in s.store
  {
    s.store[u].ext.Some? && s.store[u].ext.value in s.marks && s.marks[s.store[u].ext.value] == Some(u)
  }

  /** Each allocated live instance is the owner on record of its host. */
  ghost predicate Owned(s: State) {
    forall u :: Live(s, u) ==> OnRecord(s, u)
  }

  ghost predicate Exclusive(s: State) {
    forall u, v :: Live(s, u) && Live(s, v) && u != v ==> s.store[u].ext != s.store[v].ext
  }

  /** An UnassignHost that lands on a host marked by another, live and allocated instance. */
  ghost predicate Strikes(s: State, a: Action) {
    && Enabled(s, a) && a.Own? && a.step.ClearMark? && !a.step.out.Rejected?
    && TaskOf(s, a.u).host in s.marks
    && var m := s.marks[TaskOf(s, a.u).host];
       m.Some? && m.value != a.u && Live(s, m.value)
  }

  lemma SameOwned(s: State, s': State)
    requires Owned(s) && s'.store == s.store && s'.marks == s.marks
    ensures Owned(s')
  {
    forall v | Live(s', v) ensures OnRecord(s', v) {
      assert Live(s, v);
    }
  }

  lemma EventOwned(s: State, e: Event)
    requires Inv(s) && Owned(s) && EventEnabled(s, e)
    ensures Owned(EventApply(s, e))
  {
    forall v | Live(EventApply(s, e), v) ensures OnRecord(EventApply(s, e), v) {
      assert Live(s, v);
    }
  }

  lemma OwnUpdateOnRecord(s: State, u: Uid, step: Step)
    requires TaskOk(s, u, TaskOf(s, u)) && (Live(s, u) ==> OnRecord(s, u))
    requires StepEnabled(s, u, step) && !OfDeletion(step)
    ensures
      var s' := Perform(s, u, StepEffect(s, u, step));
      Live(s', u) ==> OnRecord(s', u)
  {
  }

  lemma OwnDeletionOnRecord(s: State, u: Uid, step: Step)
    requires TaskOk(s, u, TaskOf(s, u)) && (Live(s, u) ==> OnRecord(s, u))
    requires StepEnabled(s, u, step) && OfDeletion(step) && !step.ClearMark?
    ensures
      var s' := Perform(s, u, StepEffect(s, u, step));
      Live(s', u) ==> OnRecord(s', u)
  {
  }

  lemma OthersOnRecord(s: State, u: Uid, e: Effect, v: Uid)
    requires GuardedMark(s, u, e) && (e.mark.Some? ==> e.mark.value.1.Some?) && u != v
    requires Live(s, v) ==> OnRecord(s, v)
    ensures Live(Perform(s, u, e), v) ==> OnRecord(Perform(s, u, e), v)
  {
    assert v in Perform(s, u, e).store <==> v in s.store;
  }

  /** Of all the steps of a reconcile only the clearing of a mark can take a host from its owner. */
  lemma OwnStepOwned(s: State, u: Uid, step: Step)
    requires Inv(s) && Owned(s) && StepEnabled(s, u, step) && !step.ClearMark?
    ensures Owned(Perform(s, u, StepEffect(s, u, step)))
  {
    var e := StepEffect(s, u, step);
    assert TaskOk(s, u, TaskOf(s, u));
    StepGuardedMark(s, u, step);
    var s' := Perform(s, u, e);
    forall v | Live(s', v) ensures OnRecord(s', v) {
      if v != u {
        OthersOnRecord(s, u, e, v);
      } else if OfDeletion(step) {
        OwnDeletionOnRecord(s, u, step);
      } else {
        OwnUpdateOnRecord(s, u, step);
      }
    }
  }

  lemma ClearMarkOwned(s: State, u: Uid, o: Outcome)
    requires Inv(s) && Owned(s) && StepEnabled(s, u, ClearMark(o))
    ensures Owned(Perform(s, u, StepEffect(s, u, ClearMark(o)))) <==> !Strikes(s, Own(u, ClearMark(o)))
  {
    assert TaskOk(s, u, TaskOf(s, u));
    var h := TaskOf(s, u).host;
    var s' := Perform(s, u, StepEffect(s, u, ClearMark(o)));
    if Strikes(s, Own(u, ClearMark(o))) {
      assert Backed(s, s.marks[h].value, h);
      assert Live(s', s.marks[h].value);
    } else {
      forall v | Live(s', v) ensures OnRecord(s', v) {
        assert Live(s, v);
      }
    }
  }

  lemma StepOwned(s: State, a: Action)
    requires Inv(s) && Owned(s) && Enabled(s, a)
    ensures Owned(Apply(s, a)) <==> !Strikes(s, a)
  {
    match a
    case Own(u, step) => if step.ClearMark? { ClearMarkOwned(s, u, step.out); } else { OwnStepOwned(s, u, step); }
    case OwnPool(p, step) => SameOwned(s, Apply(s, a));
    case Env(e) => EventOwned(s, e);
    case Crash => SameOwned(s, Apply(s, a));
  }

  ghost predicate NeverStrikes(s: State, acts: seq<Action>)
    requires ValidRun(s, acts)
    decreases |acts|
  {
    acts == [] || (!Strikes(s, acts[0]) && NeverStrikes(Apply(s, acts[0]), acts[1..]))
  }

  ghost predicate AlwaysOwned(s: State, acts: seq<Action>)
    requires ValidRun(s, acts)
    decreases |acts|
  {
    Owned(s) && (acts == [] || AlwaysOwned(Apply(s, acts[0]), acts[1..]))
  }

  /** Exactly the runs in which no UnassignHost strikes another's host keep every owner on record. */
  lemma {:induction false} OwnershipCondition(s: State, acts: seq<Action>)
    requires Inv(s) && Owned(s) && ValidRun(s, acts)
    ensures AlwaysOwned(s, acts) <==> NeverStrikes(s, acts)
    decreases |acts|
  {
    if acts == [] {
    } else {
      StepOwned(s, acts[0]);
      StepKeeps(s, acts[0]);
      if !Strikes(s, acts[0]) { OwnershipCondition(Apply(s, acts[0]), acts[1..]); }
    }
  }

  lemma {:induction false} OwnedAtEnd(s: State, acts: seq<Action>)
    requires Inv(s) && ValidRun(s, acts) && AlwaysOwned(s, acts)
    ensures Owned(After(s, acts))
    decreases |acts|
  {
    if acts == [] {
    } else {
      StepKeeps(s, acts[0]);
      OwnedAtEnd(Apply(s, acts[0]), acts[1..]);
    }
  }

  /** Every UnassignHost finds its host unmarked or marked with the caller's own UID. */
  ghost predicate Courteous(s: State, acts: seq<Action>)
    requires ValidRun(s, acts)
    decreases |acts|
  {
    acts == [] ||
    (&& (acts[0].Own? && acts[0].step.ClearMark? && TaskOf(s, acts[0].u).host in s.marks ==>
           Claimable(s.marks[TaskOf(s, acts[0].u).host], acts[0].u))
     && Courteous(Apply(s, acts[0]), acts[1..]))
  }

  lemma {:induction false} CourteousNeverStrikes(s: State, acts: seq<Action>)
    requires ValidRun(s, acts) && Courteous(s, acts)
    ensures NeverStrikes(s, acts)
    decreases |acts|
  {
    if acts == [] {
    } else {
      CourteousNeverStrikes(Apply(s, acts[0]), acts[1..]);
    }
  }

  /** Exclusive ownership. */
  lemma ExclusiveOwnership(init: State, acts: seq<Action>)
    requires Init(init) && ValidRun(init, acts) && Courteous(init, acts)
    ensures Exclusive(After(init, acts)) && Owned(After(init, acts))
  {
    InitKeeps(init);
    CourteousNeverStrikes(init, acts);
    OwnershipCondition(init, acts);
    OwnedAtEnd(init, acts);
  }
}
