/** Fulfilment under contention and failures: finitely many writes, and no instance waits beside a free host. */
module ClaimTermination {
  import opened Wrappers
  import opened HostLock
  import opened ClaimMachine
  import opened ClaimInvariant
  import opened ClaimRuns

  // ---------------------------------------------------------------- the measure

  /** Another instance got the host first. */
  predicate Doomed(s: State, u: Uid, h: HostId) {
    h in s.marks && !Claimable(s.marks[h], u)
  }

  /** Writes of its own object that `u` needs at most to be allocated, if nobody spoils its candidate any more. */
  function Distance(s: State, u: Uid): nat
    requires u in s.store
  {
    var obj := s.store[u];
    if TaskOf(s, u).Found? then (if Doomed(s, u, TaskOf(s, u).host) then 5 else 3)
    else if !obj.invFin then 4
    else if obj.ext.None? then 3
    else if !obj.classed then (if Doomed(s, u, obj.ext.value) then 4 else 2)
    else if !obj.mgmtFin then 1
    else 0
  }

  /** The same with the deletion of `u`, if it is among those `d` that may be deleted. */
  function Rank(s: State, u: Uid, d: set<Uid>): nat {
    if u !in s.store then 0
    else if s.store[u].deleting then (if s.store[u].mgmtFin then 1 else 0) + (if s.store[u].invFin then 1 else 0)
    else Distance(s, u) + (if u in d then 2 else 0)
  }

  function Total(xs: seq<nat>): nat {
    if xs == [] then 0 else xs[0] + Total(xs[1..])
  }

  function Ranks(s: State, us: seq<Uid>, d: set<Uid>): (r: seq<nat>)
    ensures |r| == |us| && forall i :: 0 <= i < |us| ==> r[i] == Rank(s, us[i], d)
  {
    seq(|us|, i requires 0 <= i < |us| => Rank(s, us[i], d))
  }

  function Unclaimed(s: State): set<HostId> {
    set h | h in s.marks && s.marks[h].None?
  }

  /** Instances that may still clear the mark of a host. */
  function Clearers(s: State, d: set<Uid>): set<Uid> {
    set u | u in d && u in s.store && !(TaskOf(s, u).Dropping? && TaskOf(s, u).held.Some?)
  }

  /** How many hosts can still be claimed for the first time or once more. */
  function Claims(s: State, d: set<Uid>): nat {
    |Unclaimed(s)| + |Clearers(s, d)|
  }

  /** `us` lists the stored instances and maybe vanished ones, none twice; only those in `d` may be deleted. */
  ghost predicate Roster(s: State, us: seq<Uid>, d: set<Uid>) {
    && (forall u :: u in s.store ==> u in us)
    && (forall i, j :: 0 <= i < j < |us| ==> us[i] != us[j])
    && (forall u :: u in s.store && s.store[u].deleting ==> u in d)
  }

  /** The writes that `k` claims can cost `n` competitors, at two each. */
  function Spoils(n: nat, k: nat): nat {
    2 * n * k
  }

  lemma SpoilsSum(n: nat, j: nat, k: nat)
    ensures Spoils(n, j + k) == Spoils(n, j) + Spoils(n, k)
  {
  }

  lemma SpoilsChain(n: nat, w: nat, w': nat, g: nat, g': nat, p: nat, p': nat, p'': nat)
    requires w + p' <= p + Spoils(n, g) && w' + p'' <= p' + Spoils(n, g')
    ensures (w + w') + p'' <= p + Spoils(n, g + g')
  {
    SpoilsSum(n, g, g');
  }

  function Potential(s: State, us: seq<Uid>, d: set<Uid>): nat
    requires us != []
  {
    Spoils(|us| - 1, Claims(s, d)) + Total(Ranks(s, us, d))
  }

  // ---------------------------------------------------------------- failures

  predicate ErrorFree(step: Step) {
    match step
    case Abort => false
    case AddFinalizer(o) => o.Applied?
    case RecordHost(o) => o.Applied?
    case WriteMark(o) => o.Applied?
    case UnsetHost(o) => o.Applied?
    case RecordClass(o) => o.Applied?
    case AddMgmtFinalizer(o) => o.Applied?
    case DropMgmtFinalizer(o) => o.Applied?
    case ClearMark(o) => o.Applied?
    case DropFinalizer(o) => o.Applied?
    case _ => true
  }

  /** No newcomer and no deletion outside `d`; calls may fail, and others may do anything else. */
  predicate Confined(a: Action, d: set<Uid>) {
    a.Env? ==> !a.event.CreateInstance? && (a.event.RequestDelete? ==> a.event.u in d)
  }

  ghost predicate AllConfined(acts: seq<Action>, d: set<Uid>) {
    forall i :: 0 <= i < |acts| ==> Confined(acts[i], d)
  }

  /** A failure that may make an instance clear the mark of its host once more. */
  predicate Repeats(step: Step) {
    step.Abort? || step == ClearMark(Lost) || step == DropFinalizer(Rejected)
  }

  /** How many hosts can be cleared once more because of the action: one by each deletion it sets back. */
  function Setback(a: Action, d: set<Uid>): nat {
    match a
    case Own(u, step) => if u in d && Repeats(step) then 1 else 0
    case Crash => |d|
    case _ => 0
  }

  function Setbacks(acts: seq<Action>, d: set<Uid>): nat {
    if acts == [] then 0 else Setback(acts[0], d) + Setbacks(acts[1..], d)
  }

  /** Only a crash, or a failure of an instance that may be deleted, is a setback. */
  lemma {:induction false} NoSetback(acts: seq<Action>, d: set<Uid>)
    requires d == {} || forall a :: a in acts ==> !a.Crash? && (a.Own? && a.u in d ==> ErrorFree(a.step))
    ensures Setbacks(acts, d) == 0
  {
    if acts == [] {
    } else {
      assert acts[0] in acts;
      NoSetback(acts[1..], d);
    }
  }

  /** 1 if the step lands a write of an instance's spec or finalizers. */
  ghost function WritesOf(s: State, a: Action): nat
    requires Enabled(s, a)
  {
    if a.Own? && StepEffect(s, a.u, a.step).write.Some? then 1 else 0
  }

  ghost function Writes(s: State, acts: seq<Action>): nat
    requires ValidRun(s, acts)
    decreases |acts|
  {
    if acts == [] then 0 else WritesOf(s, acts[0]) + Writes(Apply(s, acts[0]), acts[1..])
  }

  // ---------------------------------------------------------------- one step

  /** The instance a reconcile stands for exists whenever it is about to touch a mark or the store. */
  lemma ActorStored(s: State, u: Uid, step: Step)
    requires TaskOk(s, u, TaskOf(s, u)) && StepEnabled(s, u, step)
    ensures
      var e := StepEffect(s, u, step);
      && (e.mark.Some? || e.write.Some? ==> u in s.store)
      && (e.mark.Some? ==> e.write.None? && (e.mark.value.1.None? ==> s.store[u].deleting))
  {
  }

  lemma OwnUpdateRank(s: State, u: Uid, step: Step, d: set<Uid>)
    requires TaskOk(s, u, TaskOf(s, u)) && StepEnabled(s, u, step) && !OfDeletion(step)
    requires u in s.store ==> Wellformed(s, s.store[u])
    ensures
      var e := StepEffect(s, u, step);
      Rank(Perform(s, u, e), u, d) + (if e.write.Some? then 1 else 0) <= Rank(s, u, d)
  {
  }

  lemma OwnDeletionRank(s: State, u: Uid, step: Step, d: set<Uid>)
    requires TaskOk(s, u, TaskOf(s, u)) && StepEnabled(s, u, step) && OfDeletion(step)
    requires u in s.store ==> Wellformed(s, s.store[u])
    ensures
      var e := StepEffect(s, u, step);
      Rank(Perform(s, u, e), u, d) + (if e.write.Some? then 1 else 0) <= Rank(s, u, d)
  {
  }

  /** A write costs its author one unit of rank; no other step of its own raises its rank. */
  lemma OwnRank(s: State, u: Uid, step: Step, d: set<Uid>)
    requires TaskOk(s, u, TaskOf(s, u)) && StepEnabled(s, u, step)
    requires u in s.store ==> Wellformed(s, s.store[u])
    ensures
      var e := StepEffect(s, u, step);
      Rank(Perform(s, u, e), u, d) + (if e.write.Some? then 1 else 0) <= Rank(s, u, d)
  {
    if OfDeletion(step) { OwnDeletionRank(s, u, step, d); } else { OwnUpdateRank(s, u, step, d); }
  }

  /** The step takes a host that nobody had. */
  predicate TakesHost(s: State, e: Effect) {
    e.mark.Some? && e.mark.value.1.Some? && e.mark.value.0 in s.marks && s.marks[e.mark.value.0].None?
  }

  /** A fresh claim costs every competitor at most two units; nothing else touches them. */
  lemma OthersRank(s: State, u: Uid, e: Effect, v: Uid, d: set<Uid>)
    requires u != v && GuardedMark(s, u, e)
    ensures Rank(Perform(s, u, e), v, d) <= Rank(s, v, d) + (if TakesHost(s, e) then 2 else 0)
  {
    var s' := Perform(s, u, e);
    assert TaskOf(s', v) == TaskOf(s, v) && (v in s'.store <==> v in s.store);
    assert v in s.store ==> s'.store[v] == s.store[v];
  }

  /** Whoever clears a mark never does so again, setbacks aside. */
  lemma ClearersStep(s: State, u: Uid, step: Step, d: set<Uid>)
    requires TaskOk(s, u, TaskOf(s, u)) && StepEnabled(s, u, step)
    requires u in s.store && s.store[u].deleting ==> u in d
    ensures
      var e := StepEffect(s, u, step);
      var s' := Perform(s, u, e);
      && Clearers(s', d) <= Clearers(s, d) + (if u in d && Repeats(step) then {u} else {})
      && (e.mark.Some? && e.mark.value.1.None? ==>
            u in Clearers(s, d) && (u in Clearers(s', d) ==> Repeats(step)))
  {
    var s' := Perform(s, u, StepEffect(s, u, step));
    forall v | v in Clearers(s', d) && v != u ensures v in Clearers(s, d) {
      assert TaskOf(s', v) == TaskOf(s, v);
    }
  }

  lemma UnclaimedStep(s: State, u: Uid, e: Effect)
    requires GuardedMark(s, u, e)
    ensures |Unclaimed(Perform(s, u, e))| <=
      |Unclaimed(s)| + (if e.mark.Some? && e.mark.value.1.None? then 1 else 0) - (if TakesHost(s, e) then 1 else 0)
  {
    var s' := Perform(s, u, e);
    if e.mark.None? {
      assert Unclaimed(s') == Unclaimed(s);
    } else {
      var h := e.mark.value.0;
      if e.mark.value.1.None? {
        assert Unclaimed(s') == Unclaimed(s) + {h};
      } else {
        assert Unclaimed(s') == Unclaimed(s) - {h};
      }
    }
  }

  lemma Smaller<T>(a: set<T>, b: set<T>)
    requires a <= b
    ensures |a| <= |b|
  {
    assert b == a + (b - a);
  }

  /** A cleared host is paid for by its clearer, so setbacks aside only claims change the number, downwards. */
  lemma ClaimsStep(s: State, u: Uid, step: Step, d: set<Uid>)
    requires TaskOk(s, u, TaskOf(s, u)) && StepEnabled(s, u, step)
    requires GuardedMark(s, u, StepEffect(s, u, step))
    requires u in s.store && s.store[u].deleting ==> u in d
    ensures
      var e := StepEffect(s, u, step);
      Claims(Perform(s, u, e), d) + (if TakesHost(s, e) then 1 else 0) <= Claims(s, d) + Setback(Own(u, step), d)
  {
    var e := StepEffect(s, u, step);
    var s' := Perform(s, u, e);
    ClearersStep(s, u, step, d);
    UnclaimedStep(s, u, e);
    if u in Clearers(s', d) {
      Smaller(Clearers(s', d), Clearers(s, d) + {u});
    } else {
      Smaller(Clearers(s', d), Clearers(s, d) - {u});
    }
  }

  lemma {:induction false} TotalBound(xs: seq<nat>, ys: seq<nat>, c: nat)
    requires c <= 1 && |xs| == |ys| && forall i :: 0 <= i < |xs| ==> ys[i] <= xs[i] + 2 * c
    ensures Total(ys) <= Total(xs) + Spoils(|xs|, c)
  {
    if xs == [] {
    } else {
      TotalBound(xs[1..], ys[1..], c);
    }
  }

  /** One entry moves at least `k` downwards, the others at most 2`c` upwards. */
  lemma {:induction false} TotalShift(xs: seq<nat>, ys: seq<nat>, i: nat, c: nat, k: nat)
    requires |xs| == |ys| && i < |xs| && ys[i] + k <= xs[i]
    requires c <= 1 && forall j :: 0 <= j < |xs| && j != i ==> ys[j] <= xs[j] + 2 * c
    ensures Total(ys) + k <= Total(xs) + Spoils(|xs| - 1, c)
  {
    if i == 0 {
      TotalBound(xs[1..], ys[1..], c);
    } else {
      TotalShift(xs[1..], ys[1..], i - 1, c, k);
    }
  }

  lemma PaidByClaim(n: nat, before: nat, after: nat, c: nat, g: nat)
    requires after + c <= before + g
    ensures Spoils(n, after) + Spoils(n, c) <= Spoils(n, before) + Spoils(n, g)
  {
    SpoilsSum(n, before, g);
    SpoilsSum(n, after, c);
    SpoilsSum(n, after + c, before + g - after - c);
  }

  /** The claim of one host pays for what it spoils; `g` is the setback. */
  lemma PotentialDrops(s: State, s': State, us: seq<Uid>, d: set<Uid>, u: Uid, c: nat, k: nat, g: nat)
    requires u in us && us != []
    requires Rank(s', u, d) + k <= Rank(s, u, d)
    requires c <= 1 && forall v :: v in us && v != u ==> Rank(s', v, d) <= Rank(s, v, d) + 2 * c
    requires forall i, j :: 0 <= i < j < |us| ==> us[i] != us[j]
    requires Claims(s', d) + c <= Claims(s, d) + g
    ensures k + Potential(s', us, d) <= Potential(s, us, d) + Spoils(|us| - 1, g)
  {
    var i :| 0 <= i < |us| && us[i] == u;
    TotalShift(Ranks(s, us, d), Ranks(s', us, d), i, c, k);
    PaidByClaim(|us| - 1, Claims(s, d), Claims(s', d), c, g);
  }

  /** Steps of a reconcile whose instance is not listed move nothing. */
  lemma PotentialKept(s: State, s': State, us: seq<Uid>, d: set<Uid>, g: nat)
    requires us != [] && Claims(s', d) <= Claims(s, d) + g
    requires forall v :: v in us ==> Rank(s', v, d) <= Rank(s, v, d)
    ensures Potential(s', us, d) <= Potential(s, us, d) + Spoils(|us| - 1, g)
  {
    TotalBound(Ranks(s, us, d), Ranks(s', us, d), 0);
    PaidByClaim(|us| - 1, Claims(s, d), Claims(s', d), 0, g);
  }

  lemma RosterKept(s: State, u: Uid, e: Effect, us: seq<Uid>, d: set<Uid>)
    requires Roster(s, us, d) && GuardedWrite(s, u, e)
    ensures Roster(Perform(s, u, e), us, d)
  {
  }

  lemma OwnStepPays(s: State, u: Uid, step: Step, us: seq<Uid>, d: set<Uid>)
    requires Inv(s) && StepEnabled(s, u, step) && Roster(s, us, d) && us != []
    ensures
      var e := StepEffect(s, u, step);
      var s' := Perform(s, u, e);
      && Roster(s', us, d)
      && (if e.write.Some? then 1 else 0) + Potential(s', us, d)
           <= Potential(s, us, d) + Spoils(|us| - 1, Setback(Own(u, step), d))
  {
    var e := StepEffect(s, u, step);
    var s' := Perform(s, u, e);
    StepGuardedMark(s, u, step);
    StepGuardedWrite(s, u, step);
    RosterKept(s, u, e, us, d);
    assert TaskOk(s, u, TaskOf(s, u));
    ActorStored(s, u, step);
    OwnRank(s, u, step, d);
    ClaimsStep(s, u, step, d);
    var c := if TakesHost(s, e) then 1 else 0;
    forall v | v in us && v != u ensures Rank(s', v, d) <= Rank(s, v, d) + 2 * c {
      OthersRank(s, u, e, v, d);
    }
    var g := Setback(Own(u, step), d);
    if u in us {
      PotentialDrops(s, s', us, d, u, c, if e.write.Some? then 1 else 0, g);
    } else {
      PotentialKept(s, s', us, d, g);
    }
  }

  lemma EventRank(s: State, e: Event, d: set<Uid>, v: Uid)
    requires EventEnabled(s, e) && Confined(Env(e), d)
    ensures Rank(EventApply(s, e), v, d) <= Rank(s, v, d)
  {
  }

  lemma EventClaims(s: State, e: Event, d: set<Uid>)
    requires EventEnabled(s, e) && Confined(Env(e), d)
    ensures Claims(EventApply(s, e), d) <= Claims(s, d)
  {
    var s' := EventApply(s, e);
    assert Unclaimed(s') == Unclaimed(s);
    Smaller(Clearers(s', d), Clearers(s, d));
  }

  lemma EventRoster(s: State, e: Event, us: seq<Uid>, d: set<Uid>)
    requires EventEnabled(s, e) && Confined(Env(e), d) && Roster(s, us, d)
    ensures Roster(EventApply(s, e), us, d)
  {
  }

  lemma EventPays(s: State, e: Event, us: seq<Uid>, d: set<Uid>)
    requires EventEnabled(s, e) && Confined(Env(e), d) && Roster(s, us, d) && us != []
    ensures Roster(EventApply(s, e), us, d) && Potential(EventApply(s, e), us, d) <= Potential(s, us, d)
  {
    EventClaims(s, e, d);
    EventRoster(s, e, us, d);
    forall v | v in us ensures Rank(EventApply(s, e), v, d) <= Rank(s, v, d) {
      EventRank(s, e, d, v);
    }
    PotentialKept(s, EventApply(s, e), us, d, 0);
  }

  lemma PoolStepPays(s: State, p: PoolUid, e: PoolEffect, us: seq<Uid>, d: set<Uid>)
    requires Roster(s, us, d) && us != []
    ensures Roster(PoolPerform(s, p, e), us, d) && Potential(PoolPerform(s, p, e), us, d) <= Potential(s, us, d)
  {
    var s' := PoolPerform(s, p, e);
    assert Unclaimed(s') == Unclaimed(s) && Clearers(s', d) == Clearers(s, d);
    PotentialKept(s, s', us, d, 0);
  }

  /** A crash makes deletions start over, and costs nothing else. */
  lemma CrashPays(s: State, us: seq<Uid>, d: set<Uid>)
    requires TasksOk(s) && Roster(s, us, d) && us != []
    ensures
      var s' := Apply(s, Crash);
      Roster(s', us, d) && Potential(s', us, d) <= Potential(s, us, d) + Spoils(|us| - 1, |d|)
  {
    var s' := Apply(s, Crash);
    Smaller(Clearers(s', d), d);
    assert Unclaimed(s') == Unclaimed(s);
    forall v | v in us ensures Rank(s', v, d) <= Rank(s, v, d) {
      assert TaskOk(s, v, TaskOf(s, v));
    }
    PotentialKept(s, s', us, d, |d|);
  }

  lemma ActionPays(s: State, a: Action, us: seq<Uid>, d: set<Uid>)
    requires Inv(s) && Enabled(s, a) && Confined(a, d) && Roster(s, us, d) && us != []
    ensures Roster(Apply(s, a), us, d)
    ensures
      WritesOf(s, a) + Potential(Apply(s, a), us, d) <= Potential(s, us, d) + Spoils(|us| - 1, Setback(a, d))
  {
    match a {
      case Own(u, step) => OwnStepPays(s, u, step, us, d);
      case OwnPool(p, step) => PoolStepPays(s, p, PoolStepEffect(s, p, step), us, d);
      case Env(e) => EventPays(s, e, us, d);
      case Crash => CrashPays(s, us, d);
    }
  }

  /** Confined runs have confined rests. */
  lemma ConfinedRest(acts: seq<Action>, d: set<Uid>)
    requires AllConfined(acts, d) && acts != []
    ensures Confined(acts[0], d) && AllConfined(acts[1..], d)
  {
    assert forall i :: 0 <= i < |acts[1..]| ==> acts[1..][i] == acts[i + 1];
  }

  /**
   Under any interleaving and whatever fails, the writes made so far and the potential left never exceed
   the potential at the start, plus 2(N-1) for each setback: each claim of a host can spoil at most N-1
   recorded candidates, and each deletion gives back at most one host.
   */
  lemma {:induction false} WritesBounded(s: State, acts: seq<Action>, us: seq<Uid>, d: set<Uid>, f: nat)
    requires f == Setbacks(acts, d)
    requires Inv(s) && ValidRun(s, acts) && AllConfined(acts, d) && Roster(s, us, d) && us != []
    ensures Roster(After(s, acts), us, d)
    ensures
      Writes(s, acts) + Potential(After(s, acts), us, d)
        <= Potential(s, us, d) + Spoils(|us| - 1, f)
    decreases |acts|
  {
    if acts == [] {
    } else {
      var a := acts[0];
      ConfinedRest(acts, d);
      ActionPays(s, a, us, d);
      StepKeeps(s, a);
      var s1 := Apply(s, a);
      var g := Setback(a, d);
      WritesBounded(s1, acts[1..], us, d, f - g);
      SpoilsChain(|us| - 1, WritesOf(s, a), Writes(s1, acts[1..]), g, f - g,
                  Potential(s, us, d), Potential(s1, us, d), Potential(After(s, acts), us, d));
    }
  }

  lemma {:induction false} TotalCap(xs: seq<nat>, us: seq<Uid>, d: set<Uid>)
    requires |xs| == |us| && forall i, j :: 0 <= i < j < |us| ==> us[i] != us[j]
    requires forall i :: 0 <= i < |xs| ==> xs[i] <= 4 + (if us[i] in d then 2 else 0)
    ensures Total(xs) <= 4 * |xs| + 2 * |d|
  {
    if xs == [] {
    } else {
      TotalCap(xs[1..], us[1..], d - {us[0]});
    }
  }

  lemma PotentialCap(s: State, us: seq<Uid>, d: set<Uid>)
    requires us != [] && forall i, j :: 0 <= i < j < |us| ==> us[i] != us[j]
    requires forall u :: TaskOf(s, u).Idle?
    ensures Potential(s, us, d) <= Spoils(|us| - 1, |Unclaimed(s)| + |d|) + 4 * |us| + 2 * |d|
  {
    TotalCap(Ranks(s, us, d), us, d);
    Smaller(Clearers(s, d), d);
    PaidByClaim(|us| - 1, |Unclaimed(s)| + |d|, Claims(s, d), 0, 0);
  }

  lemma ClosedForm(s: State, us: seq<Uid>, d: set<Uid>, f: nat, w: nat, p: nat)
    requires us != [] && w <= p + Spoils(|us| - 1, f)
    requires p <= Spoils(|us| - 1, |Unclaimed(s)| + |d|) + 4 * |us| + 2 * |d|
    ensures w <= 2 * (|us| - 1) * (|Unclaimed(s)| + |d| + f) + 4 * |us| + 2 * |d|
  {
    SpoilsSum(|us| - 1, |Unclaimed(s)| + |d|, f);
  }

  /**
   With N instances, U unclaimed hosts, D deletions that may come or be pending, and F setbacks: at most
   2(N-1)(U+D+F) + 4N + 2D spec and finalizer writes. Without deletion that is 2(N-1)U + 4N, whatever fails,
   by NoSetback.
   */
  lemma FulfilmentTerminates(s: State, acts: seq<Action>, us: seq<Uid>, d: set<Uid>, f: nat)
    requires Inv(s) && ValidRun(s, acts) && AllConfined(acts, d) && Roster(s, us, d) && us != []
    requires f == Setbacks(acts, d) && forall u :: TaskOf(s, u).Idle?
    ensures Writes(s, acts) <= 2 * (|us| - 1) * (|Unclaimed(s)| + |d| + f) + 4 * |us| + 2 * |d|
  {
    WritesBounded(s, acts, us, d, f);
    PotentialCap(s, us, d);
    ClosedForm(s, us, d, f, Writes(s, acts), Potential(s, us, d));
  }

  // ---------------------------------------------------------------- quiescence

  ghost predicate AllIdle(s: State) {
    forall u :: TaskOf(s, u).Idle?
  }

  /** Any interleaving of error-free reconciles, and nothing else. */
  ghost predicate OwnRun(acts: seq<Action>) {
    forall i :: 0 <= i < |acts| ==> acts[i].Own? && ErrorFree(acts[i].step)
  }

  /** Any interleaving of reconciles, calls failing or not, and of crashes. */
  ghost predicate ReconcileRun(acts: seq<Action>) {
    forall i :: 0 <= i < |acts| ==> acts[i].Own? || acts[i].Crash?
  }

  /** No interleaving of reconciles writes anything. */
  ghost predicate Quiescent(s: State) {
    AllIdle(s) && forall acts :: ReconcileRun(acts) && ValidRun(s, acts) ==> Writes(s, acts) == 0
  }

  /**
   `u` is fulfilled, or cannot be provisioned at all, or no free host passes its filter; if it is
   being deleted, only a missing provider can hold it up.
   */
  ghost predicate Settled(s: State, u: Uid)
    requires u in s.store
  {
    var obj := s.store[u];
    if obj.deleting then u in s.blocked && obj.mgmtFin
    else
    || u in s.blocked
    || (obj.classed && obj.mgmtFin)
    || (!obj.classed && obj.invFin && obj.ext.None? && forall h :: !Free(s, u, h))
  }

  /** A settled instance whose reconcile, if one runs, has nothing left to write. */
  ghost predicate AtRest(s: State, u: Uid) {
    && (u in s.store ==> Settled(s, u))
    && match TaskOf(s, u)
       case Idle => true
       case Inventory(obj) => obj.invFin && obj.ext.None? && forall h :: !Free(s, u, h)
       case Management(obj) => obj.mgmtFin
       case Teardown(obj) => u in s.blocked && obj.mgmtFin
       case _ => false
  }

  lemma RestingStep(s: State, u: Uid, step: Step)
    requires (forall v :: AtRest(s, v)) && StepEnabled(s, u, step)
    ensures
      var e := StepEffect(s, u, step);
      && e.write.None? && e.mark.None?
      && forall v :: AtRest(Perform(s, u, e), v)
  {
    assert AtRest(s, u);
    var s' := Perform(s, u, StepEffect(s, u, step));
    forall v ensures AtRest(s', v) {
      assert AtRest(s, v);
      assert forall h :: Free(s', v, h) == Free(s, v, h);
    }
  }

  lemma RestingCrash(s: State)
    requires forall v :: AtRest(s, v)
    ensures forall v :: AtRest(Apply(s, Crash), v)
  {
    var s' := Apply(s, Crash);
    forall v ensures AtRest(s', v) {
      assert AtRest(s, v);
      assert forall h :: Free(s', v, h) == Free(s, v, h);
    }
  }

  lemma {:induction false} RestingRun(s: State, acts: seq<Action>)
    requires (forall v :: AtRest(s, v)) && ReconcileRun(acts) && ValidRun(s, acts)
    ensures Writes(s, acts) == 0
    decreases |acts|
  {
    if acts == [] {
    } else {
      if acts[0].Own? {
        RestingStep(s, acts[0].u, acts[0].step);
      } else {
        RestingCrash(s);
      }
      assert ReconcileRun(acts[1..]) by {
        assert forall i :: 0 <= i < |acts[1..]| ==> acts[1..][i] == acts[i + 1];
      }
      RestingRun(Apply(s, acts[0]), acts[1..]);
    }
  }

  lemma {:induction false} SilentRun(s: State, acts: seq<Action>)
    requires OwnRun(acts) && ValidRun(s, acts) && Writes(s, acts) == 0
    ensures After(s, acts).store == s.store
    decreases |acts|
  {
    if acts == [] {
    } else {
      assert acts[0].Own?;
      assert OwnRun(acts[1..]) by {
        assert forall i :: 0 <= i < |acts[1..]| ==> acts[1..][i] == acts[i + 1];
      }
      SilentRun(Apply(s, acts[0]), acts[1..]);
    }
  }

  lemma SoloMgmtFinalizer(s: State, u: Uid) returns (acts: seq<Action>)
    requires TaskOf(s, u).Idle? && u in s.store && !s.store[u].deleting && u !in s.blocked
    requires s.store[u].classed && !s.store[u].mgmtFin
    ensures acts == [Own(u, Start), Own(u, AddMgmtFinalizer(Applied))]
    ensures ValidRun(s, acts) && After(s, acts).store == s.store[u := Bump(s.store[u]).(mgmtFin := true)]
  {
    var a, b := Own(u, Start), Own(u, AddMgmtFinalizer(Applied));
    acts := [a, b];
    Chain2(s, a, b, Apply(s, a));
  }

  lemma NoLocksWhenIdle(s: State, h: HostId)
    requires LocksOk(s) && AllIdle(s)
    ensures !Held(s.locks, h)
  {
    assert Held(s.locks, h) ==> Occupied(s, h);
  }

  /** `acts` are error-free reconciles that change what is stored under `u`. */
  ghost predicate Rewrites(s: State, u: Uid, acts: seq<Action>) {
    OwnRun(acts) && ValidRun(s, acts) && Stored(After(s, acts), u) != Stored(s, u)
  }

  lemma OwnRunConcat(one: seq<Action>, two: seq<Action>)
    requires OwnRun(one) && OwnRun(two)
    ensures OwnRun(one + two)
  {
  }

  /** The claim of a recorded host. */
  lemma ClaimMoves(s: State, u: Uid, h: HostId) returns (acts: seq<Action>)
    requires Waiting(s, u) && s.store[u].invFin && s.store[u].ext == Some(h) && !Held(s.locks, h)
    requires h in s.marks && Claimable(s.marks[h], u)
    ensures Rewrites(s, u, acts)
  {
    acts := SoloClaim(s, u, h);
    OwnRunConcat([Own(u, Start), Own(u, TryLock), Own(u, ReadMark)],
                 [Own(u, WriteMark(Applied)), Own(u, RecordClass(Applied)), Own(u, Unlock)]);
    assert Stored(After(s, acts), u) == Some(Bump(s.store[u]).(classed := true));
  }

  /** The end of a candidacy that is lost. */
  lemma UnsetMoves(s: State, u: Uid, h: HostId) returns (acts: seq<Action>)
    requires Waiting(s, u) && s.store[u].invFin && s.store[u].ext == Some(h) && !Held(s.locks, h)
    requires h in s.marks && !Claimable(s.marks[h], u)
    ensures Rewrites(s, u, acts)
  {
    acts := SoloUnset(s, u, h);
    OwnRunConcat([Own(u, Start), Own(u, TryLock), Own(u, ReadMark)],
                 [Own(u, UnsetHost(Applied)), Own(u, Unlock)]);
    assert Stored(After(s, acts), u) == Some(Bump(s.store[u]).(ext := None));
  }

  /** The reconcile that moves an unsettled instance on. */
  lemma UnsettledMoves(s: State, u: Uid) returns (acts: seq<Action>)
    requires LocksOk(s) && StoreOk(s) && AllIdle(s) && u in s.store && !s.store[u].deleting && !Settled(s, u)
    ensures Rewrites(s, u, acts)
  {
    var obj := s.store[u];
    if obj.classed {
      acts := SoloMgmtFinalizer(s, u);
    } else if obj.ext.Some? {
      NoLocksWhenIdle(s, obj.ext.value);
      if Claimable(s.marks[obj.ext.value], u) {
        acts := ClaimMoves(s, u, obj.ext.value);
      } else {
        acts := UnsetMoves(s, u, obj.ext.value);
      }
    } else if !obj.invFin {
      acts := SoloAddFinalizer(s, u);
    } else {
      var h :| Free(s, u, h);
      acts := SoloRecord(s, u, h);
    }
  }

  /** handleDeletion up to the removal of the management finalizer. */
  lemma SoloDropMgmt(s: State, u: Uid) returns (acts: seq<Action>)
    requires TaskOf(s, u).Idle? && u in s.store && s.store[u].deleting && s.store[u].mgmtFin && u !in s.blocked
    ensures acts == [Own(u, Start), Own(u, DropMgmtFinalizer(Applied))]
    ensures ValidRun(s, acts)
    ensures After(s, acts).store == Save(s.store, u, s.store[u].(mgmtFin := false))
  {
    var a, b := Own(u, Start), Own(u, DropMgmtFinalizer(Applied));
    acts := [a, b];
    Chain2(s, a, b, Apply(s, a));
  }

  /** handleDeletion of an instance that never recorded a host. */
  lemma SoloDrop(s: State, u: Uid) returns (acts: seq<Action>)
    requires TaskOf(s, u).Idle? && u in s.store && s.store[u].deleting && !s.store[u].mgmtFin
    requires s.store[u].invFin && s.store[u].ext.None?
    ensures acts == [Own(u, Start), Own(u, DropMgmtFinalizer(Applied)), Own(u, DropFinalizer(Applied))]
    ensures ValidRun(s, acts) && After(s, acts).store == s.store - {u}
  {
    var a, b, c := Own(u, Start), Own(u, DropMgmtFinalizer(Applied)), Own(u, DropFinalizer(Applied));
    acts := [a, b, c];
    var s1 := s.(tasks := s.tasks[u := Teardown(s.store[u])]);
    var s2 := s.(tasks := s.tasks[u := Dropping(s.store[u], None)]);
    assert Apply(s, a) == s1;
    assert s1.tasks[u := Dropping(s.store[u], None)] == s2.tasks;
    Chain3(s, a, b, c, s1, s2);
  }

  /** The rest of it under the lock, whatever the mark. */
  lemma LockedFinish(s: State, u: Uid, h: HostId, obj: Instance) returns (acts: seq<Action>)
    requires TaskOf(s, u) == CleanupLocked(obj, h) && h in s.marks
    requires u in s.store && s.store[u] == obj && obj.deleting && !obj.mgmtFin
    ensures acts == [Own(u, ReadForClear), Own(u, ClearMark(Applied)), Own(u, DropFinalizer(Applied))]
    ensures ValidRun(s, acts) && After(s, acts).store == s.store - {u}
  {
    var a, b, c := Own(u, ReadForClear), Own(u, ClearMark(Applied)), Own(u, DropFinalizer(Applied));
    acts := [a, b, c];
    Chain3(s, a, b, c, Apply(s, a), Apply(Apply(s, a), b));
  }

  /** The cleanup of an instance with a recorded host, alone. */
  lemma SoloCleanup(s: State, u: Uid, h: HostId) returns (acts: seq<Action>)
    requires u in s.store && TaskOf(s, u).Idle? && s.store[u].deleting && s.store[u].invFin && !s.store[u].mgmtFin
    requires s.store[u].ext == Some(h) && !Held(s.locks, h) && h in s.marks
    ensures acts == [Own(u, Start), Own(u, DropMgmtFinalizer(Applied)), Own(u, TryLockCleanup)]
                    + [Own(u, ReadForClear), Own(u, ClearMark(Applied)), Own(u, DropFinalizer(Applied))]
    ensures ValidRun(s, acts) && After(s, acts).store == s.store - {u}
  {
    var front := LockedCleanup(s, u, h);
    var mid := After(s, front);
    var back := LockedFinish(mid, u, h, s.store[u]);
    Compose(s, front, back);
    acts := front + back;
  }

  lemma CleanupMoves(s: State, u: Uid, h: HostId) returns (acts: seq<Action>)
    requires u in s.store && TaskOf(s, u).Idle? && s.store[u].deleting && s.store[u].invFin && !s.store[u].mgmtFin
    requires s.store[u].ext == Some(h) && !Held(s.locks, h) && h in s.marks
    ensures Rewrites(s, u, acts)
  {
    acts := SoloCleanup(s, u, h);
    OwnRunConcat([Own(u, Start), Own(u, DropMgmtFinalizer(Applied)), Own(u, TryLockCleanup)],
                 [Own(u, ReadForClear), Own(u, ClearMark(Applied)), Own(u, DropFinalizer(Applied))]);
  }

  /** The reconcile that moves the deletion of an instance on. */
  lemma DeletionMoves(s: State, u: Uid) returns (acts: seq<Action>)
    requires LocksOk(s) && StoreOk(s) && AllIdle(s) && u in s.store && s.store[u].deleting && !Settled(s, u)
    ensures Rewrites(s, u, acts)
  {
    var obj := s.store[u];
    if obj.mgmtFin {
      acts := SoloDropMgmt(s, u);
    } else if obj.ext.None? {
      acts := SoloDrop(s, u);
    } else {
      NoLocksWhenIdle(s, obj.ext.value);
      acts := CleanupMoves(s, u, obj.ext.value);
    }
  }

  /** An instance that is not settled can write on its own. */
  lemma UnsettledWrites(s: State, u: Uid) returns (acts: seq<Action>)
    requires Inv(s) && AllIdle(s) && u in s.store && !Settled(s, u)
    ensures OwnRun(acts) && ValidRun(s, acts) && Writes(s, acts) > 0
  {
    if s.store[u].deleting {
      acts := DeletionMoves(s, u);
    } else {
      acts := UnsettledMoves(s, u);
    }
    if Writes(s, acts) == 0 { SilentRun(s, acts); }
  }

  /**
   When no reconcile can change anything, every instance is fulfilled, or its template cannot be
   provisioned, or every host passing its filter is taken, and no deletion is pending but those that
   lack a provider; and conversely. What can change at all, error-free reconciles can change.
   */
  lemma QuiescenceCondition(s: State)
    requires Inv(s) && AllIdle(s)
    ensures Quiescent(s) <==> forall u :: u in s.store ==> Settled(s, u)
    ensures Quiescent(s) <==> forall acts :: OwnRun(acts) && ValidRun(s, acts) ==> Writes(s, acts) == 0
  {
    if forall u :: u in s.store ==> Settled(s, u) {
      assert forall v :: AtRest(s, v);
      forall acts | ReconcileRun(acts) && ValidRun(s, acts) ensures Writes(s, acts) == 0 {
        RestingRun(s, acts);
      }
    } else {
      var u :| u in s.store && !Settled(s, u);
      var acts := UnsettledWrites(s, u);
    }
  }
}
