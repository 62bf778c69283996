/**
 The reconcile of a BareMetalPool around the scaling: phase, readiness and deletion
 (internal/controller/baremetalpool_controller.go).
 */
module PoolUpdate {
  import opened Wrappers
  import opened HostTypes
  import opened CallFates
  import opened PoolGroups
  import opened PoolScaler
  import opened InstanceManagement

  // Seconds.
  const DEFAULT_READY_POLL: int := 10
  const DEFAULT_DELETION_POLL: int := 5

  datatype Profile = Profile(known: bool, parametersMatch: bool, realTemplate: bool)

  /** What the rest of the system answers during one handleUpdate. */
  datatype PoolReplies = PoolReplies(
    profile: Option<Profile>,      // the profile the spec names
    provider: bool,                // a provisioning provider is configured
    versioned: bool,               // ComputeDesiredConfigVersion succeeds
    finalizer: Outcome,            // fate of the finalizer write
    listed: bool,                  // the first List succeeds
    lifecycle: Lifecycle,          // the pool's own provisioning template
    relisted: bool)                // the List of the readiness check succeeds

  /** What handleDeletion is answered; `teardown` is None if no deprovisioning template applies. */
  datatype DeletionReplies = DeletionReplies(
    listed: bool,
    teardown: Option<Teardown>,
    finalizer: Outcome)

  datatype Teardown = Teardown(provider: bool, result: Requeue, done: bool, err: bool)

  /** The checks ahead of the finalizer. */
  predicate Checked(r: PoolReplies) {
    && (r.profile.Some? ==> r.provider && r.profile.value.known && r.profile.value.parametersMatch)
    && r.versioned
  }

  /** All checks ahead of the scaling pass. */
  predicate Admitted(fin: bool, r: PoolReplies) {
    Checked(r) && (fin || r.finalizer.Applied?) && r.listed
  }

  predicate RunsTemplate(r: PoolReplies) {
    r.profile.Some? && r.profile.value.realTemplate && r.provider
  }

  /** The provisioning lifecycle makes handleUpdate return before the readiness check. */
  predicate Suspended(r: PoolReplies) {
    RunsTemplate(r) && (r.lifecycle.err || !r.lifecycle.result.IsZero())
  }

  ghost predicate Countable(p: PoolRef, s: Store) {
    forall t :: |LiveNames(s, p, t)| <= MAX_INT32
  }

  predicate Satisfied(i: Inst) {
    i.deleting || i.ready
  }

  predicate AllReady(p: PoolRef, s: Store) {
    forall n :: n in s && Mine(p, s[n]) ==> Satisfied(s[n])
  }

  function MemberNames(p: PoolRef, s: Store): set<Name> {
    set n | n in s && Mine(p, s[n])
  }

  /** Deprovisioning is over; a skipped run counts as done. */
  predicate TornDown(r: DeletionReplies) {
    r.teardown.None? || (r.teardown.value.provider && !r.teardown.value.err
                         && (r.teardown.value.done || r.teardown.value.result.IsZero()))
  }

  class PoolUpdater {
    const scaler: PoolReconciler
    const readyPoll: int
    const deletionPoll: int
    const provisionPoll: int
    const maxJobHistory: int
    var phase: Phase
    var fin: bool                  // the pool's finalizer, as stored

    /** `libraryPoll` and `libraryHistory` are the provisioning library's own defaults. */
    constructor (scaler: PoolReconciler, readyPoll: int, deletionPoll: int, provisionPoll: int, maxJobHistory: int,
                 libraryPoll: int, libraryHistory: int, phase: Phase, fin: bool)
      requires libraryPoll > 0 && libraryHistory > 0
      ensures Valid() && this.scaler == scaler && this.phase == phase && this.fin == fin
      ensures this.readyPoll == Positive(readyPoll, DEFAULT_READY_POLL)
      ensures this.deletionPoll == Positive(deletionPoll, DEFAULT_DELETION_POLL)
      ensures this.provisionPoll == Positive(provisionPoll, libraryPoll)
      ensures this.maxJobHistory == Positive(maxJobHistory, libraryHistory)
    {
      this.scaler, this.phase, this.fin := scaler, phase, fin;
      this.readyPoll := Positive(readyPoll, DEFAULT_READY_POLL);
      this.deletionPoll := Positive(deletionPoll, DEFAULT_DELETION_POLL);
      this.provisionPoll := Positive(provisionPoll, libraryPoll);
      this.maxJobHistory := Positive(maxJobHistory, libraryHistory);
    }

    ghost predicate Valid()
      reads this
    {
      readyPoll > 0 && deletionPoll > 0 && provisionPoll > 0 && maxJobHistory > 0
    }

    /** handleUpdate up to the finalizer; a failed check leaves the pool Failed. */
    method Admit(r: PoolReplies) returns (ok: bool, err: bool)
      modifies this
      ensures ok ==> !err && fin && phase == if old(phase).NoPhase? then Progressing else old(phase)
      ensures !ok ==> phase.Failed?
      ensures ok <==>
        && (r.profile.Some? ==> r.provider && r.profile.value.known && r.profile.value.parametersMatch)
        && r.versioned && (old(fin) || r.finalizer.Applied?)
      ensures err <==>
        var known := r.profile.None? || (r.provider && r.profile.value.known && r.profile.value.parametersMatch);
        && (r.profile.None? || r.provider)
        && (!r.versioned || (known && !old(fin) && !r.finalizer.Applied?))
      ensures
        var passed := r.profile.Some? ==> r.provider && r.profile.value.known && r.profile.value.parametersMatch;
        fin == (old(fin) || (passed && r.versioned && !r.finalizer.Rejected?))
    {
      ok, err := false, false;
      if phase == NoPhase { phase := Progressing; }
      if r.profile.Some? && !r.provider {
        phase := Failed;
        return;
      }
      if !r.versioned {
        phase := Failed;
        return false, true;
      }
      if r.profile.Some? && (!r.profile.value.known || !r.profile.value.parametersMatch) {
        phase := Failed;
        return;
      }
      if !fin {
        fin := r.finalizer != Rejected;
        if r.finalizer != Applied {
          phase := Failed;
          return false, true;
        }
      }
      ok := true;
    }

    /** checkBareMetalInstancesReady. */
    method CheckReady(relisted: bool) returns (ready: bool, err: bool)
      modifies this`phase
      ensures err == !relisted
      ensures ready <==>
        && relisted
        && forall n :: n in scaler.store && Mine(scaler.pool, scaler.store[n]) ==>
             scaler.store[n].deleting || scaler.store[n].ready
      ensures phase == if err then Failed else if ready then old(phase) else Progressing
    {
      if !relisted {
        phase := Failed;
        return false, true;
      }
      var items := scaler.List();
      for i := 0 to |items|
        invariant forall j :: 0 <= j < i ==> Satisfied(scaler.store[items[j]])
        invariant phase == old(phase)
      {
        assert items[i] in items;
        if scaler.store[items[i]].deleting { continue; }
        if !scaler.store[items[i]].ready {
          phase := Progressing;
          return false, false;
        }
      }
      ready, err := true, false;
    }

    /** handleUpdate after the scaling: the pool's own template, then the readiness of the instances. */
    method Settle(r: PoolReplies) returns (result: Requeue, err: bool)
      requires Valid()
      modifies this`phase
      ensures
        var runs := r.profile.Some? && r.profile.value.realTemplate && r.provider;
        Suspended(r) <==> runs && (r.lifecycle.err || r.lifecycle.result != DONE)
      ensures Suspended(r) ==>
        && result == r.lifecycle.result && err == r.lifecycle.err
        && phase == if r.lifecycle.callback.OnFailed? then Failed else old(phase)
      ensures !Suspended(r) ==>
        && err == !r.relisted
        && result == (if r.relisted && !AllReady(scaler.pool, scaler.store) then Later(readyPoll) else DONE)
        && phase == if err then Failed else if result == DONE then Phase.Ready else Progressing
    {
      if r.profile.Some? && r.profile.value.realTemplate && r.provider {
        if r.lifecycle.callback == OnFailed {
          phase := Failed;
        }
        if r.lifecycle.err { return r.lifecycle.result, true; }
        if !r.lifecycle.result.IsZero() { return r.lifecycle.result, false; }
      }
      var ready;
      ready, err := CheckReady(r.relisted);
      if err { return DONE, true; }
      if !ready { return Later(readyPoll), false; }
      phase := Phase.Ready;
      result := DONE;
    }

    /** A fresh grouping can be counted by int32 if the live instances can. */
    lemma Grouping()
      requires forall t :: Names(scaler.store, scaler.pool, Entries(scaler.current, t), t)
      requires AllCounted(scaler.pool, scaler.store, scaler.current) && Countable(scaler.pool, scaler.store)
      ensures AllListed(scaler.pool, scaler.store, scaler.current)
    {
      forall t ensures |Entries(scaler.current, t)| <= MAX_INT32 {
        assert Counts(scaler.store, scaler.pool, scaler.current, t);
      }
    }

    /** Every check ahead of the scaling passes, and so do all the Create and Delete calls it takes. */
    ghost predicate Scales(spec: seq<HostSet>, r: PoolReplies)
      reads this, scaler
    {
      Admitted(fin, r) && Smooth(scaler.faults, scaler.calls, scaler.calls + Work(scaler.pool, scaler.store, spec))
    }

    /**
     handleUpdate. With no other writer, Ready always means counts equal to the spec; it means that
     every live instance is Ready too, except that a suspending template run keeps the Ready of an
     earlier reconcile.
     */
    method HandleUpdate(spec: seq<HostSet>, r: PoolReplies) returns (result: Requeue, err: bool)
      requires Valid() && ValidSpec(spec) && Countable(scaler.pool, scaler.store)
      modifies this, scaler
      ensures old(Scales(spec, r)) ==> Matches(scaler.pool, scaler.store, spec)
      ensures !old(Scales(spec, r)) ==> phase.Failed?
      ensures phase.Ready? <==>
        old(Scales(spec, r)) && if Suspended(r) then old(phase).Ready? && !(r.lifecycle.callback.OnFailed?)
                                else r.relisted && AllReady(scaler.pool, scaler.store)
      ensures err <==>
        var known := r.profile.None? || (r.provider && r.profile.value.known && r.profile.value.parametersMatch);
        if r.profile.Some? && !r.provider then false
        else if !r.versioned then true
        else if !known then false
        else if !old(fin) && !r.finalizer.Applied? then true
        else if !r.listed || !old(Scales(spec, r)) then true
        else if Suspended(r) then r.lifecycle.err
        else !r.relisted
      ensures !err && result == DONE ==>
        || phase.Ready?
        || (phase.Failed? && r.profile.Some?
            && (!r.provider || (r.versioned && !(r.profile.value.known && r.profile.value.parametersMatch))))
      ensures result ==
        if !old(Scales(spec, r)) then DONE
        else if Suspended(r) then r.lifecycle.result
        else if r.relisted && !AllReady(scaler.pool, scaler.store) then Later(readyPoll)
        else DONE
      ensures old(Scales(spec, r)) && Suspended(r) ==>
        phase == if r.lifecycle.callback.OnFailed? then Failed
          else if old(phase).NoPhase? then Progressing else old(phase)
      ensures old(Scales(spec, r)) && !Suspended(r) ==>
        phase == if err then Failed else if result == DONE then Phase.Ready else Progressing
      ensures Admitted(old(fin), r) ==>
        (scaler.StatusExact() <==>
          !LosesWrite(scaler.faults, old(scaler.calls), old(scaler.calls) + Work(scaler.pool, old(scaler.store), spec)))
      ensures fin == (old(fin) || (Checked(r) && !r.finalizer.Rejected?))
      ensures !Admitted(old(fin), r) ==> scaler.store == old(scaler.store)
      ensures Framed(scaler.pool, old(scaler.store), scaler.store)
      ensures Matches(scaler.pool, old(scaler.store), spec) ==>
        scaler.store == old(scaler.store) && scaler.calls == old(scaler.calls)
    {
      var ok;
      ok, err := Admit(r);
      if !ok { return DONE, err; }
      if !r.listed {
        phase := Failed;
        return DONE, true;
      }
      var items := scaler.List();
      scaler.ListAndGroup(items);
      Grouping();
      ok := scaler.ReconcileInstances(spec);
      if !ok {
        phase := Failed;
        return DONE, true;
      }
      result, err := Settle(r);
    }

    /** Two passes in a row: the second one makes no Create or Delete call and changes no instance. */
    method HandleUpdateTwice(spec: seq<HostSet>, r: PoolReplies, again: PoolReplies)
      returns (ghost settled: Store, ghost callsThen: nat, res: Requeue, err: bool)
      requires Valid() && ValidSpec(spec) && Countable(scaler.pool, scaler.store)
      requires Scales(spec, r)
      modifies this, scaler
      ensures Matches(scaler.pool, settled, spec) && scaler.store == settled && scaler.calls == callsThen
      ensures Framed(scaler.pool, old(scaler.store), settled)
      ensures Admitted(true, again) && !Suspended(again) ==>
        && err == !again.relisted && (phase.Ready? <==> !err && AllReady(scaler.pool, settled))
        && res == if err || phase.Ready? then DONE else Later(readyPoll)
    {
      res, err := HandleUpdate(spec, r);
      settled, callsThen := scaler.store, scaler.calls;
      forall t ensures |LiveNames(settled, scaler.pool, t)| <= MAX_INT32 {
        DesiredValid(spec, t);
      }
      WorkDone(scaler.pool, settled, spec);
      res, err := HandleUpdate(spec, again);
    }

    /**
     handleDeletion. The finalizer goes exactly when the list came back empty, in any state of the
     instances, and the teardown is over; until then every listed instance is deleted.
     */
    method HandleDeletion(r: DeletionReplies) returns (result: Requeue, err: bool)
      requires Valid()
      modifies this, scaler`store, scaler`calls
      ensures fin == (old(fin) && !(r.listed && MemberNames(scaler.pool, old(scaler.store)) == {} && TornDown(r)
                                    && !r.finalizer.Rejected?))
      ensures
        var members := MemberNames(scaler.pool, old(scaler.store));
        var deleted := Smooth(scaler.faults, old(scaler.calls),
                              old(scaler.calls) + |Undeleted(scaler.pool, old(scaler.store))|);
        && (!r.listed || !deleted ==> err && result == DONE && phase.Deleting?)
        && (r.listed && deleted && members != {} ==> !err && result == Later(deletionPoll) && phase.Deleting?)
        && (r.listed && members == {} && r.teardown.Some? && !r.teardown.value.provider ==>
              !err && result == DONE && phase.Failed?)
        && (r.listed && members == {} && r.teardown.Some? && r.teardown.value.provider && !TornDown(r) ==>
              err == r.teardown.value.err && result == r.teardown.value.result && phase.Deleting?)
        && (r.listed && members == {} && TornDown(r) ==>
              err == (old(fin) && !r.finalizer.Applied?) && result == DONE && phase.Deleting?)
      ensures TornDown(r) <==>
        || r.teardown.None?
        || (r.teardown.value.provider && !r.teardown.value.err
            && (r.teardown.value.done || r.teardown.value.result == DONE))
      ensures !err ==> forall n :: n in MemberNames(scaler.pool, scaler.store) ==> scaler.store[n].deleting
      ensures Shrunk(scaler.pool, old(scaler.store), scaler.store)
      ensures !r.listed ==> scaler.store == old(scaler.store)
    {
      phase := Deleting;
      if !r.listed { return DONE, true; }
      var items := scaler.List();
      assert |items| > 0 ==> items[0] in items && items[0] in MemberNames(scaler.pool, scaler.store);
      assert items == [] ==> Undeleted(scaler.pool, scaler.store) <= MemberNames(scaler.pool, scaler.store) == {};
      var ok := scaler.DeleteAll(items);
      if !ok { return DONE, true; }
      if |items| > 0 {
        return Later(deletionPoll), false;
      }
      if r.teardown.Some? {
        var t := r.teardown.value;
        if !t.provider {
          phase := Failed;
          return DONE, false;
        }
        var done := t.done || (t.result.IsZero() && !t.err);
        if t.err { return t.result, true; }
        if !done { return t.result, false; }
      }
      if fin {
        fin := r.finalizer == Rejected;
        if r.finalizer != Applied { return DONE, true; }
      }
      result, err := DONE, false;
    }
  }

  /**
   The exception is reachable: a Ready pool scaled from none to one, with its template still running,
   stays Ready although its only instance is not.
   */
  method StaleReady() returns (phase: Phase, live: nat, unready: nat)
    ensures phase.Ready? && live == 1 && unready == 1
  {
    var pool := PoolRef(0, 0);
    var scaler := new PoolReconciler(pool, map[], []);
    var updater := new PoolUpdater(scaler, 0, 0, 0, 0, 1, 1, Phase.Ready, true);
    var running := Lifecycle(NoCall, Later(1), false);
    var r := PoolReplies(Some(Profile(true, true, true)), true, true, Applied, true, running, true);
    var spec := [HostSet("a", 1)];
    var res, err;
    res, err := updater.HandleUpdate(spec, r);
    phase := updater.phase;
    ghost var store := scaler.store;
    assert |LiveNames(store, pool, "a")| == Desired(spec, "a") == 1;
    var names := LiveNames(scaler.store, pool, "a");
    var waiting := set n | n in names && !scaler.store[n].ready;
    assert waiting == names;
    live, unready := |names|, |waiting|;
  }

  /**
   A pool whose own template is reported as failed in this very pass ends Ready all the same, if its
   instances are: unlike the instance controller, the pool controller does not look at the failure.
   */
  method FailedTemplateReady() returns (failed: bool, phase: Phase)
    ensures failed && phase.Ready?
  {
    var pool := PoolRef(0, 0);
    var scaler := new PoolReconciler(pool, map[0 := Inst(0, Some(0), "a", false, true, true)], []);
    var updater := new PoolUpdater(scaler, 0, 0, 0, 0, 1, 1, Progressing, true);
    var broken := Lifecycle(OnFailed, DONE, false);
    var r := PoolReplies(Some(Profile(true, true, true)), true, true, Applied, true, broken, true);
    var spec := [HostSet("a", 1)];
    ghost var store := scaler.store;
    assert LiveNames(store, pool, "a") == {0} && Desired(spec, "a") == 1;
    forall t | t != "a" ensures |LiveNames(store, pool, t)| == Desired(spec, t) {
      assert LiveNames(store, pool, t) == {};
      assert spec[|spec| - 1].hostType != t && spec[..|spec| - 1] == [];
      assert SpecReplicas(spec, t) == SpecReplicas([], t);
    }
    var res, err;
    res, err := updater.HandleUpdate(spec, r);
    failed, phase := r.lifecycle.callback == OnFailed, updater.phase;
  }
}
