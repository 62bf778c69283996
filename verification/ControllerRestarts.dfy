/**
 The restart results for the controller itself: any number of its reconciles, with user edits of the
 spec between them and everybody else at work, is a run of InstanceProperties.
 */
module ControllerRestarts {
  import opened ClaimMachine
  import opened InstanceManagement
  import opened InstanceProperties
  import opened InstanceController

  /** One reconcile: the spec it reads, and what its calls are answered. */
  datatype Round = Round(spec: Spec, replies: Replies, deprovision: Deprovision)

  /** `n` restarts were triggered in the run `es`, and `stored` is its status but for the phase. */
  predicate Tracks(interval: int, first: Spec, st: Status, es: seq<InstanceProperties.Event>,
                   spec: Spec, stored: Status, n: nat) {
    && SpecEnd(first, es) == spec && OnlyPhase(StatusEnd(interval, first, st, es), stored)
    && Counted(interval, first, st, es).triggered == n
  }

  /** A user edit. */
  lemma TracksEdit(interval: int, first: Spec, st: Status, es: seq<InstanceProperties.Event>,
                   spec: Spec, stored: Status, n: nat, edited: Spec)
    requires Tracks(interval, first, st, es, spec, stored, n)
    ensures Tracks(interval, first, st, es + [Edit(edited)], edited, stored, n)
  {
    RunExtend(interval, first, st, es, Edit(edited));
  }

  /** A reconcile that reaches the management half. */
  lemma TracksReconcile(interval: int, first: Spec, st: Status, es: seq<InstanceProperties.Event>,
                        spec: Spec, stored: Status, n: nat, e: InstanceProperties.Event)
    requires Tracks(interval, first, st, es, spec, stored, n) && e.Reconcile?
    ensures
      Tracks(interval, first, st, es + [e], spec,
             StatusAfter(interval, spec, stored, e), n + Triggered(interval, spec, stored, e))
  {
    RunExtend(interval, first, st, es, e);
    PhaseIrrelevant(interval, spec, StatusEnd(interval, first, st, es), stored, e.replies);
  }

  /** One round after the run `es`. */
  method NextRound(c: InstanceReconciler, u: Uid, round: Round, ghost first: Spec, ghost st: Status,
                   ghost es: seq<InstanceProperties.Event>, ghost spec: Spec, status: Status, ghost n: nat)
    returns (stored: Status, ghost es': seq<InstanceProperties.Event>, ghost n': nat)
    requires c.Valid() && TaskOf(c.s, u).Idle?
    requires u in c.s.blocked <==> round.spec.realTemplate && !c.provider
    requires Tracks(c.recheck, first, st, es, spec, status, n)
    modifies c
    ensures c.Valid() && TaskOf(c.s, u).Idle? && c.s.blocked == old(c.s.blocked)
    ensures Tracks(c.recheck, first, st, es', round.spec, stored, n')
  {
    TracksEdit(c.recheck, first, st, es, spec, status, n, round.spec);
    es' := es + [Edit(round.spec)];
    var after, result, err;
    ghost var start, k, e, triggered;
    after, stored, result, err, start, k, e, triggered :=
      c.Reconcile(u, round.spec, status, round.replies, round.deprovision);
    n' := n + if triggered then 1 else 0;
    if e.Some? {
      TracksReconcile(c.recheck, first, st, es', round.spec, status, n, e.value);
      es' := es' + [e.value];
    }
  }

  /**
   Any number of reconciles of one instance. `restarts` counts the restarts they trigger: it is the
   count of the run `es`, so that RestartsExact and AtMostOneRestart hold of the controller.
   */
  method Reconciles(c: InstanceReconciler, u: Uid, first: Spec, status: Status, rounds: seq<Round>)
    returns (stored: Status, ghost es: seq<InstanceProperties.Event>, ghost restarts: nat)
    requires c.Valid() && TaskOf(c.s, u).Idle?
    requires forall i :: 0 <= i < |rounds| ==> (u in c.s.blocked <==> rounds[i].spec.realTemplate && !c.provider)
    modifies c
    ensures c.Valid() && TaskOf(c.s, u).Idle?
    ensures
      var last := if rounds == [] then first else rounds[|rounds| - 1].spec;
      Tracks(c.recheck, first, status, es, last, stored, restarts)
    ensures Stretch(c.recheck, first, status, es) ==>
      (restarts <= 1 <==>
         Counted(c.recheck, first, status, es).harms
           <= (if InProgress(status) then 1 else 0) + Balance(c.recheck, first, status, es))
  {
    stored, es, restarts := status, [], 0;
    ghost var spec := first;
    for i := 0 to |rounds|
      invariant c.Valid() && TaskOf(c.s, u).Idle? && c.s.blocked == old(c.s.blocked)
      invariant spec == if i == 0 then first else rounds[i - 1].spec
      invariant Tracks(c.recheck, first, status, es, spec, stored, restarts)
    {
      stored, es, restarts := NextRound(c, u, rounds[i], first, status, es, spec, stored, restarts);
      spec := rounds[i].spec;
    }
    if Stretch(c.recheck, first, status, es) {
      AtMostOneRestart(c.recheck, first, status, es);
    }
  }
}
