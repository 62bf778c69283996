/** What the management half of the instance controller guarantees over one and over many reconciles. */
module InstanceProperties {
  import opened Wrappers
  import opened Metal3Management
  import opened InstanceManagement

  // ---------------------------------------------------------------- Ready is sound

  /** The power reading a reconcile ends on. */
  function LastReading(spec: Spec, r: Replies): Result<Option<PowerStatus>, Error> {
    if spec.runStrategy.Unspecified? then r.first else r.refreshed
  }

  lemma ReadySound(interval: int, spec: Spec, st: Status, r: Replies)
    requires interval != 0
    ensures
      var p := ManagementPass(interval, spec, st, r);
      p.status.phase.Ready? ==>
        && !p.err && p.result.IsZero()
        && p.status.restartTrigger == spec.restartTrigger
        && (spec.realTemplate && p.status.provisioned.Some? ==> p.status.provisioned.value.status.True?)
        && LastReading(spec, r).Ok? && LastReading(spec, r).value.Some?
        && var ps := LastReading(spec, r).value.value;
           && p.status.runStrategy == ObservedStrategy(ps)
           && (!spec.runStrategy.Unspecified? ==>
                 && !ps.transitioning && ObservedStrategy(ps) == spec.runStrategy
                 && p.status.powerSynced ==
                      Some(Condition(True, if spec.runStrategy.Always? then ReasonPowerOn else ReasonPowerOff)))
  {
  }

  // ---------------------------------------------------------------- errors

  /** No call is made after one that failed. */
  predicate StopsAtFailure(calls: seq<Call>) {
    forall i :: 0 <= i < |calls| - 1 ==> !Breaks(calls[i])
  }

  lemma {:induction false} LastFailure(calls: seq<Call>)
    requires StopsAtFailure(calls)
    ensures Failures(calls) == if calls != [] && Breaks(calls[|calls| - 1]) then 1 else 0
  {
    if calls == [] {
    } else {
      var rest := calls[..|calls| - 1];
      LastFailure(rest);
      assert rest != [] ==> rest[|rest| - 1] == calls[|rest| - 1];
    }
  }

  lemma PowerErrors(interval: int, spec: Spec, st: Status, r: Replies)
    ensures
      var calls := PowerCalls(spec, r);
      StopsAtFailure(calls) && calls != []
      && (PowerPass(interval, spec, st, r).err <==> Breaks(calls[|calls| - 1]))
  {
  }

  lemma RestartErrors(interval: int, spec: Spec, st: Status, r: Replies)
    ensures
      var calls, p := RestartCalls(spec, st, r), RestartPass(interval, spec, st, r);
      && |calls| <= 1
      && if RestartSettled(interval, spec, st, r)
         then !p.err && p.result.IsZero() && (calls != [] ==> !Breaks(calls[0]))
         else calls != [] && (p.err <==> Breaks(calls[0])) && (p.err || !p.result.IsZero())
  {
  }

  /** The three parts of a reconcile, one after the other, until one fails or asks to wait. */
  lemma ManagementParts(interval: int, spec: Spec, st: Status, r: Replies)
    ensures
      var st1 := if spec.realTemplate then Provisioned(st, r.lifecycle) else st;
      var p := RestartPass(interval, spec, st1, r);
      ManagementPass(interval, spec, st, r).err ==
        if !ProvisioningOver(spec, st, r.lifecycle) then spec.realTemplate && r.lifecycle.err
        else if !RestartSettled(interval, spec, st, r) then p.err
        else PowerPass(interval, spec, p.status, r).err
    ensures
      var st1 := if spec.realTemplate then Provisioned(st, r.lifecycle) else st;
      && RestartCalls(spec, st1, r) == RestartCalls(spec, st, r)
      && RestartSettled(interval, spec, st1, r) == RestartSettled(interval, spec, st, r)
  {
    var st1 := if spec.realTemplate then Provisioned(st, r.lifecycle) else st;
    RestartErrors(interval, spec, st1, r);
  }

  /**
   A reconcile returns an error exactly if one of the calls it made failed, and that was its last
   call. A missing power status counts as a failure; a request refused as a conflict does not.
   */
  lemma ErrorCondition(interval: int, spec: Spec, st: Status, r: Replies)
    ensures
      var calls := ManagementCalls(interval, spec, st, r);
      && StopsAtFailure(calls)
      && Failures(calls) == if ManagementPass(interval, spec, st, r).err then 1 else 0
  {
    var calls := ManagementCalls(interval, spec, st, r);
    var front := if spec.realTemplate then [Provision(r.lifecycle)] else [];
    var mid, back := RestartCalls(spec, st, r), PowerCalls(spec, r);
    var st1 := if spec.realTemplate then Provisioned(st, r.lifecycle) else st;
    ManagementParts(interval, spec, st, r);
    RestartErrors(interval, spec, st1, r);
    PowerErrors(interval, spec, RestartPass(interval, spec, st1, r).status, r);
    if !ProvisioningOver(spec, st, r.lifecycle) {
      assert calls == front;
    } else if RestartSettled(interval, spec, st, r) {
      assert calls == front + mid + back && calls[|calls| - 1] == back[|back| - 1];
    } else {
      assert calls == front + mid && calls[|calls| - 1] == mid[0];
    }
    LastFailure(calls);
  }

  // ---------------------------------------------------------------- what a reconcile reports

  /** Nothing but the provisioning condition and the phase differs. */
  predicate SameBut(a: Status, b: Status) {
    b == a.(provisioned := b.provisioned, phase := b.phase)
  }

  /** The condition of the provisioning template: what was reported last, unless a job is running now. */
  lemma ProvisioningReported(interval: int, spec: Spec, st: Status, r: Replies)
    ensures
      var l, cond := r.lifecycle, ManagementPass(interval, spec, st, r).status.provisioned;
      var failed := l.callback.OnFailed?
        || (l.callback.NoCall? && st.provisioned.Some? && st.provisioned.value.reason.ReasonTemplateFailed?);
      && (!spec.realTemplate ==> cond == st.provisioned)
      && (spec.realTemplate && l.callback.OnFailed? ==> cond == Some(Condition(False, ReasonTemplateFailed)))
      && (spec.realTemplate && !l.err && l.result.after > 0 && !failed ==>
            cond == Some(Condition(False, ReasonProgressing)))
      && (spec.realTemplate && (l.err || l.result.after <= 0) && l.callback.OnSuccess? ==>
            cond == Some(Condition(True, ReasonSucceeded)))
      && (spec.realTemplate && (l.err || l.result.after <= 0 || failed) && l.callback.NoCall? ==>
            cond == st.provisioned)
  {
  }

  /** A reconcile that gets no further than the template leaves the rest alone; it is Failed unless a job is running. */
  lemma ProvisioningLast(interval: int, spec: Spec, st: Status, r: Replies)
    requires !ProvisioningOver(spec, st, r.lifecycle)
    ensures
      var p := ManagementPass(interval, spec, st, r);
      && SameBut(st, p.status) && !p.triggered && p.err == r.lifecycle.err && p.result == r.lifecycle.result
      && p.status.phase == if !p.err && p.result != DONE then Progressing else Failed
  {
  }

  /** The restart part of a reconcile that has nothing to restart, or sees its restart completed. */
  lemma RestartCompleted(interval: int, spec: Spec, st: Status, r: Replies)
    requires
      || spec.restartTrigger == st.restartTrigger || spec.runStrategy.Halted?
      || (st.powerSynced == Some(Condition(False, ReasonProgressing)) && r.restartComplete == Ok(true))
    ensures
      RestartPass(interval, spec, st, r) ==
        Pass(st.(restartTrigger := spec.restartTrigger, powerSynced := Some(Condition(True, ReasonCompleted))),
             DONE, false, false)
  {
  }

  /** What a reconcile reports that ends in the restart: the answer of the one call it made there. */
  lemma RestartReported(interval: int, spec: Spec, st: Status, r: Replies)
    requires interval != 0 && ProvisioningOver(spec, st, r.lifecycle)
    requires spec.restartTrigger != st.restartTrigger && !spec.runStrategy.Halted?
    ensures
      var p := ManagementPass(interval, spec, st, r);
      var running := st.powerSynced == Some(Condition(False, ReasonProgressing));
      && (running && r.restartComplete.Err? ==>
            p.err && p.result == DONE && p.status.phase.Failed?
            && p.status.powerSynced == Some(Condition(False, ReasonPowerSyncFailed)))
      && (running && r.restartComplete == Ok(false) ==>
            !p.err && p.result == Later(interval) && p.status.phase.Progressing?
            && p.status.powerSynced == st.powerSynced)
      && (!running && r.trigger.Refused? ==>
            !p.err && p.result == Later(interval) && p.status.phase.Progressing?
            && p.status.powerSynced == Some(Condition(False, ReasonPowerSyncFailed)))
      && (!running && r.trigger.Sent? && !r.trigger.out.Applied? ==>
            p.err && p.result == DONE && p.status.phase.Failed?
            && p.status.powerSynced == Some(Condition(False, ReasonPowerSyncFailed)))
      && (!running && r.trigger == Sent(Applied) ==>
            !p.err && p.result == Later(interval) && p.status.phase.Progressing?
            && p.status.powerSynced == Some(Condition(False, ReasonProgressing)))
      && (!running || r.restartComplete != Ok(true) ==>
            p.status.restartTrigger == st.restartTrigger && p.status.runStrategy == st.runStrategy)
  {
  }

  /** Nothing is left to restart: the reconcile reads the power state. */
  predicate GetsToPower(spec: Spec, st: Status, r: Replies) {
    && ProvisioningOver(spec, st, r.lifecycle)
    && (spec.restartTrigger == st.restartTrigger || spec.runStrategy.Halted?
        || (st.powerSynced == Some(Condition(False, ReasonProgressing)) && r.restartComplete == Ok(true)))
  }

  /**
   What a reconcile that reads the power state reports: PowerSynced is True exactly if the last reading is
   stable and, with a run strategy, in the state it asks for.
   */
  lemma PowerReported(interval: int, spec: Spec, st: Status, r: Replies)
    requires interval != 0 && GetsToPower(spec, st, r)
    ensures
      var p := ManagementPass(interval, spec, st, r);
      var last := if spec.runStrategy.Unspecified? then r.first else r.refreshed;
      && p.status.restartTrigger == spec.restartTrigger
      && (p.err ==>
            && p.result == DONE && p.status.phase.Failed? && p.status.runStrategy == st.runStrategy
            && p.status.powerSynced == Some(Condition(False, ReasonIronicAPIFailure)))
      && (!p.err ==> last.Ok? && last.value.Some?)
      && (!p.err ==>
            var ps := last.value.value;
            var on := ps.state.PowerOn?;
            var there := !ps.transitioning && (spec.runStrategy.Unspecified? || spec.runStrategy.Always? == on);
            && p.status.runStrategy == (if on then Always else Halted)
            && p.status.powerSynced ==
                 Some(if !there then Condition(False, ReasonProgressing)
                      else Condition(True, if on then ReasonPowerOn else ReasonPowerOff))
            && (p.status.phase == if there || spec.runStrategy.Unspecified? then Ready else Progressing)
            && (p.result == if there || spec.runStrategy.Unspecified? then DONE else Later(interval)))
  {
  }

  /** The power calls: none for an unstable host, and one for a stable host that is not where it should be. */
  lemma PowerCallsMade(interval: int, spec: Spec, st: Status, r: Replies)
    requires interval != 0
    ensures
      var calls, p := ManagementCalls(interval, spec, st, r), ManagementPass(interval, spec, st, r);
      && (ReadPower(r.first) in calls <==> GetsToPower(spec, st, r))
      && (SetPower(r.setPower) in calls <==>
            && GetsToPower(spec, st, r) && r.first.Ok? && r.first.value.Some?
            && !spec.runStrategy.Unspecified? && !r.first.value.value.transitioning
            && spec.runStrategy.Always? != r.first.value.value.state.PowerOn?)
      && (GetsToPower(spec, st, r) ==>
            (p.err <==>
              || r.first.Err? || r.first.value.None?
              || (SetPower(r.setPower) in calls && r.setPower == Err(Failure))
              || (!spec.runStrategy.Unspecified? && (r.refreshed.Err? || r.refreshed.value.None?))))
  {
  }

  // ---------------------------------------------------------------- nothing stalls silently

  /** The template has failed, and the status says so. */
  predicate TemplateBroken(spec: Spec, st: Status) {
    && spec.realTemplate && st.provisioned.Some?
    && !st.provisioned.value.status.True? && st.provisioned.value.reason.ReasonTemplateFailed?
  }

  predicate FailedForGood(spec: Spec, st: Status) {
    st.phase.Failed? && TemplateBroken(spec, st)
  }

  /** The lifecycle has nothing to report although the template is neither done nor failed. */
  predicate Forgotten(spec: Spec, st: Status, l: Lifecycle) {
    && spec.realTemplate && l == Lifecycle(NoCall, DONE, false)
    && st.provisioned.Some? && !st.provisioned.value.status.True?
    && !st.provisioned.value.reason.ReasonTemplateFailed?
  }

  /**
   Without an error and without a requeue, a reconcile ends Ready or with a failed template, unless,
   and only unless, the lifecycle has nothing to report about a template it has not finished.
   */
  lemma NoSilentStall(interval: int, spec: Spec, st: Status, r: Replies)
    requires interval != 0
    ensures
      var p := ManagementPass(interval, spec, st, r);
      && (Forgotten(spec, st, r.lifecycle) <==>
            !p.err && p.result.IsZero() && !p.status.phase.Ready? && !FailedForGood(spec, p.status))
      && (p.status.phase.Ready? ==> !p.err && p.result.IsZero())
      && (Forgotten(spec, st, r.lifecycle) ==> p.status == st.(phase := Failed))
  {
  }

  /** The status after reconciles of an unchanged spec that are answered with `rs`. */
  function Ended(interval: int, spec: Spec, st: Status, rs: seq<Replies>): Status
    decreases |rs|
  {
    if rs == [] then st else Ended(interval, spec, ManagementPass(interval, spec, st, rs[0]).status, rs[1..])
  }

  /** A failed template is cleared by a reported success and by nothing else. */
  lemma FailureCleared(interval: int, spec: Spec, st: Status, r: Replies)
    requires interval != 0 && TemplateBroken(spec, st)
    ensures
      var p := ManagementPass(interval, spec, st, r);
      && (TemplateBroken(spec, p.status) <==> !r.lifecycle.callback.OnSuccess?)
      && (!r.lifecycle.callback.OnSuccess? ==>
            !p.triggered && !p.status.phase.Ready? && p.status.restartTrigger == st.restartTrigger
            && p.status.powerSynced == st.powerSynced && p.status.runStrategy == st.runStrategy)
  {
  }

  /** So it lasts, whatever else is answered and however often, until the lifecycle reports a success. */
  lemma {:induction false} FailureLasts(interval: int, spec: Spec, st: Status, rs: seq<Replies>)
    requires interval != 0 && TemplateBroken(spec, st)
    requires forall i :: 0 <= i < |rs| ==> !rs[i].lifecycle.callback.OnSuccess?
    ensures
      var end := Ended(interval, spec, st, rs);
      TemplateBroken(spec, end) && (rs != [] ==> !end.phase.Ready?) && end.restartTrigger == st.restartTrigger
    decreases |rs|
  {
    if rs == [] {
    } else {
      FailureCleared(interval, spec, st, rs[0]);
      FailureLasts(interval, spec, ManagementPass(interval, spec, st, rs[0]).status, rs[1..]);
    }
  }

  /** A restart was triggered, or refused as a conflict, and is recorded as done all the same. */
  predicate FallsThrough(spec: Spec, st: Status, p: Pass) {
    && spec.restartTrigger != st.restartTrigger && !spec.runStrategy.Halted? && !InProgress(st)
    && p.status.restartTrigger == spec.restartTrigger
  }

  /** The backend accepts the restart and reports it unfinished. */
  function Accepting(): Replies {
    Replies(Lifecycle(NoCall, DONE, false), Ok(false), Sent(Applied), Err(Failure), Ok(()), Err(Failure))
  }

  /** The statements after triggerRestart are reachable exactly with a zero recheck interval. */
  lemma FallThroughCondition(interval: int, spec: Spec, st: Status)
    ensures (exists r :: FallsThrough(spec, st, RestartPass(interval, spec, st, r))) <==>
      interval == 0 && spec.restartTrigger != st.restartTrigger && !spec.runStrategy.Halted? && !InProgress(st)
  {
    var r := Accepting();
    if interval == 0 && spec.restartTrigger != st.restartTrigger && !spec.runStrategy.Halted? && !InProgress(st) {
      assert FallsThrough(spec, st, RestartPass(interval, spec, st, r));
    }
  }

  // ---------------------------------------------------------------- provisioning comes first

  /** Neither restart nor power nor Ready before the template is through; a failed one stays failed. */
  lemma ProvisioningFirst(interval: int, spec: Spec, st: Status, r: Replies)
    requires interval != 0
    ensures
      var p := ManagementPass(interval, spec, st, r);
      && (p.triggered || p.status.phase.Ready? || p.status.restartTrigger != st.restartTrigger
          || p.status.powerSynced != st.powerSynced || p.status.runStrategy != st.runStrategy
          ==> ProvisioningOver(spec, st, r.lifecycle))
      && (spec.realTemplate && r.lifecycle.callback.OnFailed? ==>
            p.status.provisioned == Some(Condition(False, ReasonTemplateFailed)))
      && (r.lifecycle.callback.NoCall? && st.provisioned == Some(Condition(False, ReasonTemplateFailed)) ==>
            p.status.provisioned == st.provisioned)
  {
  }

  /** TriggerRestart is called. */
  predicate Attempts(spec: Spec, st: Status, r: Replies) {
    ProvisioningOver(spec, st, r.lifecycle) && RestartDue(spec, st) && !InProgress(st)
  }

  /** IsRestartComplete is called. */
  predicate Checks(spec: Spec, st: Status, r: Replies) {
    ProvisioningOver(spec, st, r.lifecycle) && RestartDue(spec, st) && InProgress(st)
  }

  /**
   Exactly when a restart is triggered, and exactly when a changed trigger is recorded as handled: when
   the backend reports the restart complete, or the host is to be off anyway.
   */
  lemma RestartHandled(interval: int, spec: Spec, st: Status, r: Replies)
    requires interval != 0
    ensures
      var p := ManagementPass(interval, spec, st, r);
      var over := ProvisioningOver(spec, st, r.lifecycle);
      var running := st.powerSynced == Some(Condition(False, ReasonProgressing));
      && (p.triggered <==>
            over && spec.restartTrigger != st.restartTrigger && !spec.runStrategy.Halted? && !running
            && r.trigger == Sent(Applied))
      && p.status.restartTrigger in {st.restartTrigger, spec.restartTrigger}
      && (p.status.restartTrigger == spec.restartTrigger <==>
            || spec.restartTrigger == st.restartTrigger
            || (over && (spec.runStrategy.Halted? || (running && r.restartComplete == Ok(true)))))
  {
  }

  // ---------------------------------------------------------------- restarts are not duplicated

  /** A user edit, or one reconcile whose status write is kept or lost. */
  datatype Event = Edit(spec: Spec) | Reconcile(replies: Replies, kept: bool)

  function SpecAfter(spec: Spec, e: Event): Spec {
    if e.Edit? then e.spec else spec
  }

  function StatusAfter(interval: int, spec: Spec, st: Status, e: Event): Status {
    if e.Reconcile? && e.kept then ManagementPass(interval, spec, st, e.replies).status else st
  }

  function Triggered(interval: int, spec: Spec, st: Status, e: Event): nat {
    if e.Reconcile? && ManagementPass(interval, spec, st, e.replies).triggered then 1 else 0
  }

  /** The restart patch lands, acknowledged or not. */
  function Landed(spec: Spec, st: Status, e: Event): nat {
    if e.Reconcile? && Attempts(spec, st, e.replies) && e.replies.trigger.Landed() then 1 else 0
  }

  function Unacknowledged(spec: Spec, st: Status, e: Event): nat {
    if e.Reconcile? && Attempts(spec, st, e.replies) && e.replies.trigger == Sent(Lost) then 1 else 0
  }

  /** A restart that is not recorded as running, or a running one whose record is dropped. */
  predicate Harmful(spec: Spec, st: Status, e: Event) {
    && e.Reconcile?
    && (if e.kept then Checks(spec, st, e.replies) && e.replies.restartComplete.Err?
        else Attempts(spec, st, e.replies) && e.replies.trigger == Sent(Applied))
  }

  function Harm(spec: Spec, st: Status, e: Event): nat {
    if Harmful(spec, st, e) then 1 else 0
  }

  datatype Count = Count(triggered: nat, landed: nat, unacknowledged: nat, harms: nat)

  /** What is counted over a run. */
  function Counted(interval: int, spec: Spec, st: Status, es: seq<Event>): Count
    decreases |es|
  {
    if es == [] then Count(0, 0, 0, 0)
    else
      var e := es[0];
      var rest := Counted(interval, SpecAfter(spec, e), StatusAfter(interval, spec, st, e), es[1..]);
      Count(rest.triggered + Triggered(interval, spec, st, e), rest.landed + Landed(spec, st, e),
            rest.unacknowledged + Unacknowledged(spec, st, e), rest.harms + Harm(spec, st, e))
  }

  /** Nothing but the phase differs. */
  predicate OnlyPhase(a: Status, b: Status) {
    b == a.(phase := b.phase)
  }

  lemma RestartKeepsPhase(interval: int, spec: Spec, a: Status, b: Status, r: Replies)
    requires OnlyPhase(a, b)
    ensures
      var p, q := RestartPass(interval, spec, a, r), RestartPass(interval, spec, b, r);
      OnlyPhase(p.status, q.status) && p.result == q.result && p.err == q.err && p.triggered == q.triggered
  {
  }

  lemma PowerSetsPhase(interval: int, spec: Spec, a: Status, b: Status, r: Replies)
    requires OnlyPhase(a, b)
    ensures PowerPass(interval, spec, a, r) == PowerPass(interval, spec, b, r)
  {
  }

  /** A reconcile does not look at the phase it finds. */
  lemma PhaseIrrelevant(interval: int, spec: Spec, a: Status, b: Status, r: Replies)
    requires OnlyPhase(a, b)
    ensures ManagementPass(interval, spec, a, r) == ManagementPass(interval, spec, b, r)
  {
    var a1 := if spec.realTemplate then Provisioned(a, r.lifecycle) else a;
    var b1 := if spec.realTemplate then Provisioned(b, r.lifecycle) else b;
    assert OnlyPhase(a1, b1);
    RestartKeepsPhase(interval, spec, a1, b1, r);
    var p, q := RestartPass(interval, spec, a1, r), RestartPass(interval, spec, b1, r);
    PowerSetsPhase(interval, spec, p.status, q.status, r);
  }

  /** The spec and the status after a run. */
  function SpecEnd(spec: Spec, es: seq<Event>): Spec
    decreases |es|
  {
    if es == [] then spec else SpecEnd(SpecAfter(spec, es[0]), es[1..])
  }

  function StatusEnd(interval: int, spec: Spec, st: Status, es: seq<Event>): Status
    decreases |es|
  {
    if es == [] then st
    else StatusEnd(interval, SpecAfter(spec, es[0]), StatusAfter(interval, spec, st, es[0]), es[1..])
  }

  /** One more event at the end of a run. */
  lemma {:induction false} RunExtend(interval: int, spec: Spec, st: Status, es: seq<Event>, e: Event)
    ensures SpecEnd(spec, es + [e]) == SpecAfter(SpecEnd(spec, es), e)
    ensures
      var spec', st' := SpecEnd(spec, es), StatusEnd(interval, spec, st, es);
      && StatusEnd(interval, spec, st, es + [e]) == StatusAfter(interval, spec', st', e)
      && Counted(interval, spec, st, es + [e]).triggered
           == Counted(interval, spec, st, es).triggered + Triggered(interval, spec', st', e)
    decreases |es|
  {
    if es == [] {
      assert [] + [e] == [e] && [e][1..] == [];
      assert Counted(interval, SpecAfter(spec, e), StatusAfter(interval, spec, st, e), []).triggered == 0;
    } else {
      assert (es + [e])[1..] == es[1..] + [e];
      RunExtend(interval, SpecAfter(spec, es[0]), StatusAfter(interval, spec, st, es[0]), es[1..], e);
    }
  }

  /** Spec and status triggers differ at the start and, but for its last event, throughout. */
  predicate Stretch(interval: int, spec: Spec, st: Status, es: seq<Event>)
    decreases |es|
  {
    && spec.restartTrigger != st.restartTrigger
    && (|es| > 1 ==>
          Stretch(interval, SpecAfter(spec, es[0]), StatusAfter(interval, spec, st, es[0]), es[1..]))
  }

  /** 1 if no restart is recorded as running. */
  function Credit(st: Status): nat {
    if InProgress(st) then 0 else 1
  }

  /** The credit at the end of a stretch, or before the event that handles its trigger. */
  function Balance(interval: int, spec: Spec, st: Status, es: seq<Event>): nat
    decreases |es|
  {
    if es == [] || StatusAfter(interval, spec, st, es[0]).restartTrigger != st.restartTrigger then Credit(st)
    else Balance(interval, SpecAfter(spec, es[0]), StatusAfter(interval, spec, st, es[0]), es[1..])
  }

  /** One event: a restart costs the credit, and harm gives it back. */
  lemma StretchStep(interval: int, spec: Spec, st: Status, e: Event)
    requires interval != 0 && spec.restartTrigger != st.restartTrigger
    ensures
      var st' := StatusAfter(interval, spec, st, e);
      if st'.restartTrigger == st.restartTrigger
      then Triggered(interval, spec, st, e) + Credit(st') == Credit(st) + Harm(spec, st, e)
      else Triggered(interval, spec, st, e) == 0 && Harm(spec, st, e) == 0
    ensures Landed(spec, st, e) == Triggered(interval, spec, st, e) + Unacknowledged(spec, st, e)
  {
  }

  /** A reconcile that keeps the stretch going leaves the status trigger alone. */
  lemma StretchHolds(interval: int, spec: Spec, st: Status, e: Event)
    requires interval != 0 && spec.restartTrigger != st.restartTrigger
    requires SpecAfter(spec, e).restartTrigger != StatusAfter(interval, spec, st, e).restartTrigger
    ensures StatusAfter(interval, spec, st, e).restartTrigger == st.restartTrigger
  {
  }

  /**
   The number of restarts triggered in a stretch, exactly, however many reconciles run and however
   often the spec changes meanwhile; and how many more have landed.
   */
  lemma {:induction false} RestartsExact(interval: int, spec: Spec, st: Status, es: seq<Event>)
    requires interval != 0 && Stretch(interval, spec, st, es)
    ensures
      var n := Counted(interval, spec, st, es);
      && n.triggered + Balance(interval, spec, st, es) == Credit(st) + n.harms
      && n.landed == n.triggered + n.unacknowledged
    decreases |es|
  {
    if es == [] {
    } else {
      var spec', st' := SpecAfter(spec, es[0]), StatusAfter(interval, spec, st, es[0]);
      StretchStep(interval, spec, st, es[0]);
      if |es| > 1 {
        StretchHolds(interval, spec, st, es[0]);
        RestartsExact(interval, spec', st', es[1..]);
      } else {
        assert es[1..] == [];
      }
    }
  }

  /**
   At most one restart succeeds exactly if there is no more harm than this: one event if a restart was
   recorded as running at the start, and one if none is at the end.
   */
  lemma AtMostOneRestart(interval: int, spec: Spec, st: Status, es: seq<Event>)
    requires interval != 0 && Stretch(interval, spec, st, es)
    ensures
      var n := Counted(interval, spec, st, es);
      n.triggered <= 1 <==>
        n.harms <= (if InProgress(st) then 1 else 0) + Balance(interval, spec, st, es)
  {
    RestartsExact(interval, spec, st, es);
  }

  /** No restart left unrecorded, no record dropped: at most one. */
  lemma RestartsNotDuplicated(interval: int, spec: Spec, st: Status, es: seq<Event>)
    requires interval != 0 && Stretch(interval, spec, st, es) && Counted(interval, spec, st, es).harms == 0
    ensures Counted(interval, spec, st, es).triggered <= 1
  {
    RestartsExact(interval, spec, st, es);
  }

  /** Without a template to wait for, the next accepting reconcile triggers a restart. */
  predicate CanTrigger(spec: Spec, st: Status) {
    !spec.realTemplate && RestartDue(spec, st) && !InProgress(st)
  }

  /** Harm that leaves the trigger unhandled costs one more restart: the accepting reconcile after it. */
  lemma HarmDuplicates(interval: int, spec: Spec, st: Status, harm: Event)
    requires interval != 0 && !spec.realTemplate && RestartDue(spec, st) && Harmful(spec, st, harm)
    ensures
      var go := Reconcile(Accepting(), true);
      && CanTrigger(spec, StatusAfter(interval, spec, st, harm))
      && Stretch(interval, spec, st, [harm, go])
      && Counted(interval, spec, st, [harm, go]).triggered == 1 + Credit(st)
  {
    var go := Reconcile(Accepting(), true);
    var st' := StatusAfter(interval, spec, st, harm);
    assert [harm, go][1..] == [go] && [go][1..] == [];
    assert Counted(interval, spec, st', [go]).triggered == 1;
  }

  /** A lost status write makes two restarts, if it is the one that records a restart just triggered. */
  lemma LostWriteDuplicates(interval: int, spec: Spec, st: Status)
    requires interval != 0 && CanTrigger(spec, st)
    ensures
      var es := [Reconcile(Accepting(), false), Reconcile(Accepting(), true)];
      Stretch(interval, spec, st, es) && Counted(interval, spec, st, es).triggered == 2
  {
    HarmDuplicates(interval, spec, st, Reconcile(Accepting(), false));
  }

  /** So does a failed completion check of a restart that is recorded as running. */
  lemma FailedCheckDuplicates(interval: int, spec: Spec, st: Status)
    requires interval != 0 && CanTrigger(spec, st)
    ensures
      var check := Reconcile(Accepting().(restartComplete := Err(Failure)), true);
      var es := [Reconcile(Accepting(), true), check, Reconcile(Accepting(), true)];
      Stretch(interval, spec, st, es) && Counted(interval, spec, st, es).triggered == 2
  {
    var check := Reconcile(Accepting().(restartComplete := Err(Failure)), true);
    var go := Reconcile(Accepting(), true);
    var es := [go, check, go];
    var st1 := StatusAfter(interval, spec, st, go);
    HarmDuplicates(interval, spec, st1, check);
    assert es[1..] == [check, go];
  }
}
