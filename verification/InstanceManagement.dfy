/**
 The management half of the instance controller: provisioning outcome, restart trigger, power
 strategy and the status that results (internal/controller/baremetalinstance_controller.go).
 Every backend call and the provisioning lifecycle may answer anything.
 */
module InstanceManagement {
  import opened Wrappers
  import opened Metal3Management

  // ---------------------------------------------------------------- data

  datatype RunStrategy = Unspecified | Always | Halted

  datatype Phase = NoPhase | Allocating | Progressing | Ready | Failed | Deleting

  datatype Truth = True | False | Unknown

  datatype Reason =
    | ReasonCompleted | ReasonProgressing | ReasonPowerSyncFailed | ReasonIronicAPIFailure
    | ReasonPowerOn | ReasonPowerOff | ReasonTemplateFailed | ReasonSucceeded

  datatype Condition = Condition(status: Truth, reason: Reason)

  datatype Spec = Spec(realTemplate: bool, runStrategy: RunStrategy, restartTrigger: int)

  datatype Status = Status(
    phase: Phase,
    powerSynced: Option<Condition>,
    provisioned: Option<Condition>,
    runStrategy: RunStrategy,
    restartTrigger: int)

  /** ctrl.Result: `after` is RequeueAfter. */
  datatype Requeue = Requeue(requeue: bool, after: int) {
    predicate IsZero() {
      !requeue && after == 0
    }
  }

  const DONE := Requeue(false, 0)

  function Later(interval: int): Requeue {
    Requeue(false, interval)
  }

  /** What RunProvisioningLifecycle does, as far as the controller sees it. */
  datatype Lifecycle = Lifecycle(callback: Callback, result: Requeue, err: bool)

  datatype Callback = NoCall | OnFailed | OnSuccess

  /** TriggerRestart is refused as a conflict, or sends its patch. */
  datatype Trigger = Refused | Sent(out: Outcome) {
    function Answer(): Result<(), Error> {
      match this
      case Refused => Err(Transitioning)
      case Sent(o) => if o.Applied? then Ok(()) else Err(Failure)
    }

    /** The host is going to restart, whatever was answered. */
    predicate Landed() {
      Sent? && !out.Rejected?
    }
  }

  /** The answers of one reconcile's backend calls, used where the call is made. */
  datatype Replies = Replies(
    lifecycle: Lifecycle,
    restartComplete: Result<bool, Error>,
    trigger: Trigger,
    first: Result<Option<PowerStatus>, Error>,
    setPower: Result<(), Error>,
    refreshed: Result<Option<PowerStatus>, Error>)

  /** One call of a reconcile, with its answer. */
  datatype Call =
    | Provision(lifecycle: Lifecycle)
    | CheckRestart(done: Result<bool, Error>)
    | TriggerRestart(sent: Trigger)
    | ReadPower(reading: Result<Option<PowerStatus>, Error>)
    | SetPower(answer: Result<(), Error>)

  /** The call failed; a conflict is not a failure, a missing power status is one. */
  predicate Breaks(c: Call) {
    match c
    case Provision(l) => l.err
    case CheckRestart(a) => a.Err?
    case TriggerRestart(t) => t.Answer() == Err(Failure)
    case ReadPower(a) => a.Err? || a.value.None?
    case SetPower(a) => a == Err(Failure)
  }

  function Failures(calls: seq<Call>): nat {
    if calls == [] then 0 else Failures(calls[..|calls| - 1]) + if Breaks(calls[|calls| - 1]) then 1 else 0
  }

  /** Outcome of a handler; `triggered` tells whether TriggerRestart succeeded in it. */
  datatype Pass = Pass(status: Status, result: Requeue, err: bool, triggered: bool)

  // ---------------------------------------------------------------- what one reconcile does

  predicate InProgress(st: Status) {
    st.powerSynced == Some(Condition(False, ReasonProgressing))
  }

  function Synced(st: Status, status: Truth, reason: Reason): Status {
    st.(powerSynced := Some(Condition(status, reason)))
  }

  function RestartPass(interval: int, spec: Spec, st: Status, r: Replies): Pass {
    var finished := Synced(st.(restartTrigger := spec.restartTrigger), True, ReasonCompleted);
    if spec.restartTrigger == st.restartTrigger then
      Pass(Synced(st, True, ReasonCompleted), DONE, false, false)
    else if spec.runStrategy.Halted? then
      Pass(finished, DONE, false, false)
    else if InProgress(st) then
      match r.restartComplete
      case Err(_) => Pass(Synced(st, False, ReasonPowerSyncFailed), DONE, true, false)
      case Ok(true) => Pass(finished, DONE, false, false)
      case Ok(false) => Pass(st, Later(interval), false, false)
    else
      match r.trigger.Answer()
      case Err(Transitioning) =>
        if interval == 0 then Pass(finished, DONE, false, false)
        else Pass(Synced(st, False, ReasonPowerSyncFailed), Later(interval), false, false)
      case Err(Failure) => Pass(Synced(st, False, ReasonPowerSyncFailed), DONE, true, false)
      case Ok(_) =>
        if interval == 0 then Pass(finished, DONE, false, true)
        else Pass(Synced(st, False, ReasonProgressing), Later(interval), false, true)
  }

  /** The status provisioning leaves behind when it reports no error. */
  function Provisioned(st: Status, l: Lifecycle): Status {
    var st1 := match l.callback
      case NoCall => st
      case OnFailed => st.(phase := Failed, provisioned := Some(Condition(False, ReasonTemplateFailed)))
      case OnSuccess => st.(provisioned := Some(Condition(True, ReasonSucceeded)));
    if !l.err && l.result.after > 0 && (st1.provisioned.None? || st1.provisioned.value.reason != ReasonTemplateFailed)
    then st1.(provisioned := Some(Condition(False, ReasonProgressing)))
    else st1
  }

  function ObservedStrategy(ps: PowerStatus): RunStrategy {
    if ps.state.PowerOn? then Always else Halted
  }

  /** syncBareMetalInstanceStatus. */
  function SyncedStatus(spec: Spec, st: Status, ps: Option<PowerStatus>, err: bool): Status {
    if err then Synced(st.(phase := Failed), False, ReasonIronicAPIFailure)
    else if ps.None? then st
    else
      var st1 := st.(runStrategy := ObservedStrategy(ps.value));
      if ps.value.transitioning then Synced(st1, False, ReasonProgressing)
      else if !spec.runStrategy.Unspecified? && spec.runStrategy != st1.runStrategy
      then Synced(st1, False, ReasonProgressing)
      else Synced(st1, True, if ps.value.state.PowerOn? then ReasonPowerOn else ReasonPowerOff)
  }

  /** reconcilePower's decision: the state to request, if any. */
  function PowerTarget(strategy: RunStrategy, ps: PowerStatus): Option<PowerState> {
    var desiredOn := strategy.Always?;
    if ps.transitioning || desiredOn == ps.state.PowerOn? then None
    else Some(if desiredOn then PowerOn else PowerOff)
  }

  predicate PowerMatches(strategy: RunStrategy, ps: PowerStatus) {
    strategy.Unspecified? || (!ps.transitioning && strategy.Always? == ps.state.PowerOn?)
  }

  function PowerPass(interval: int, spec: Spec, st: Status, r: Replies): Pass {
    var broken := Pass(SyncedStatus(spec, st, None, true), DONE, true, false);
    match r.first
    case Err(_) => broken
    case Ok(None) => broken
    case Ok(Some(ps)) =>
      if spec.runStrategy.Unspecified? then
        Pass(SyncedStatus(spec, st, Some(ps), false).(phase := Ready), DONE, false, false)
      else if PowerTarget(spec.runStrategy, ps).Some? && r.setPower == Err(Failure) then broken
      else
        match r.refreshed
        case Err(_) => broken
        case Ok(None) => broken
        case Ok(Some(now)) =>
          var st1 := SyncedStatus(spec, st, Some(now), false);
          if PowerMatches(spec.runStrategy, now) then Pass(st1.(phase := Ready), DONE, false, false)
          else Pass(st1.(phase := Progressing), Later(interval), false, false)
  }

  /** reconcileManagement once the management finalizer is there. */
  function ManagementPass(interval: int, spec: Spec, st: Status, r: Replies): Pass {
    var l := r.lifecycle;
    var st1 := if spec.realTemplate then Provisioned(st, l) else st;
    if spec.realTemplate && l.err then Pass(st1.(phase := Failed), l.result, true, false)
    else if spec.realTemplate && !l.result.IsZero() then Pass(st1.(phase := Progressing), l.result, false, false)
    else if spec.realTemplate && st1.provisioned.Some? && !st1.provisioned.value.status.True? then
      Pass(st1.(phase := Failed), DONE, false, false)
    else
      var p := RestartPass(interval, spec, st1, r);
      if p.err then p.(status := p.status.(phase := Failed))
      else if !p.result.IsZero() then p.(status := p.status.(phase := Progressing))
      else PowerPass(interval, spec, p.status, r).(triggered := p.triggered)
  }

  // ---------------------------------------------------------------- the calls it makes

  /** The template has run to success, or was never needed. */
  predicate ProvisioningOver(spec: Spec, st: Status, l: Lifecycle) {
    spec.realTemplate ==>
      && !l.err && l.result.IsZero()
      && match l.callback
         case OnFailed => false
         case OnSuccess => true
         case NoCall => st.provisioned.None? || st.provisioned.value.status.True?
  }

  /** A changed restart trigger that concerns a host which is not to be off. */
  predicate RestartDue(spec: Spec, st: Status) {
    spec.restartTrigger != st.restartTrigger && !spec.runStrategy.Halted?
  }

  function RestartCalls(spec: Spec, st: Status, r: Replies): seq<Call> {
    if !RestartDue(spec, st) then []
    else if InProgress(st) then [CheckRestart(r.restartComplete)]
    else [Call.TriggerRestart(r.trigger)]
  }

  /** The restart leaves the way free for the power part. */
  predicate RestartSettled(interval: int, spec: Spec, st: Status, r: Replies) {
    || !RestartDue(spec, st)
    || (if InProgress(st) then r.restartComplete.Ok? && (r.restartComplete.value || interval == 0)
        else interval == 0 && r.trigger.Answer() != Err(Failure))
  }

  function PowerCalls(spec: Spec, r: Replies): seq<Call> {
    var read := ReadPower(r.first);
    if Breaks(read) || spec.runStrategy.Unspecified? then [read]
    else if PowerTarget(spec.runStrategy, r.first.value.value).None? then [read, ReadPower(r.refreshed)]
    else if Breaks(SetPower(r.setPower)) then [read, SetPower(r.setPower)]
    else [read, SetPower(r.setPower), ReadPower(r.refreshed)]
  }

  /** All calls of a reconcileManagement that has its finalizer, in their order. */
  function ManagementCalls(interval: int, spec: Spec, st: Status, r: Replies): seq<Call> {
    (if spec.realTemplate then [Provision(r.lifecycle)] else [])
    + (if !ProvisioningOver(spec, st, r.lifecycle) then []
       else RestartCalls(spec, st, r) + if RestartSettled(interval, spec, st, r) then PowerCalls(spec, r) else [])
  }

  // ---------------------------------------------------------------- the controller's own form

  /** A BareMetalInstance as its reconcile holds it: the spec as read, the status updated in place. */
  class ManagedInstance {
    const spec: Spec
    var status: Status
    ghost var triggered: bool
    ghost var calls: seq<Call>

    constructor (spec: Spec, status: Status)
      ensures this.spec == spec && this.status == status && !triggered && calls == []
    {
      this.spec := spec;
      this.status := status;
      this.triggered := false;
      this.calls := [];
    }

    method SetPowerSynced(truth: Truth, reason: Reason)
      modifies this`status
      ensures status == Synced(old(status), truth, reason)
    {
      status := status.(powerSynced := Some(Condition(truth, reason)));
    }

    method SyncStatus(ps: Option<PowerStatus>, err: bool)
      modifies this`status
      ensures status == SyncedStatus(spec, old(status), ps, err)
    {
      if err {
        status := status.(phase := Failed);
        SetPowerSynced(False, ReasonIronicAPIFailure);
        return;
      }
      if ps.None? { return; }
      var poweredOn := ps.value.state == PowerOn;
      if poweredOn {
        status := status.(runStrategy := Always);
      } else {
        status := status.(runStrategy := Halted);
      }
      if ps.value.transitioning {
        SetPowerSynced(False, ReasonProgressing);
        return;
      }
      if spec.runStrategy != Unspecified && spec.runStrategy != status.runStrategy {
        SetPowerSynced(False, ReasonProgressing);
      } else if poweredOn {
        SetPowerSynced(True, ReasonPowerOn);
      } else {
        SetPowerSynced(True, ReasonPowerOff);
      }
    }

    method TriggerRestart(interval: int, r: Replies) returns (result: Requeue, err: bool)
      modifies this
      ensures calls == old(calls) + [Call.TriggerRestart(r.trigger)]
      ensures triggered == (old(triggered) || r.trigger.Answer().Ok?)
      ensures err == (r.trigger.Answer() == Err(Failure))
      ensures result == if err then DONE else Later(interval)
      ensures status == match r.trigger.Answer()
        case Err(Failure) => old(status)
        case Err(Transitioning) => Synced(old(status), False, ReasonPowerSyncFailed)
        case Ok(_) => Synced(old(status), False, ReasonProgressing)
    {
      var answer := r.trigger.Answer();
      calls := calls + [Call.TriggerRestart(r.trigger)];
      if answer.Err? {
        if answer.error == Transitioning {
          SetPowerSynced(False, ReasonPowerSyncFailed);
          return Later(interval), false;
        }
        return DONE, true;
      }
      triggered := true;
      SetPowerSynced(False, ReasonProgressing);
      result, err := Later(interval), false;
    }

    method ReconcileRestartTrigger(interval: int, r: Replies) returns (result: Requeue, err: bool)
      requires !triggered
      modifies this
      ensures Pass(status, result, err, triggered) == RestartPass(interval, spec, old(status), r)
      ensures calls == old(calls) + RestartCalls(spec, old(status), r)
    {
      if spec.restartTrigger == status.restartTrigger {
        SetPowerSynced(True, ReasonCompleted);
        return DONE, false;
      }
      if spec.runStrategy == Halted {
        status := status.(restartTrigger := spec.restartTrigger);
        SetPowerSynced(True, ReasonCompleted);
        return DONE, false;
      }
      var cond := status.powerSynced;
      if cond.Some? && cond.value.status == False && cond.value.reason == ReasonProgressing {
        calls := calls + [CheckRestart(r.restartComplete)];
        if r.restartComplete.Err? {
          SetPowerSynced(False, ReasonPowerSyncFailed);
          return DONE, true;
        } else if !r.restartComplete.value {
          return Later(interval), false;
        }
      } else {
        result, err := TriggerRestart(interval, r);
        if err {
          SetPowerSynced(False, ReasonPowerSyncFailed);
          return;
        }
        if !result.IsZero() {
          return;
        }
      }
      status := status.(restartTrigger := spec.restartTrigger);
      SetPowerSynced(True, ReasonCompleted);
      result, err := DONE, false;
    }

    method ReconcileProvisioning(l: Lifecycle) returns (result: Requeue, err: bool)
      modifies this`status, this`calls
      ensures calls == old(calls) + [Provision(l)]
      ensures result == l.result && err == l.err && status == Provisioned(old(status), l)
      ensures status == old(status).(
        phase := if l.callback.OnFailed? then Failed else old(status).phase, provisioned := status.provisioned)
    {
      calls := calls + [Provision(l)];
      if l.callback == OnFailed {
        status := status.(phase := Failed, provisioned := Some(Condition(False, ReasonTemplateFailed)));
      } else if l.callback == OnSuccess {
        status := status.(provisioned := Some(Condition(True, ReasonSucceeded)));
      }
      result, err := l.result, l.err;
      if err { return; }
      var cond := status.provisioned;
      if result.after > 0 && (cond.None? || cond.value.reason != ReasonTemplateFailed) {
        status := status.(provisioned := Some(Condition(False, ReasonProgressing)));
      }
    }

    method ReconcilePower(ps: PowerStatus, r: Replies) returns (err: bool)
      modifies this`calls
      ensures calls == old(calls) + if PowerTarget(spec.runStrategy, ps).Some? then [SetPower(r.setPower)] else []
      ensures err == (PowerTarget(spec.runStrategy, ps).Some? && r.setPower == Err(Failure))
    {
      var currentlyOn := ps.state == PowerOn;
      var desiredOn := spec.runStrategy == Always;
      if ps.transitioning { return false; }
      if desiredOn == currentlyOn { return false; }
      calls := calls + [SetPower(r.setPower)];
      if r.setPower.Err? {
        if r.setPower.error == Transitioning { return false; }
        return true;
      }
      err := false;
    }

    /** A power reading: None if the call failed or gave no status, which leaves the instance Failed. */
    method GetPowerState(reading: Result<Option<PowerStatus>, Error>) returns (ps: Option<PowerStatus>)
      modifies this`status, this`calls
      ensures calls == old(calls) + [ReadPower(reading)]
      ensures ps == if reading.Ok? then reading.value else None
      ensures status == if ps.None? then SyncedStatus(spec, old(status), None, true) else old(status)
    {
      calls := calls + [ReadPower(reading)];
      if reading.Err? || reading.value.None? {
        SyncStatus(None, true);
        return None;
      }
      ps := reading.value;
    }

    /** reconcileManagement below the restart. */
    method ReconcilePowerState(interval: int, r: Replies) returns (result: Requeue, err: bool)
      modifies this`status, this`calls
      ensures Pass(status, result, err, false) == PowerPass(interval, spec, old(status), r)
      ensures calls == old(calls) + PowerCalls(spec, r)
    {
      var reading := GetPowerState(r.first);
      if reading.None? { return DONE, true; }
      var ps := reading.value;
      if spec.runStrategy != Unspecified {
        err := ReconcilePower(ps, r);
        if err {
          SyncStatus(None, true);
          return DONE, true;
        }
        reading := GetPowerState(r.refreshed);
        if reading.None? { return DONE, true; }
        ps := reading.value;
      }
      SyncStatus(Some(ps), false);
      if spec.runStrategy != Unspecified {
        var desiredOn := spec.runStrategy == Always;
        if ps.transitioning || desiredOn != (ps.state == PowerOn) {
          status := status.(phase := Progressing);
          return Later(interval), false;
        }
      }
      status := status.(phase := Ready);
      result, err := DONE, false;
    }

    method ReconcileManagement(interval: int, r: Replies) returns (result: Requeue, err: bool)
      requires !triggered
      modifies this
      ensures Pass(status, result, err, triggered) == ManagementPass(interval, spec, old(status), r)
      ensures calls == old(calls) + ManagementCalls(interval, spec, old(status), r)
    {
      if spec.realTemplate {
        result, err := ReconcileProvisioning(r.lifecycle);
        if err {
          status := status.(phase := Failed);
          return;
        }
        if !result.IsZero() {
          status := status.(phase := Progressing);
          return;
        }
        if status.provisioned.Some? && status.provisioned.value.status != True {
          status := status.(phase := Failed);
          return DONE, false;
        }
      }
      result, err := ReconcileRestartTrigger(interval, r);
      if err || !result.IsZero() {
        status := status.(phase := if err then Failed else Progressing);
        return;
      }
      result, err := ReconcilePowerState(interval, r);
    }
  }
}
