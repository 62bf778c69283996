/** Power and restart control of Metal3 hosts (internal/management/metal3.go). */
module Metal3Management {
  import opened Wrappers
  import opened GoStrings
  import opened HostIds

  datatype PowerState = PowerOn | PowerOff

  datatype PowerStatus = PowerStatus(state: PowerState, transitioning: bool)

  /** ErrTransitioning, or any other failure. */
  datatype Error = Transitioning | Failure

  /** spec.online, status.poweredOn and the presence of the reboot annotation. */
  datatype Host = Host(online: bool, poweredOn: bool, reboot: bool)

  function StatusOf(h: Host): PowerStatus {
    PowerStatus(if h.poweredOn then PowerOn else PowerOff, h.online != h.poweredOn)
  }

  /** At rest in the state that is not `target`. */
  function Opposite(target: PowerState): PowerStatus {
    PowerStatus(if target.PowerOn? then PowerOff else PowerOn, false)
  }

  class Metal3Client {
    const namespace: string
    var hosts: map<(string, string), Host>

    constructor (namespace: string, hosts: map<(string, string), Host>)
      ensures this.namespace == namespace && this.hosts == hosts
    {
      this.namespace := namespace;
      this.hosts := hosts;
    }

    /** `id` is the ID of the host `name` of the configured namespace. */
    predicate Addresses(id: string, name: string)
      reads this
    {
      && id == namespace + "/" + name && namespace != "" && SlashFree(namespace) && name != ""
      && (namespace, name) in hosts
    }

    /** The key under which a host ID is looked up: that of the host of the configured namespace that it names. */
    function Key(id: string): (r: Option<(string, string)>)
      reads this
      ensures forall name :: r == Some((namespace, name)) <==>
        && namespace != "" && '/' !in namespace && name != "" && id == namespace + "/" + name
        && (namespace, name) in hosts
      ensures r.Some? ==> r.value.0 == namespace
    {
      ParsedIsPrinted(id);
      forall name ensures id == namespace + "/" + name ==>
        (ParseHostID(id) == Some((namespace, name)) <==> namespace != "" && SlashFree(namespace) && name != "")
      {
        PrintedIsParsed(namespace, name);
      }
      match ParseHostID(id)
      case None => None
      case Some(key) => if key.0 == namespace && key in hosts then Some(key) else None
    }

    method GetPowerState(id: string) returns (r: Result<PowerStatus, Error>)
      ensures r == match Key(id) case None => Err(Failure) case Some(key) => Ok(StatusOf(hosts[key]))
      ensures forall name :: Addresses(id, name) ==>
        var h := hosts[(namespace, name)];
        r == Ok(PowerStatus(if h.poweredOn then PowerOn else PowerOff, h.online != h.poweredOn))
    {
      var key := Key(id);
      if key.None? { return Err(Failure); }
      var h := hosts[key.value];
      var state := PowerOff;
      if h.poweredOn { state := PowerOn; }
      r := Ok(PowerStatus(state, h.online != h.poweredOn));
    }

    /** Writes spec.online only on a stable host that is not yet where it should be. */
    method SetPowerState(id: string, target: PowerState, patch: Outcome) returns (r: Result<(), Error>)
      modifies this
      ensures hosts.Keys == old(hosts.Keys)
      ensures forall key :: key in hosts && hosts[key] != old(hosts)[key] ==>
        && Key(id) == Some(key) && !patch.Rejected? && r == (if patch.Applied? then Ok(()) else Err(Failure))
        && StatusOf(old(hosts)[key]) == Opposite(target)
        && hosts[key] == old(hosts)[key].(online := target.PowerOn?)
      ensures Key(id).Some? && !patch.Rejected? && StatusOf(old(hosts)[Key(id).value]) == Opposite(target) ==>
        hosts[Key(id).value].online == target.PowerOn?
      ensures r.Ok? ==> Key(id).Some? && hosts[Key(id).value].online == target.PowerOn?
      ensures r == Err(Transitioning) <==> Key(id).Some? && StatusOf(old(hosts)[Key(id).value]).transitioning
      ensures r == Err(Failure) <==>
        || Key(id).None?
        || (!patch.Applied? && StatusOf(old(hosts)[Key(id).value]) == Opposite(target))
      ensures forall name :: old(Addresses(id, name)) ==>
        var key := (namespace, name);
        var h, want := old(hosts)[key], target.PowerOn?;
        && r == (if h.online != h.poweredOn then Err(Transitioning)
                 else if h.online == want || patch.Applied? then Ok(())
                 else Err(Failure))
        && hosts == if h.online == h.poweredOn && h.online != want && !patch.Rejected?
                    then old(hosts)[key := h.(online := want)] else old(hosts)
    {
      var key := Key(id);
      if key.None? { return Err(Failure); }
      var h := hosts[key.value];
      if h.online != h.poweredOn { return Err(Transitioning); }
      var desiredOnline := target == PowerOn;
      if h.online == desiredOnline { return Ok(()); }
      if patch != Rejected {
        hosts := hosts[key.value := h.(online := desiredOnline)];
      }
      r := if patch == Applied then Ok(()) else Err(Failure);
    }

    /** Asks for a reboot unless one is pending. */
    method TriggerRestart(id: string, patch: Outcome) returns (r: Result<(), Error>)
      modifies this
      ensures hosts.Keys == old(hosts.Keys)
      ensures forall key :: key in hosts && hosts[key] != old(hosts)[key] ==>
        Key(id) == Some(key) && !patch.Rejected? && hosts[key] == old(hosts)[key].(reboot := true)
      ensures Key(id).Some? && !patch.Rejected? ==> hosts[Key(id).value].reboot
      ensures r.Ok? <==> Key(id).Some? && patch.Applied? && !old(hosts)[Key(id).value].reboot
      ensures r == Err(Transitioning) <==> Key(id).Some? && old(hosts)[Key(id).value].reboot
      ensures forall name :: old(Addresses(id, name)) ==>
        var key := (namespace, name);
        var h := old(hosts)[key];
        && r == (if h.reboot then Err(Transitioning) else if patch.Applied? then Ok(()) else Err(Failure))
        && hosts == if h.reboot || patch.Rejected? then old(hosts) else old(hosts)[key := h.(reboot := true)]
    {
      var key := Key(id);
      if key.None? { return Err(Failure); }
      var h := hosts[key.value];
      if h.reboot { return Err(Transitioning); }
      if patch != Rejected {
        hosts := hosts[key.value := h.(reboot := true)];
      }
      r := if patch == Applied then Ok(()) else Err(Failure);
    }

    method IsRestartComplete(id: string) returns (r: Result<bool, Error>)
      ensures r == match Key(id) case None => Err(Failure) case Some(key) => Ok(!hosts[key].reboot)
      ensures forall name :: Addresses(id, name) ==> r == Ok(!hosts[(namespace, name)].reboot)
    {
      var key := Key(id);
      if key.None? { return Err(Failure); }
      r := Ok(!hosts[key.value].reboot);
    }

    /** A restart that landed, acknowledged or not, is not complete, and cannot be triggered a second time meanwhile. */
    method RestartTwice(id: string, patch: Outcome, again: Outcome)
      returns (first: Result<(), Error>, done: Result<bool, Error>, second: Result<(), Error>)
      modifies this
      ensures Key(id).Some? && !patch.Rejected? ==> done == Ok(false) && second == Err(Transitioning)
      ensures first.Ok? ==> done == Ok(false) && second == Err(Transitioning)
    {
      first := TriggerRestart(id, patch);
      done := IsRestartComplete(id);
      second := TriggerRestart(id, again);
    }
  }
}
