/**
 Assigning and releasing a host through the clients, with any number of attempts and any failures:
 once one attempt of each kind is acknowledged last, the host's labels have the closed form of
 InventoryLabels and the owner mark is gone.
 */
module InventoryRetries {
  import opened Wrappers
  import opened GoStrings
  import opened JsonPatch
  import opened JsonPointer
  import opened PrefixedLabels
  import opened InventoryLabels
  import OS = OpenStackInventory
  import M3 = Metal3Inventory
  import H = HostIds

  // ---------------------------------------------------------------- OpenStack

  /** One AssignHost on OpenStack: whether the read succeeds, and the fates of its two patches. */
  datatype Attempt = Attempt(read: bool, init: Outcome, update: Outcome) {
    predicate Succeeds() {
      read && init.Applied? && update.Applied?
    }
  }

  /** Any other call: whether the read succeeds, and the fate of the write. */
  datatype Try = Try(read: bool, write: Outcome) {
    predicate Succeeds() {
      read && write.Applied?
    }
  }

  /** The labels an OpenStack node starts with; it may have none yet. */
  function InitialLabels(n: OS.Node): OS.LabelMap {
    if LABELS in n.extra && n.extra[LABELS].Obj? then n.extra[LABELS].fields else map[]
  }

  function Relabelled(n: OS.Node, m: OS.LabelMap): OS.Node {
    n.(extra := WithLabels(n.extra, m))
  }

  function Marked(n: OS.Node, bmi: string, ls: LabelSpec): OS.Node {
    Relabelled(n, OS.Assigned(InitialLabels(n), bmi, Combined(ls)))
  }

  function Released(n: OS.Node, ls: LabelSpec): OS.Node {
    Relabelled(n, (InitialLabels(n) + OS.StrMap(ls.persistent)) - ({OS.OWNER} + RemovedKeys(ls)))
  }

  lemma ReleasedMeans(n: OS.Node, ls: LabelSpec)
    ensures
      var m, end := InitialLabels(n), InitialLabels(Released(n, ls));
      forall k ::
        && (k in end <==>
              && k != OS.OWNER && k !in ls.inventory && !(ls.pool.Some? && k == OS.POOL)
              && (k in ls.persistent || k in m))
        && (k in end ==> end[k] == if k in ls.persistent then Str(ls.persistent[k]) else m[k])
  {
  }

  /** The node can be claimed by `bmi`. */
  predicate Claimable(n: OS.Node, bmi: string) {
    (LABELS in n.extra ==> n.extra[LABELS].Obj?) && !OS.TakenFrom(n.extra, bmi)
  }

  /** What the node can look like between two attempts to assign it. */
  predicate Assigning(before: OS.Node, now: OS.Node, bmi: string, ls: LabelSpec) {
    now == before || now == Relabelled(before, InitialLabels(before)) || now == Marked(before, bmi, ls)
  }

  lemma RelabelTwice(n: OS.Node, m: OS.LabelMap, m': OS.LabelMap)
    ensures Relabelled(Relabelled(n, m), m') == Relabelled(n, m') && InitialLabels(Relabelled(n, m)) == m
  {
    assert n.extra[LABELS := Obj(m)][LABELS := Obj(m')] == n.extra[LABELS := Obj(m')];
  }

  /** Another attempt finds a claimable node and leads to the same marked one. */
  lemma AssignAgain(before: OS.Node, now: OS.Node, bmi: string, ls: LabelSpec)
    requires Claimable(before, bmi) && Assigning(before, now, bmi, ls) && OS.OWNER !in Combined(ls)
    ensures Claimable(now, bmi) && Marked(now, bmi, ls) == Marked(before, bmi, ls)
  {
    var m := InitialLabels(before);
    var labels := Combined(ls);
    RelabelTwice(before, m, OS.Assigned(m, bmi, labels));
    RelabelTwice(before, OS.Assigned(m, bmi, labels), OS.Assigned(OS.Assigned(m, bmi, labels), bmi, labels));
    AssignTwice(m, bmi, labels);
    OS.OwnerRecorded(m, bmi, labels);
  }

  lemma ReleaseAgain(before: OS.Node, now: OS.Node, after: OS.Node, bmi: string, ls: LabelSpec, names: seq<string>)
    requires now == Marked(before, bmi, ls) || now == Released(before, ls)
    requires after == Relabelled(now, InitialLabels(now) - ({OS.OWNER} + Elements(names)))
    requires Elements(names) == RemovedKeys(ls)
    ensures after == Released(before, ls)
  {
    var m := InitialLabels(before);
    var gone := {OS.OWNER} + RemovedKeys(ls);
    RelabelTwice(before, OS.Assigned(m, bmi, Combined(ls)), InitialLabels(now) - gone);
    RelabelTwice(before, (m + OS.StrMap(ls.persistent)) - gone, InitialLabels(now) - gone);
    AssignThenUnassign(m, ls, bmi);
    SubtractTwice(m + OS.StrMap(ls.persistent), gone);
  }

  /** Repeated AssignHost with the instance's labels. */
  method AssignOpenStack(c: OS.OpenStackClient, id: string, bmi: string, ls: LabelSpec, tries: seq<Attempt>)
    returns (ok: bool)
    requires id != "" && bmi != "" && id in c.nodes && Claimable(c.nodes[id], bmi) && OS.OWNER !in Combined(ls)
    modifies c
    ensures id in c.nodes && Assigning(old(c.nodes)[id], c.nodes[id], bmi, ls)
    ensures ok ==> c.nodes[id] == Marked(old(c.nodes)[id], bmi, ls)
    ensures tries != [] && tries[|tries| - 1].Succeeds() ==> ok
  {
    var labels := BuildLabels(ls);
    ghost var before := c.nodes[id];
    ok := false;
    for i := 0 to |tries|
      invariant id in c.nodes && Assigning(before, c.nodes[id], bmi, ls)
      invariant ok ==> c.nodes[id] == Marked(before, bmi, ls)
      invariant i > 0 && tries[i - 1].Succeeds() ==> ok
    {
      AssignAgain(before, c.nodes[id], bmi, ls);
      var r := c.AssignHost(id, bmi, labels, !tries[i].read, tries[i].init, tries[i].update);
      ok := r.Host?;
    }
  }

  method ReleaseOpenStack(c: OS.OpenStackClient, id: string, ghost bmi: string, ls: LabelSpec,
                          ghost before: OS.Node, tries: seq<Try>)
    returns (ok: bool)
    requires id in c.nodes && c.nodes[id] == Marked(before, bmi, ls)
    modifies c
    ensures ok ==> id in c.nodes && c.nodes[id] == Released(before, ls)
    ensures tries != [] && tries[|tries| - 1].Succeeds() ==> ok
  {
    var names := CollectLabels(ls);
    ok := false;
    for i := 0 to |tries|
      invariant id in c.nodes && (c.nodes[id] == Marked(before, bmi, ls) || c.nodes[id] == Released(before, ls))
      invariant ok ==> c.nodes[id] == Released(before, ls)
      invariant i > 0 && tries[i - 1].Succeeds() ==> ok
    {
      ghost var now := c.nodes[id];
      ok := c.UnassignHost(id, names, !tries[i].read, tries[i].write);
      if c.nodes[id] != now || ok {
        ReleaseAgain(before, now, c.nodes[id], bmi, ls, names);
      }
    }
  }

  /** The whole life of a claim on an OpenStack node. */
  method LifeOnOpenStack(c: OS.OpenStackClient, id: string, bmi: string, ls: LabelSpec,
                         assigns: seq<Attempt>, releases: seq<Try>)
    returns (ok: bool)
    requires id != "" && bmi != "" && id in c.nodes && Claimable(c.nodes[id], bmi) && OS.OWNER !in Combined(ls)
    modifies c
    ensures ok ==>
      && id in c.nodes && c.nodes[id] == Released(old(c.nodes)[id], ls)
      && OS.NestedLabel(c.nodes[id].extra, OS.OWNER).None?
    ensures ok ==>
      var m, end := InitialLabels(old(c.nodes)[id]), InitialLabels(c.nodes[id]);
      forall k ::
        && (k in end <==>
              && k != OS.OWNER && k !in ls.inventory && !(ls.pool.Some? && k == OS.POOL)
              && (k in ls.persistent || k in m))
        && (k in end ==> end[k] == if k in ls.persistent then Str(ls.persistent[k]) else m[k])
    ensures assigns != [] && assigns[|assigns| - 1].Succeeds() ==>
      releases != [] && releases[|releases| - 1].Succeeds() ==> ok
  {
    ghost var before := c.nodes[id];
    ok := AssignOpenStack(c, id, bmi, ls, assigns);
    if ok {
      ok := ReleaseOpenStack(c, id, bmi, ls, before, releases);
      ReleasedMeans(before, ls);
    }
  }

  // ---------------------------------------------------------------- Metal3

  function MarkedHost(h: M3.Host, bmi: string, ls: LabelSpec): M3.Host {
    h.(labels := Labelled(M3.PREFIX, h.labels, Combined(ls)), consumer := Some(bmi))
  }

  function ReleasedHost(h: M3.Host, ls: LabelSpec): M3.Host {
    h.(labels := Unlabelled(M3.PREFIX, Labelled(M3.PREFIX, h.labels, ls.persistent), RemovedKeys(ls)), consumer := None)
  }

  predicate ClaimableHost(h: M3.Host, bmi: string) {
    h.consumer.None? || h.consumer.value == bmi
  }

  lemma ReleaseHostAgain(before: M3.Host, now: M3.Host, bmi: string, ls: LabelSpec)
    requires now == MarkedHost(before, bmi, ls) || now == ReleasedHost(before, ls)
    ensures now.(labels := Unlabelled(M3.PREFIX, now.labels, RemovedKeys(ls)), consumer := None)
      == ReleasedHost(before, ls)
  {
    OnlyPersistentStays(ls);
    LabelledThenUnlabelled(M3.PREFIX, before.labels, Combined(ls), ls.persistent, RemovedKeys(ls));
    UnlabelTwice(M3.PREFIX, Labelled(M3.PREFIX, before.labels, ls.persistent), RemovedKeys(ls));
  }

  method AssignMetal3(c: M3.Metal3Client, id: string, bmi: string, ls: LabelSpec, tries: seq<Try>)
    returns (ok: bool)
    requires bmi != "" && H.ParseHostID(id).Some? && H.ParseHostID(id).value in c.hosts
    requires ClaimableHost(c.hosts[H.ParseHostID(id).value], bmi)
    modifies c
    ensures c.hosts.Keys == old(c.hosts.Keys)
    ensures ok ==> c.hosts[H.ParseHostID(id).value] == MarkedHost(old(c.hosts)[H.ParseHostID(id).value], bmi, ls)
    ensures tries != [] && tries[|tries| - 1].Succeeds() ==> ok
  {
    var labels := BuildLabels(ls);
    ghost var key := H.ParseHostID(id).value;
    ghost var before := c.hosts[key];
    LabelTwice(M3.PREFIX, before.labels, labels);
    ok := false;
    for i := 0 to |tries|
      invariant c.hosts.Keys == old(c.hosts.Keys)
      invariant c.hosts[key] == before || c.hosts[key] == MarkedHost(before, bmi, ls)
      invariant ok ==> c.hosts[key] == MarkedHost(before, bmi, ls)
      invariant i > 0 && tries[i - 1].Succeeds() ==> ok
    {
      var r := c.AssignHost(id, bmi, labels, !tries[i].read, tries[i].write);
      ok := r.Found?;
    }
  }

  method ReleaseMetal3(c: M3.Metal3Client, id: string, ghost bmi: string, ls: LabelSpec,
                       ghost before: M3.Host, tries: seq<Try>)
    returns (ok: bool)
    requires H.ParseHostID(id).Some? && H.ParseHostID(id).value in c.hosts
    requires c.hosts[H.ParseHostID(id).value] == MarkedHost(before, bmi, ls)
    modifies c
    ensures c.hosts.Keys == old(c.hosts.Keys)
    ensures ok ==> c.hosts[H.ParseHostID(id).value] == ReleasedHost(before, ls)
    ensures tries != [] && tries[|tries| - 1].Succeeds() ==> ok
  {
    var names := CollectLabels(ls);
    ghost var key := H.ParseHostID(id).value;
    ok := false;
    for i := 0 to |tries|
      invariant c.hosts.Keys == old(c.hosts.Keys)
      invariant c.hosts[key] == MarkedHost(before, bmi, ls) || c.hosts[key] == ReleasedHost(before, ls)
      invariant ok ==> c.hosts[key] == ReleasedHost(before, ls)
      invariant i > 0 && tries[i - 1].Succeeds() ==> ok
    {
      ReleaseHostAgain(before, c.hosts[key], bmi, ls);
      ok := c.UnassignHost(id, names, !tries[i].read, tries[i].write);
    }
  }

  lemma ReleasedHostMeans(h: M3.Host, ls: LabelSpec, k: string)
    ensures
      var end := ReleasedHost(h, ls).labels;
      && (M3.PREFIX + k in end <==>
            && k !in ls.inventory && !(ls.pool.Some? && k == OS.POOL)
            && (k in ls.persistent || M3.PREFIX + k in h.labels))
      && (M3.PREFIX + k in end ==>
            end[M3.PREFIX + k] == if k in ls.persistent then ls.persistent[k] else h.labels[M3.PREFIX + k])
  {
    LabelledMeans(M3.PREFIX, h.labels, ls.persistent);
    PrefixCovers(M3.PREFIX, ls.persistent.Keys, k);
    PrefixCovers(M3.PREFIX, RemovedKeys(ls), k);
    assert (M3.PREFIX + k)[|M3.PREFIX|..] == k;
  }

  /** The whole life of a claim on a Metal3 host. */
  method LifeOnMetal3(c: M3.Metal3Client, id: string, bmi: string, ls: LabelSpec,
                      assigns: seq<Try>, releases: seq<Try>)
    returns (ok: bool)
    requires bmi != "" && H.ParseHostID(id).Some? && H.ParseHostID(id).value in c.hosts
    requires ClaimableHost(c.hosts[H.ParseHostID(id).value], bmi)
    modifies c
    ensures c.hosts.Keys == old(c.hosts.Keys)
    ensures ok ==> c.hosts[H.ParseHostID(id).value] == ReleasedHost(old(c.hosts)[H.ParseHostID(id).value], ls)
    ensures ok ==>
      var before, end := old(c.hosts)[H.ParseHostID(id).value], c.hosts[H.ParseHostID(id).value];
      && end.consumer.None? && end.operational == before.operational && end.available == before.available
      && forall k ::
        && (M3.PREFIX + k in end.labels <==>
              && k !in ls.inventory && !(ls.pool.Some? && k == OS.POOL)
              && (k in ls.persistent || M3.PREFIX + k in before.labels))
        && (M3.PREFIX + k in end.labels ==>
              end.labels[M3.PREFIX + k] ==
                if k in ls.persistent then ls.persistent[k] else before.labels[M3.PREFIX + k])
    ensures assigns != [] && assigns[|assigns| - 1].Succeeds() ==>
      releases != [] && releases[|releases| - 1].Succeeds() ==> ok
  {
    ghost var before := c.hosts[H.ParseHostID(id).value];
    ok := AssignMetal3(c, id, bmi, ls, assigns);
    if ok {
      ok := ReleaseMetal3(c, id, bmi, ls, before, releases);
      forall k ensures
        var end := ReleasedHost(before, ls).labels;
        && (M3.PREFIX + k in end <==>
              && k !in ls.inventory && !(ls.pool.Some? && k == OS.POOL)
              && (k in ls.persistent || M3.PREFIX + k in before.labels))
        && (M3.PREFIX + k in end ==>
              end[M3.PREFIX + k] == if k in ls.persistent then ls.persistent[k] else before.labels[M3.PREFIX + k])
      {
        ReleasedHostMeans(before, ls, k);
      }
    }
  }
}
