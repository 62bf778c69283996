/** The Metal3 inventory backend (internal/inventory/metal3.go). */
module Metal3Inventory {
  import opened Wrappers
  import opened GoStrings
  import opened HostIds
  import opened PrefixedLabels

  const PREFIX := "osac.openshift.io/"
  const HOST_TYPE_LABEL := PREFIX + "host-type"
  const MANAGED_BY_LABEL := PREFIX + "managed-by"
  const DEFAULT_MANAGED_BY := "baremetal"

  // ---------------------------------------------------------------- the client

  /** A BareMetalHost: labels, the name in spec.consumerRef, and whether it is OK and Available. */
  datatype Host = Host(labels: Pairs, consumer: Option<string>, operational: bool, available: bool)

  type Key = (string, string)

  /** The host (reported by its ID), nil, or an error. */
  datatype Answer = Found(id: string) | Nil | Error

  function OrDefault(m: Pairs, key: string): string {
    if key in m && m[key] != "" then m[key] else DEFAULT_MANAGED_BY
  }

  predicate Suitable(h: Host, exprs: Pairs) {
    && h.operational && h.available && h.consumer.None?
    && OrDefault(h.labels, MANAGED_BY_LABEL) == OrDefault(exprs, "managedBy")
  }

  /** The namespace and label selector of the list call. */
  predicate Selected(namespace: string, key: Key, h: Host, exprs: Pairs) {
    && key.0 == namespace
    && ("hostType" in exprs && exprs["hostType"] != "" ==>
          HOST_TYPE_LABEL in h.labels && h.labels[HOST_TYPE_LABEL] == exprs["hostType"])
  }

  class Metal3Client {
    const namespace: string
    var hosts: map<Key, Host>

    constructor (namespace: string, hosts: map<Key, Host>)
      ensures this.namespace == namespace && this.hosts == hosts
    {
      this.namespace := namespace;
      this.hosts := hosts;
    }

    predicate Candidate(key: Key, exprs: Pairs)
      reads this
    {
      key in hosts && Selected(namespace, key, hosts[key], exprs) && Suitable(hosts[key], exprs)
    }

    /** What FindFreeHost looks for: unclaimed, working and available, of the right namespace, type and manager. */
    lemma CandidateMeans(key: Key, exprs: Pairs)
      ensures Candidate(key, exprs) <==>
        && key in hosts && key.0 == namespace
        && var h := hosts[key];
           var managedBy :=
             if "osac.openshift.io/managed-by" in h.labels then h.labels["osac.openshift.io/managed-by"] else "";
           var wanted := if "managedBy" in exprs then exprs["managedBy"] else "";
           && h.consumer.None? && h.operational && h.available
           && ("hostType" in exprs && exprs["hostType"] != "" ==>
                 && "osac.openshift.io/host-type" in h.labels
                 && h.labels["osac.openshift.io/host-type"] == exprs["hostType"])
           && (if managedBy == "" then "baremetal" else managedBy) == (if wanted == "" then "baremetal" else wanted)
    {
      assert HOST_TYPE_LABEL == "osac.openshift.io/host-type" && MANAGED_BY_LABEL == "osac.openshift.io/managed-by";
    }

    /** A random candidate if there is one; nil exactly if there is none. `items` is the list call's answer. */
    method FindFreeHost(exprs: Pairs, items: seq<Key>, listFails: bool) returns (r: Answer)
      requires forall key :: key in items <==> key in hosts && Selected(namespace, key, hosts[key], exprs)
      ensures r.Error? <==> listFails
      ensures r.Found? ==> exists key :: Candidate(key, exprs) && r.id == PrintHostID(key.0, key.1)
      ensures r.Nil? <==> !listFails && forall key :: !Candidate(key, exprs)
    {
      if listFails { return Error; }
      var candidates: seq<Key> := [];
      for i := 0 to |items|
        invariant forall key :: key in candidates <==> key in items[..i] && Suitable(hosts[key], exprs)
      {
        var bmh := hosts[items[i]];
        if !bmh.operational { continue; }
        if !bmh.available { continue; }
        if bmh.consumer.Some? { continue; }
        if OrDefault(bmh.labels, MANAGED_BY_LABEL) != OrDefault(exprs, "managedBy") { continue; }
        candidates := candidates + [items[i]];
      }
      assert items[..|items|] == items;
      if |candidates| == 0 {
        forall key ensures !Candidate(key, exprs) {
          assert key !in candidates;
        }
        return Nil;
      }
      var k: nat :| k < |candidates|;
      assert candidates[k] in candidates;
      assert Candidate(candidates[k], exprs);
      r := Found(PrintHostID(candidates[k].0, candidates[k].1));
    }

    /** Optimistic concurrency makes the API server refuse an Update of a host that changed meanwhile. */
    method AssignHost(id: string, bmi: string, labels: Pairs, getFails: bool, update: Outcome) returns (r: Answer)
      modifies this
      ensures hosts.Keys == old(hosts.Keys)
      ensures ParseHostID(id).None? || ParseHostID(id).value !in hosts ==> r.Error? && hosts == old(hosts)
      ensures ParseHostID(id).Some? && ParseHostID(id).value in hosts ==>
        var key := ParseHostID(id).value;
        var before := old(hosts)[key];
        && (r.Nil? <==> bmi != "" && !getFails && before.consumer.Some? && before.consumer.value != bmi)
        && (r.Found? <==> bmi != "" && !getFails && !r.Nil? && update.Applied?)
        && (r.Found? ==> r.id == id)
        && hosts ==
             if getFails || bmi == "" || r.Nil? || update.Rejected? then old(hosts)
             else old(hosts)[key := before.(labels := Labelled(PREFIX, before.labels, labels), consumer := Some(bmi))]
    {
      if id == "" || bmi == "" { return Error; }
      var parsed := ParseHostID(id);
      if parsed.None? { return Error; }
      ParsedIsPrinted(id);
      var key := parsed.value;
      if getFails || key !in hosts { return Error; }
      var bmh := hosts[key];
      if bmh.consumer.Some? && bmh.consumer.value != bmi { return Nil; }
      var newLabels := AddLabels(PREFIX, bmh.labels, labels);
      bmh := bmh.(labels := newLabels, consumer := Some(bmi));
      if update.Rejected? { return Error; }
      hosts := hosts[key := bmh];
      if update.Lost? { return Error; }
      r := Found(PrintHostID(key.0, key.1));
    }

    /** Clears the mark whoever set it, and takes the given labels off. */
    method UnassignHost(id: string, labels: seq<string>, getFails: bool, update: Outcome) returns (ok: bool)
      modifies this
      ensures ok <==> ParseHostID(id).Some? && ParseHostID(id).value in old(hosts) && !getFails && update.Applied?
      ensures
        if ParseHostID(id).None? || ParseHostID(id).value !in old(hosts) || getFails || update.Rejected?
        then hosts == old(hosts)
        else
          var key := ParseHostID(id).value;
          var before := old(hosts)[key];
          hosts == old(hosts)[key := before.(
            labels := Unlabelled(PREFIX, before.labels, Elements(labels)), consumer := None)]
    {
      var parsed := ParseHostID(id);
      if parsed.None? { return false; }
      var key := parsed.value;
      if getFails || key !in hosts { return false; }
      var bmh := hosts[key];
      var newLabels := RemoveLabels(PREFIX, bmh.labels, labels);
      if update.Rejected? { return false; }
      hosts := hosts[key := bmh.(labels := newLabels, consumer := None)];
      ok := update.Applied?;
    }
  }
}
