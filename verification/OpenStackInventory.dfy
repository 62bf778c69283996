/** The OpenStack inventory backend (internal/inventory/openstack.go). */
module OpenStackInventory {
  import opened Wrappers
  import opened GoStrings
  import opened JsonPointer
  import opened JsonPatch

  const OWNER := "bareMetalInstanceId"
  const POOL := "bareMetalPoolId"
  const MANAGED_BY := "managedBy"
  const HOST_TYPE := "hostType"
  const PROVISION_STATE := "provisionState"
  const DEFAULT_MANAGED_BY := "baremetal"
  const DEFAULT_PROVISION_STATE := "available"

  type LabelMap = map<string, Json>

  /** getNestedLabel: only string values of a label object count. */
  function NestedLabel(extra: LabelMap, key: string): Option<string> {
    if Labels(extra).Some? && key in Labels(extra).value && Labels(extra).value[key].Str?
    then Some(Labels(extra).value[key].s) else None
  }

  function StrMap(m: map<string, string>): LabelMap {
    map k | k in m :: Str(m[k])
  }

  /** Marked by somebody other than `bmi`. */
  predicate TakenFrom(extra: LabelMap, bmi: string) {
    NestedLabel(extra, OWNER).Some? && NestedLabel(extra, OWNER).value !in {"", bmi}
  }

  // ---------------------------------------------------------------- the generated patches

  function Puts(order: seq<string>, labels: map<string, string>): seq<Edit>
    requires forall k :: k in order ==> k in labels
  {
    seq(|order|, i requires 0 <= i < |order| => Put(order[i], Str(labels[order[i]])))
  }

  /** The owner label first, then the others in the order the map iteration yields them. */
  function AssignEdits(bmi: string, order: seq<string>, labels: map<string, string>): seq<Edit>
    requires forall k :: k in order ==> k in labels
  {
    [Put(OWNER, Str(bmi))] + Puts(order, labels)
  }

  function Assigned(m: LabelMap, bmi: string, labels: map<string, string>): LabelMap {
    m[OWNER := Str(bmi)] + StrMap(labels)
  }

  function Only(order: seq<string>, labels: map<string, string>): map<string, string> {
    map k | k in labels && k in order :: labels[k]
  }

  lemma PutThenOverride(m: LabelMap, k: string, v: Json, rest: LabelMap)
    requires k in rest ==> rest[k] == v
    ensures m[k := v] + rest == m + rest[k := v]
  {
  }

  lemma OnlyStep(order: seq<string>, labels: map<string, string>)
    requires order != [] && order[0] in labels
    ensures StrMap(Only(order, labels)) == StrMap(Only(order[1..], labels))[order[0] := Str(labels[order[0]])]
  {
    assert forall j :: j in order <==> j == order[0] || j in order[1..];
  }

  lemma {:induction false} PutsOverride(m: LabelMap, order: seq<string>, labels: map<string, string>)
    requires forall k :: k in order ==> k in labels
    ensures ApplyEdits(m, Puts(order, labels)) == Some(m + StrMap(Only(order, labels)))
    decreases |order|
  {
    if order == [] {
      assert m + StrMap(Only(order, labels)) == m;
    } else {
      var k := order[0];
      var v := Str(labels[k]);
      PutsOverride(m[k := v], order[1..], labels);
      OnlyStep(order, labels);
      PutThenOverride(m, k, v, StrMap(Only(order[1..], labels)));
      assert Puts(order, labels)[1..] == Puts(order[1..], labels);
    }
  }

  /** The assign patch means map override, in every iteration order, exactly if there is a label object. */
  lemma AssignPatch(extra: LabelMap, bmi: string, order: seq<string>, labels: map<string, string>)
    requires forall k :: k in order <==> k in labels
    ensures ApplyAll(Doc(extra), Rendered(AssignEdits(bmi, order, labels))) ==
      if Labels(extra).Some? then Some(Doc(WithLabels(extra, Assigned(Labels(extra).value, bmi, labels)))) else None
  {
    var es := AssignEdits(bmi, order, labels);
    assert es[1..] == Puts(order, labels);
    if Labels(extra).Some? {
      var m := Labels(extra).value;
      PutsOverride(m[OWNER := Str(bmi)], order, labels);
      assert Only(order, labels) == labels;
      RenderedMeans(extra, es, Assigned(m, bmi, labels));
    } else {
      NoLabelsRefused(extra, es);
    }
  }

  /** The caller becomes the owner on record exactly if no other label uses the reserved key. */
  lemma OwnerRecorded(m: LabelMap, bmi: string, labels: map<string, string>)
    ensures Assigned(m, bmi, labels)[OWNER] == Str(bmi) <==> (OWNER in labels ==> labels[OWNER] == bmi)
  {
  }

  function Dels(rem: seq<string>): seq<Edit> {
    seq(|rem|, i requires 0 <= i < |rem| => Del(rem[i]))
  }

  predicate Distinct(xs: seq<string>) {
    forall i, j :: 0 <= i < j < |xs| ==> xs[i] != xs[j]
  }

  lemma AppendNew(xs: seq<string>, x: string)
    requires Distinct(xs) && x !in Elements(xs)
    ensures Distinct(xs + [x]) && Elements(xs + [x]) == Elements(xs) + {x}
  {
    forall i | 0 <= i < |xs| ensures xs[i] != x {
      assert xs[i] in Elements(xs);
    }
  }

  /** Removing distinct present labels finds each of them. */
  lemma {:induction false} DelsSubtract(m: LabelMap, rem: seq<string>)
    requires Distinct(rem) && Elements(rem) <= m.Keys
    ensures ApplyEdits(m, Dels(rem)) == Some(m - Elements(rem))
  {
    if rem == [] {
      assert m - Elements(rem) == m;
    } else {
      var k := rem[0];
      assert k in Elements(rem);
      assert Elements(rem) == {k} + Elements(rem[1..]);
      assert k !in Elements(rem[1..]);
      DelsSubtract(m - {k}, rem[1..]);
      assert (m - {k}) - Elements(rem[1..]) == m - Elements(rem);
      assert Dels(rem)[1..] == Dels(rem[1..]);
    }
  }

  /** The unassign patch always applies and means map subtraction. */
  lemma UnassignPatch(extra: LabelMap, rem: seq<string>)
    requires Labels(extra).Some? && Distinct(rem) && Elements(rem) <= Labels(extra).value.Keys
    ensures ApplyAll(Doc(extra), Rendered(Dels(rem))) ==
      Some(Doc(WithLabels(extra, Labels(extra).value - Elements(rem))))
  {
    DelsSubtract(Labels(extra).value, rem);
    RenderedMeans(extra, Dels(rem), Labels(extra).value - Elements(rem));
  }

  // ---------------------------------------------------------------- the client

  datatype Node = Node(name: string, resourceClass: string, provisionState: string, extra: LabelMap)

  datatype Found = Found(id: string, managedBy: string)

  /** Answer of a search. */
  datatype Search = FreeHost(found: Found) | NoHost | ListError

  /** The host, nil, or an error. */
  datatype Answer = Host | Taken | Error

  /** The hosts the list call may return for these match expressions: the server's own filters. */
  predicate Listed(n: Node, exprs: map<string, string>) {
    && (HOST_TYPE in exprs && exprs[HOST_TYPE] != "" ==> n.resourceClass == exprs[HOST_TYPE])
    && n.provisionState ==
         (if PROVISION_STATE in exprs && exprs[PROVISION_STATE] != "" then exprs[PROVISION_STATE]
          else DEFAULT_PROVISION_STATE)
  }

  function OrDefault(found: Option<string>): string {
    if found.None? || found.value == "" then DEFAULT_MANAGED_BY else found.value
  }

  function Wanted(exprs: map<string, string>): string {
    OrDefault(if MANAGED_BY in exprs then Some(exprs[MANAGED_BY]) else None)
  }

  /** Unmarked and managed by the requested party. */
  predicate Suitable(n: Node, exprs: map<string, string>) {
    && (NestedLabel(n.extra, OWNER).None? || NestedLabel(n.extra, OWNER).value == "")
    && OrDefault(NestedLabel(n.extra, MANAGED_BY)) == Wanted(exprs)
  }

  /** Callers may rely on nothing but the elements, so every order is covered. */
  method Shuffle(page: seq<string>) returns (r: seq<string>)
    ensures forall id :: id in r <==> id in page
  {
    r := page;
  }

  class OpenStackClient {
    var nodes: map<string, Node>

    constructor (nodes: map<string, Node>)
      ensures this.nodes == nodes
    {
      this.nodes := nodes;
    }

    /** What FindFreeHost looks for: an unmarked host of the right type, provision state and manager. */
    lemma OfferMeans(n: Node, exprs: map<string, string>)
      ensures Listed(n, exprs) && Suitable(n, exprs) <==>
        var labels :=
          if "osac_labels" in n.extra && n.extra["osac_labels"].Obj? then n.extra["osac_labels"].fields else map[];
        var owner := if "bareMetalInstanceId" in labels then labels["bareMetalInstanceId"] else Str("");
        var managedBy := if "managedBy" in labels && labels["managedBy"].Str? then labels["managedBy"].s else "";
        var wanted := if "managedBy" in exprs then exprs["managedBy"] else "";
        var state := if "provisionState" in exprs then exprs["provisionState"] else "";
        && (owner.Str? ==> owner.s == "")
        && ("hostType" in exprs && exprs["hostType"] != "" ==> n.resourceClass == exprs["hostType"])
        && n.provisionState == (if state == "" then "available" else state)
        && (if managedBy == "" then "baremetal" else managedBy) == (if wanted == "" then "baremetal" else wanted)
    {
    }

    /** The page shows listed hosts only. */
    predicate AllListed(page: seq<string>, exprs: map<string, string>)
      reads this
    {
      forall id :: id in page ==> id in nodes && Listed(nodes[id], exprs)
    }

    predicate OnPage(pages: seq<seq<string>>, id: string) {
      exists j :: 0 <= j < |pages| && id in pages[j]
    }

    predicate IsListing(pages: seq<seq<string>>, exprs: map<string, string>)
      reads this
    {
      && (forall j :: 0 <= j < |pages| ==> AllListed(pages[j], exprs))
      && (forall id :: id in nodes && Listed(nodes[id], exprs) ==> OnPage(pages, id))
    }

    /** The page has no host to offer. */
    predicate NoneOn(page: seq<string>, exprs: map<string, string>)
      reads this
    {
      forall id :: id in page && id in nodes ==> !Suitable(nodes[id], exprs)
    }

    /** Nor has any of the first `n` pages. */
    predicate NoneSuitable(pages: seq<seq<string>>, n: nat, exprs: map<string, string>)
      reads this
    {
      forall j :: 0 <= j < n && j < |pages| ==> NoneOn(pages[j], exprs)
    }

    /** Goes through one page, in a random order. */
    method SearchPage(ids: seq<string>, exprs: map<string, string>) returns (r: Option<Found>)
      requires AllListed(ids, exprs)
      ensures r.Some? ==>
        && r.value.id in ids && r.value.id in nodes && Listed(nodes[r.value.id], exprs)
        && Suitable(nodes[r.value.id], exprs) && r.value.managedBy == Wanted(exprs)
      ensures r.None? <==> NoneOn(ids, exprs)
    {
      var page := Shuffle(ids);
      for k := 0 to |page|
        invariant forall j :: 0 <= j < k ==> page[j] in nodes && !Suitable(nodes[page[j]], exprs)
      {
        var id := page[k];
        assert id in ids;
        var node := nodes[id];
        var owner := NestedLabel(node.extra, OWNER);
        if owner.Some? && owner.value != "" { continue; }
        var managedBy := OrDefault(NestedLabel(node.extra, MANAGED_BY));
        if managedBy != Wanted(exprs) { continue; }
        return Some(Found(id, managedBy));
      }
      r := None;
    }

    lemma NextPage(pages: seq<seq<string>>, i: nat, exprs: map<string, string>)
      requires i < |pages| && NoneSuitable(pages, i, exprs) && NoneOn(pages[i], exprs)
      ensures NoneSuitable(pages, i + 1, exprs)
    {
      forall j | 0 <= j < i + 1 ensures NoneOn(pages[j], exprs) {
        if j == i {
        } else {
          assert NoneOn(pages[j], exprs);
        }
      }
    }

    /** No listed host is suitable. */
    ghost predicate NoneListed(exprs: map<string, string>)
      reads this
    {
      forall id :: id in nodes && Listed(nodes[id], exprs) ==> !Suitable(nodes[id], exprs)
    }

    /** The pages together show all that is listed. */
    lemma PagesShowAll(pages: seq<seq<string>>, exprs: map<string, string>)
      requires IsListing(pages, exprs) && NoneSuitable(pages, |pages|, exprs)
      ensures NoneListed(exprs)
    {
      forall id | id in nodes && Listed(nodes[id], exprs) ensures !Suitable(nodes[id], exprs) {
        assert OnPage(pages, id);
        var j :| 0 <= j < |pages| && id in pages[j];
        assert NoneOn(pages[j], exprs);
      }
    }

    /** A host to offer, on page `i`. */
    predicate Offers(pages: seq<seq<string>>, i: nat, exprs: map<string, string>, f: Found)
      reads this
    {
      && i < |pages| && f.id in pages[i] && f.id in nodes
      && Listed(nodes[f.id], exprs) && Suitable(nodes[f.id], exprs) && f.managedBy == Wanted(exprs)
    }

    lemma OfferCounts(pages: seq<seq<string>>, i: nat, exprs: map<string, string>, f: Found)
      requires Offers(pages, i, exprs, f)
      ensures !NoneListed(exprs) && forall n :: n > i ==> !NoneSuitable(pages, n, exprs)
    {
      assert !NoneOn(pages[i], exprs);
    }

    /**
     Finds a free host if a page that can be read has one; nil exactly if there is none at all, and an
     error exactly if a page cannot be read and none before it has one. `readable` counts the pages
     that can be.
     */
    method FindFreeHost(exprs: map<string, string>, pages: seq<seq<string>>, readable: nat) returns (r: Search)
      requires IsListing(pages, exprs)
      ensures r.FreeHost? ==> exists i :: 0 <= i < readable && Offers(pages, i, exprs, r.found)
      ensures r.NoHost? <==> readable >= |pages| && NoneListed(exprs)
      ensures r.ListError? <==> readable < |pages| && NoneSuitable(pages, readable, exprs)
    {
      for i := 0 to |pages|
        invariant i <= readable && NoneSuitable(pages, i, exprs)
      {
        if i >= readable { return ListError; }
        var found := SearchPage(pages[i], exprs);
        if found.Some? {
          assert Offers(pages, i, exprs, found.value);
          OfferCounts(pages, i, exprs, found.value);
          return FreeHost(found.value);
        }
        NextPage(pages, i, exprs);
      }
      PagesShowAll(pages, exprs);
      r := NoHost;
    }

    /**
     A patch request; the server takes all of it or nothing. `expected` is what the patch makes of
     the node's "extra" object, or None if it does not apply.
     */
    method Update(id: string, ops: seq<Operation>, ghost expected: Option<LabelMap>, o: Outcome) returns (ok: bool)
      requires id in nodes
      requires ApplyAll(Doc(nodes[id].extra), ops) ==
        match expected case None => None case Some(extra) => Some(Doc(extra))
      modifies this
      ensures ok == (expected.Some? && o.Applied?)
      ensures nodes == if expected.None? || o.Rejected? then old(nodes)
        else old(nodes)[id := old(nodes)[id].(extra := expected.value)]
    {
      if o.Rejected? { return false; }
      var doc := ApplyAll(Doc(nodes[id].extra), ops);
      if doc.None? { return false; }
      var extra := doc.value.fields[EXTRA].fields;
      nodes := nodes[id := nodes[id].(extra := extra)];
      ok := o.Applied?;
    }

    /** The first operation, then one per label in the order of the map iteration. */
    method BuildAddOps(first: Edit, labels: map<string, string>) returns (ops: seq<Operation>, ghost order: seq<string>)
      ensures (forall k :: k in order <==> k in labels) && ops == Rendered([first] + Puts(order, labels))
    {
      ops, order := [Render(first)], [];
      assert ops == Rendered([first] + Puts(order, labels));
      var todo := labels.Keys;
      while todo != {}
        invariant todo <= labels.Keys
        invariant forall k :: k in order <==> k in labels && k !in todo
        invariant ops == Rendered([first] + Puts(order, labels))
        decreases todo
      {
        var k :| k in todo;
        var e := Put(k, Str(labels[k]));
        RenderedExtend([first] + Puts(order, labels), e);
        assert Puts(order + [k], labels) == Puts(order, labels) + [e];
        assert [first] + Puts(order + [k], labels) == [first] + Puts(order, labels) + [e];
        ops := ops + [Render(e)];
        order := order + [k];
        todo := todo - {k};
      }
    }

    /** The whole assign patch, with what it makes of the node's "extra" object. */
    method BuildAssignOps(extra: LabelMap, bmi: string, labels: map<string, string>)
      returns (ops: seq<Operation>, ghost expected: Option<LabelMap>)
      ensures expected == if Labels(extra).None? then None
        else Some(WithLabels(extra, Assigned(Labels(extra).value, bmi, labels)))
      ensures ApplyAll(Doc(extra), ops) == match expected case None => None case Some(x) => Some(Doc(x))
    {
      ghost var order;
      ops, order := BuildAddOps(Put(OWNER, Str(bmi)), labels);
      AssignPatch(extra, bmi, order, labels);
      expected := if Labels(extra).None? then None
        else Some(WithLabels(extra, Assigned(Labels(extra).value, bmi, labels)));
    }

    /** What AssignHost must leave behind: the old labels overridden by the owner and the given ones. */
    predicate MarkedFor(before: Node, after: Node, bmi: string, labels: map<string, string>) {
      && (LABELS in before.extra ==> before.extra[LABELS].Obj?)
      && var m := if LABELS in before.extra then before.extra[LABELS].fields else map[];
         after == before.(extra := WithLabels(before.extra, Assigned(m, bmi, labels)))
    }

    /** Ensures that the node has a label object. */
    method EnsureLabels(id: string, init: Outcome) returns (ok: bool)
      requires id in nodes
      modifies this
      ensures ok == (LABELS in old(nodes)[id].extra || init.Applied?)
      ensures nodes.Keys == old(nodes.Keys) && forall j :: j in nodes && j != id ==> nodes[j] == old(nodes)[j]
      ensures nodes[id] == if LABELS in old(nodes)[id].extra || init.Rejected? then old(nodes)[id]
        else old(nodes)[id].(extra := WithLabels(old(nodes)[id].extra, map[]))
    {
      if LABELS in nodes[id].extra { return true; }
      InitLabels(nodes[id].extra);
      ok := Update(id, [Add(LabelsPath(), Obj(map[]))], Some(WithLabels(nodes[id].extra, map[])), init);
    }

    method WriteLabels(id: string, bmi: string, labels: map<string, string>, update: Outcome) returns (ok: bool)
      requires id in nodes
      modifies this
      ensures ok == (Labels(old(nodes)[id].extra).Some? && update.Applied?)
      ensures nodes.Keys == old(nodes.Keys) && forall j :: j in nodes && j != id ==> nodes[j] == old(nodes)[j]
      ensures
        if Labels(old(nodes)[id].extra).None? || update.Rejected? then nodes == old(nodes)
        else nodes[id] == old(nodes)[id].(
          extra := WithLabels(old(nodes)[id].extra, Assigned(Labels(old(nodes)[id].extra).value, bmi, labels)))
    {
      var ops, expected := BuildAssignOps(nodes[id].extra, bmi, labels);
      ok := Update(id, ops, expected, update);
    }

    method AssignHost(id: string, bmi: string, labels: map<string, string>,
                      getFails: bool, init: Outcome, update: Outcome) returns (r: Answer)
      modifies this
      ensures nodes.Keys == old(nodes.Keys) && forall j :: j in nodes && j != id ==> nodes[j] == old(nodes)[j]
      ensures r.Taken? <==> id != "" && bmi != "" && id in nodes && !getFails && TakenFrom(old(nodes)[id].extra, bmi)
      ensures r.Taken? || getFails || id == "" || bmi == "" ==> nodes == old(nodes)
      ensures r.Host? ==> id in nodes && MarkedFor(old(nodes)[id], nodes[id], bmi, labels)
      ensures id != "" && bmi != "" && id in nodes && !getFails && !r.Taken? ==>
        var before, after := old(nodes)[id], nodes[id];
        if LABELS in before.extra then
          if before.extra[LABELS].Obj? && !update.Rejected? then MarkedFor(before, after, bmi, labels)
          else after == before
        else if init.Applied? && !update.Rejected? then MarkedFor(before, after, bmi, labels)
        else if init.Rejected? then after == before
        else after == before.(extra := WithLabels(before.extra, map[]))
      ensures r.Host? <==>
        && id != "" && bmi != "" && id in nodes && !getFails && !TakenFrom(old(nodes)[id].extra, bmi)
        && (if LABELS in old(nodes)[id].extra then old(nodes)[id].extra[LABELS].Obj? else init.Applied?)
        && update.Applied?
    {
      if id == "" || bmi == "" { return Error; }
      if getFails || id !in nodes { return Error; }
      var current := NestedLabel(nodes[id].extra, OWNER);
      if current.Some? && current.value != "" && current.value != bmi { return Taken; }
      var ok := EnsureLabels(id, init);
      if !ok { return Error; }
      ok := WriteLabels(id, bmi, labels, update);
      r := if ok then Host else Error;
    }

    /** The owner label and the given ones, without repetition. */
    method DistinctLabels(labels: seq<string>) returns (labelsToRemove: seq<string>)
      ensures Distinct(labelsToRemove) && Elements(labelsToRemove) == {OWNER} + Elements(labels)
    {
      var seen := {OWNER};
      labelsToRemove := [OWNER];
      for i := 0 to |labels|
        invariant seen == {OWNER} + Elements(labels[..i])
        invariant Distinct(labelsToRemove) && Elements(labelsToRemove) == seen
      {
        var name := labels[i];
        assert Elements(labels[..i + 1]) == Elements(labels[..i]) + {name};
        if name in seen { continue; }
        seen := seen + {name};
        AppendNew(labelsToRemove, name);
        labelsToRemove := labelsToRemove + [name];
      }
      assert labels[..|labels|] == labels;
    }

    /** One removal for every label that exists. */
    method BuildRemovalOps(existing: LabelMap, labelsToRemove: seq<string>)
      returns (ops: seq<Operation>, ghost rem: seq<string>)
      requires Distinct(labelsToRemove)
      ensures Distinct(rem) && Elements(rem) == Elements(labelsToRemove) * existing.Keys
      ensures ops == Rendered(Dels(rem))
    {
      ops, rem := [], [];
      for i := 0 to |labelsToRemove|
        invariant Distinct(rem) && Elements(rem) == Elements(labelsToRemove[..i]) * existing.Keys
        invariant ops == Rendered(Dels(rem))
      {
        var name := labelsToRemove[i];
        assert Elements(labelsToRemove[..i + 1]) == Elements(labelsToRemove[..i]) + {name};
        if name !in existing { continue; }
        assert name !in Elements(labelsToRemove[..i]);
        AppendNew(rem, name);
        RenderedExtend(Dels(rem), Del(name));
        ops := ops + [Render(Del(name))];
        assert Dels(rem + [name]) == Dels(rem) + [Del(name)];
        rem := rem + [name];
      }
      assert labelsToRemove[..|labelsToRemove|] == labelsToRemove;
    }

    /** What UnassignHost must leave behind: the old labels without the owner and the given ones. */
    predicate Cleared(before: Node, after: Node, labels: seq<string>) {
      match Labels(before.extra)
      case None => after == before
      case Some(m) => after == before.(extra := WithLabels(before.extra, m - ({OWNER} + Elements(labels))))
    }

    function Removable(n: Node, labels: seq<string>): set<string> {
      if Labels(n.extra).None? then {} else ({OWNER} + Elements(labels)) * Labels(n.extra).value.Keys
    }

    /** Fails only if the node cannot be read or the server does not acknowledge: the patch always applies. */
    method UnassignHost(id: string, labels: seq<string>, getFails: bool, update: Outcome) returns (ok: bool)
      modifies this
      ensures nodes.Keys == old(nodes.Keys) && forall j :: j in nodes && j != id ==> nodes[j] == old(nodes)[j]
      ensures ok ==> id in nodes && Cleared(old(nodes)[id], nodes[id], labels)
      ensures ok <==> !getFails && id in nodes && (Removable(old(nodes)[id], labels) == {} || update.Applied?)
      ensures id in nodes ==>
        if getFails || update.Rejected? then nodes == old(nodes) else Cleared(old(nodes)[id], nodes[id], labels)
    {
      if getFails || id !in nodes { return false; }
      var node := nodes[id];
      var existing := map[];
      if Labels(node.extra).Some? { existing := Labels(node.extra).value; }
      var labelsToRemove := DistinctLabels(labels);
      var ops, rem := BuildRemovalOps(existing, labelsToRemove);
      assert existing - Elements(rem) == existing - ({OWNER} + Elements(labels));
      if |ops| == 0 {
        assert rem == [] && Elements(rem) == {};
        if Labels(node.extra).Some? {
          assert existing - Elements(rem) == existing;
          assert WithLabels(node.extra, existing) == node.extra;
        }
        return true;
      }
      assert rem != [] && rem[0] in Elements(rem);
      UnassignPatch(node.extra, rem);
      ok := Update(id, ops, Some(WithLabels(node.extra, existing - Elements(rem))), update);
    }
  }
}
