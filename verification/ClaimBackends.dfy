/**
 What the claim protocol relies on in the lock table and the inventory: the steps of ClaimMachine and
 the methods of the clients do the same to a host's lock and owner mark.
 */
module ClaimBackends {
  import opened Wrappers
  import opened HostLock
  import opened ClaimMachine
  import opened ClaimInvariant
  import H = HostIds
  import M3 = Metal3Inventory
  import OS = OpenStackInventory

  datatype Answer = Host | Nil | Error

  /** One AssignHost by `u`: the mark before and after it, and its answer. */
  predicate Assigns<U(==)>(before: Option<U>, after: Option<U>, u: U, a: Answer) {
    match a
    case Host => Claimable(before, u) && after == Some(u)
    case Nil => !Claimable(before, u) && after == before
    case Error => after == before || (Claimable(before, u) && after == Some(u))
  }

  /** One UnassignHost, by anybody. */
  predicate Unassigns<U(==)>(before: Option<U>, after: Option<U>, ok: bool) {
    after.None? || (!ok && after == before)
  }

  // ---------------------------------------------------------------- the machine

  /** The read of AssignHost: it answers nil, or leaves the mark to the write. */
  lemma ReadAssigns(s: State, u: Uid)
    requires StepEnabled(s, u, ReadMark)
    ensures
      var h := TaskOf(s, u).host;
      var s' := Perform(s, u, StepEffect(s, u, ReadMark));
      s'.marks == s.marks && (TaskOf(s', u).Taken? <==> Assigns(s.marks[h], s'.marks[h], u, Nil))
  {
  }

  /** Its write, at whatever later moment it lands. */
  lemma WriteAssigns(s: State, u: Uid, o: Outcome)
    requires Inv(s) && StepEnabled(s, u, WriteMark(o))
    ensures
      var h := TaskOf(s, u).host;
      var s' := Perform(s, u, StepEffect(s, u, WriteMark(o)));
      && h in s.marks && (forall g :: g in s.marks && g != h ==> s'.marks[g] == s.marks[g])
      && Assigns(s.marks[h], s'.marks[h], u, if TaskOf(s', u).Claimed? then Host else Error)
  {
    assert TaskOk(s, u, TaskOf(s, u));
  }

  lemma ClearUnassigns(s: State, u: Uid, o: Outcome)
    requires Inv(s) && StepEnabled(s, u, ClearMark(o))
    ensures
      var h := TaskOf(s, u).host;
      var s' := Perform(s, u, StepEffect(s, u, ClearMark(o)));
      && h in s.marks && (forall g :: g in s.marks && g != h ==> s'.marks[g] == s.marks[g])
      && Unassigns(s.marks[h], s'.marks[h], TaskOf(s', u).Dropping?)
  {
    assert TaskOk(s, u, TaskOf(s, u));
  }

  // ---------------------------------------------------------------- the lock table

  method TryLock(l: HostLocks<HostId>, ghost s: State, ghost u: Uid, h: HostId, ghost inside: Task) returns (ok: bool)
    requires l.table == s.locks
    modifies l
    ensures l.table == Perform(s, u, LockOr(s, h, inside)).locks
    ensures ok <==> LockOr(s, h, inside).lock.Take?
  {
    ok := l.TryLock(h);
  }

  method Unlock(l: HostLocks<HostId>, ghost s: State, ghost u: Uid, h: HostId)
    requires l.table == s.locks && Inv(s) && TaskOf(s, u) == Unlocking(h)
    modifies l
    ensures l.table == Perform(s, u, StepEffect(s, u, ClaimMachine.Unlock)).locks
  {
    assert Critical(TaskOf(s, u)) == Some(h);
    l.Unlock(h);
  }

  // ---------------------------------------------------------------- the clients

  function Metal3Mark(c: M3.Metal3Client, id: string): Option<string>
    requires H.ParseHostID(id).Some? && H.ParseHostID(id).value in c.hosts
    reads c
  {
    c.hosts[H.ParseHostID(id).value].consumer
  }

  method AssignMetal3(c: M3.Metal3Client, id: string, bmi: string, labels: map<string, string>,
                      getFails: bool, o: Outcome)
    returns (a: Answer)
    requires H.ParseHostID(id).Some? && H.ParseHostID(id).value in c.hosts
    modifies c
    ensures c.hosts.Keys == old(c.hosts.Keys)
    ensures Assigns(old(Metal3Mark(c, id)), Metal3Mark(c, id), bmi, a)
  {
    var r := c.AssignHost(id, bmi, labels, getFails, o);
    a := match r case Found(_) => Host case Nil => Nil case Error => Error;
  }

  method UnassignMetal3(c: M3.Metal3Client, id: string, labels: seq<string>, getFails: bool, o: Outcome)
    returns (ok: bool)
    requires H.ParseHostID(id).Some? && H.ParseHostID(id).value in c.hosts
    modifies c
    ensures c.hosts.Keys == old(c.hosts.Keys)
    ensures Unassigns(old(Metal3Mark(c, id)), Metal3Mark(c, id), ok)
  {
    ok := c.UnassignHost(id, labels, getFails, o);
  }

  /** An empty owner label is no mark. */
  function OpenStackMark(n: OS.Node): Option<string> {
    var m := OS.NestedLabel(n.extra, OS.OWNER);
    if m == Some("") then None else m
  }

  /** The owner label that an assign with `labels` leaves behind. */
  lemma MarkLeft(c: OS.OpenStackClient, before: OS.Node, after: OS.Node, bmi: string, labels: map<string, string>)
    requires c.MarkedFor(before, after, bmi, labels)
    ensures OS.NestedLabel(after.extra, OS.OWNER) == Some(if OS.OWNER in labels then labels[OS.OWNER] else bmi)
  {
  }

  /**
   On OpenStack it does so if no label uses the reserved key for something else; then, and only then,
   an answered host carries the caller's mark.
   */
  method AssignOpenStack(c: OS.OpenStackClient, id: string, bmi: string, labels: map<string, string>,
                         getFails: bool, init: Outcome, update: Outcome)
    returns (a: Answer)
    requires id != "" && bmi != "" && id in c.nodes
    modifies c
    ensures id in c.nodes
    ensures (OS.OWNER in labels ==> labels[OS.OWNER] == bmi) ==>
      Assigns(OpenStackMark(old(c.nodes)[id]), OpenStackMark(c.nodes[id]), bmi, a)
    ensures a.Host? ==>
      (OpenStackMark(c.nodes[id]) == Some(bmi) <==> (OS.OWNER in labels ==> labels[OS.OWNER] == bmi))
  {
    ghost var before := c.nodes[id];
    var r := c.AssignHost(id, bmi, labels, getFails, init, update);
    a := match r case Host => Host case Taken => Nil case Error => Error;
    if c.MarkedFor(before, c.nodes[id], bmi, labels) {
      MarkLeft(c, before, c.nodes[id], bmi, labels);
    }
  }

  method UnassignOpenStack(c: OS.OpenStackClient, id: string, labels: seq<string>, getFails: bool, o: Outcome)
    returns (ok: bool)
    requires id in c.nodes
    modifies c
    ensures id in c.nodes && Unassigns(OpenStackMark(old(c.nodes)[id]), OpenStackMark(c.nodes[id]), ok)
  {
    ok := c.UnassignHost(id, labels, getFails, o);
  }
}
