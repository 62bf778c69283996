/** Host sets and their order by host type, as sort.Slice with the Go string order leaves them. */
module HostTypes {
  datatype HostSet = HostSet(hostType: string, replicas: int)

  /** Go's byte-wise string order. */
  predicate Less(a: string, b: string) {
    b != "" && (a == "" || a[0] < b[0] || (a[0] == b[0] && Less(a[1..], b[1..])))
  }

  /** Less at the first place where they differ, or a proper prefix. */
  lemma {:induction false} LessMeans(a: string, b: string)
    ensures Less(a, b) <==>
      exists k: nat ::
        && k <= |a| && k < |b| && a[..k] == b[..k]
        && (k < |a| ==> a[k] < b[k])
  {
    if a == "" || b == "" {
      assert b != "" ==> a[..0] == b[..0];
    } else if a[0] == b[0] {
      LessMeans(a[1..], b[1..]);
      if Less(a, b) {
        var a', b' := a[1..], b[1..];
        var k: nat :| k <= |a'| && k < |b'| && a'[..k] == b'[..k] && (k < |a'| ==> a'[k] < b'[k]);
        assert a[..k + 1] == [a[0]] + a'[..k] == b[..k + 1];
        assert k < |a'| ==> a'[k] == a[k + 1];
      }
      if k: nat :| k <= |a| && k < |b| && a[..k] == b[..k] && (k < |a| ==> a[k] < b[k]) {
        assert a[1..][..k - 1] == a[..k][1..] == b[1..][..k - 1];
        assert k < |a| ==> a[1..][k - 1] == a[k];
      }
    } else {
      assert a[..0] == b[..0];
      if k: nat :| k <= |a| && k < |b| && a[..k] == b[..k] && (k < |a| ==> a[k] < b[k]) {
        assert k > 0 ==> a[..k][0] == b[..k][0];
      }
    }
  }

  lemma {:induction false} LessTotal(a: string, b: string)
    ensures Less(a, b) || a == b || Less(b, a)
  {
    if a == "" || b == "" {
    } else if a[0] == b[0] {
      LessTotal(a[1..], b[1..]);
      assert a == [a[0]] + a[1..] && b == [b[0]] + b[1..];
    }
  }

  lemma {:induction false} LessTransitive(a: string, b: string, c: string)
    requires Less(a, b) && Less(b, c)
    ensures Less(a, c)
  {
    if a == "" {
    } else if a[0] == b[0] == c[0] {
      LessTransitive(a[1..], b[1..], c[1..]);
    }
  }

  lemma {:induction false} LessIrreflexive(a: string)
    ensures !Less(a, a)
  {
    if a == "" {
    } else {
      LessIrreflexive(a[1..]);
    }
  }

  predicate StrictlySorted(sets: seq<HostSet>) {
    forall i, j :: 0 <= i < j < |sets| ==> Less(sets[i].hostType, sets[j].hostType)
  }

  predicate DistinctTypes(sets: seq<HostSet>) {
    forall i, j :: 0 <= i < j < |sets| ==> sets[i].hostType != sets[j].hostType
  }

  function Insert(x: HostSet, sets: seq<HostSet>): (r: seq<HostSet>)
    ensures multiset(r) == multiset(sets) + multiset{x}
  {
    if sets == [] then [x]
    else if Less(x.hostType, sets[0].hostType) then [x] + sets
    else
      assert sets == [sets[0]] + sets[1..];
      [sets[0]] + Insert(x, sets[1..])
  }

  predicate AllAbove(t: string, sets: seq<HostSet>) {
    forall i :: 0 <= i < |sets| ==> Less(t, sets[i].hostType)
  }

  lemma SortedCons(h: HostSet, rest: seq<HostSet>)
    requires AllAbove(h.hostType, rest) && StrictlySorted(rest)
    ensures StrictlySorted([h] + rest)
  {
    var r := [h] + rest;
    forall i, j | 0 <= i < j < |r| ensures Less(r[i].hostType, r[j].hostType) {
      assert r[j] == rest[j - 1];
      if i > 0 { assert r[i] == rest[i - 1]; }
    }
  }

  lemma AboveAll(t: string, sets: seq<HostSet>)
    requires StrictlySorted(sets) && sets != [] && Less(t, sets[0].hostType)
    ensures AllAbove(t, sets)
  {
    forall i | 0 < i < |sets| ensures Less(t, sets[i].hostType) {
      LessTransitive(t, sets[0].hostType, sets[i].hostType);
    }
  }

  lemma {:induction false} AboveInsert(t: string, x: HostSet, sets: seq<HostSet>)
    requires AllAbove(t, sets) && Less(t, x.hostType)
    ensures AllAbove(t, Insert(x, sets))
  {
    if sets == [] {
    } else if Less(x.hostType, sets[0].hostType) {
      assert Insert(x, sets) == [x] + sets;
    } else {
      AboveInsert(t, x, sets[1..]);
      assert Insert(x, sets) == [sets[0]] + Insert(x, sets[1..]);
    }
  }

  lemma {:induction false} InsertSorted(x: HostSet, sets: seq<HostSet>)
    requires StrictlySorted(sets) && forall i :: 0 <= i < |sets| ==> sets[i].hostType != x.hostType
    ensures StrictlySorted(Insert(x, sets))
  {
    if sets == [] {
    } else if Less(x.hostType, sets[0].hostType) {
      AboveAll(x.hostType, sets);
      SortedCons(x, sets);
    } else {
      LessTotal(x.hostType, sets[0].hostType);
      InsertSorted(x, sets[1..]);
      AboveInsert(sets[0].hostType, x, sets[1..]);
      SortedCons(sets[0], Insert(x, sets[1..]));
    }
  }

  /** A type that comes later is not among the ones already taken. */
  lemma NewType(sets: seq<HostSet>, i: nat, taken: seq<HostSet>)
    requires DistinctTypes(sets) && i < |sets| && multiset(taken) == multiset(sets[..i])
    ensures forall j :: 0 <= j < |taken| ==> taken[j].hostType != sets[i].hostType
  {
    forall j | 0 <= j < |taken| ensures taken[j].hostType != sets[i].hostType {
      assert taken[j] in multiset(taken);
      assert taken[j] in multiset(sets[..i]);
      var k :| 0 <= k < i && sets[..i][k] == taken[j];
    }
  }

  /** sort.Slice on distinct types: a permutation in strictly ascending order. */
  method SortSlice(sets: seq<HostSet>) returns (r: seq<HostSet>)
    requires DistinctTypes(sets)
    ensures multiset(r) == multiset(sets) && StrictlySorted(r)
  {
    r := [];
    for i := 0 to |sets|
      invariant multiset(r) == multiset(sets[..i]) && StrictlySorted(r)
    {
      assert sets[..i + 1] == sets[..i] + [sets[i]];
      NewType(sets, i, r);
      InsertSorted(sets[i], r);
      r := Insert(sets[i], r);
    }
    assert sets[..|sets|] == sets;
  }
}
