/**
 The instances of a BareMetalPool as its controller sees them
 (internal/controller/baremetalpool_controller.go): the store, the groups by host type, what the spec
 asks for and what the status reports.
 */
module PoolGroups {
  import opened Wrappers
  import opened HostTypes

  type Name = nat

  datatype PoolRef = PoolRef(namespace: nat, uid: nat)

  /** A stored BareMetalInstance as the pool controller sees it. */
  datatype Inst = Inst(
    namespace: nat,
    pool: Option<nat>,
    hostType: string,
    deleting: bool,
    finalizers: bool,
    ready: bool)

  type Store = map<Name, Inst>

  /** The listed instances per host type; None is the nil placeholder of an instance just created. */
  type Groups = map<string, seq<Option<Name>>>

  const MAX_INT32: int := 0x7FFF_FFFF

  /** Conversion to int32 keeps the low 32 bits. */
  function Int32(x: int): int {
    if -0x8000_0000 <= x <= MAX_INT32 then x else (x + 0x8000_0000) % 0x1_0000_0000 - 0x8000_0000
  }

  lemma Int32Means(x: int)
    ensures -0x8000_0000 <= Int32(x) <= MAX_INT32 && (x - Int32(x)) % 0x1_0000_0000 == 0
  {
  }

  predicate Mine(p: PoolRef, i: Inst) {
    i.namespace == p.namespace && i.pool == Some(p.uid)
  }

  function LiveNames(s: Store, p: PoolRef, t: string): set<Name> {
    set n | n in s && Mine(p, s[n]) && !s[n].deleting && s[n].hostType == t
  }

  /** The pool's instances that no Delete has reached. */
  function Undeleted(p: PoolRef, s: Store): set<Name> {
    set n | n in s && Mine(p, s[n]) && !s[n].deleting
  }

  function Entries(g: Groups, t: string): seq<Option<Name>> {
    if t in g then g[t] else []
  }

  /** The group counts the live instances of its type. */
  predicate Counts(s: Store, p: PoolRef, g: Groups, t: string) {
    |Entries(g, t)| == |LiveNames(s, p, t)|
  }

  /** The group names the live instances of its type, each once. */
  predicate Names(s: Store, p: PoolRef, es: seq<Option<Name>>, t: string) {
    && (forall i :: 0 <= i < |es| ==> es[i].Some? && es[i].value in LiveNames(s, p, t))
    && (forall i, j :: 0 <= i < j < |es| ==> es[i] != es[j])
    && (forall n :: n in LiveNames(s, p, t) ==> Some(n) in es)
  }

  /**
   Instances of other pools and other namespaces stay as they are, and none is added to them. The
   pool's own ones are only created, not Ready, or deleted.
   */
  predicate Framed(p: PoolRef, before: Store, after: Store) {
    && (forall n :: n in before && !Mine(p, before[n]) ==> n in after && after[n] == before[n])
    && (forall n :: n in after && !(n in before && before[n] == after[n]) ==> Mine(p, after[n]))
    && (forall n :: n in after && after[n].ready ==>
          n in before && before[n] == after[n].(deleting := before[n].deleting))
  }

  lemma FramedTransitive(p: PoolRef, s0: Store, s1: Store, s2: Store)
    requires Framed(p, s0, s1) && Framed(p, s1, s2)
    ensures Framed(p, s0, s2)
  {
  }

  predicate NonEmpty(g: Groups) {
    forall t :: t in g ==> g[t] != []
  }

  /** Scaling type `t` leaves every other type's group and instances alone. */
  ghost predicate Elsewhere(p: PoolRef, t: string, s: Store, g: Groups, s': Store, g': Groups) {
    && (forall u :: u != t ==> Entries(g', u) == Entries(g, u) && LiveNames(s', p, u) == LiveNames(s, p, u))
    && g'.Keys <= g.Keys + {t}
    && Framed(p, s, s')
  }

  lemma ElsewhereTransitive(p: PoolRef, t: string, s: Store, g: Groups, s1: Store, g1: Groups, s2: Store, g2: Groups)
    requires Elsewhere(p, t, s, g, s1, g1) && Elsewhere(p, t, s1, g1, s2, g2)
    ensures Elsewhere(p, t, s, g, s2, g2)
  {
  }

  // ---------------------------------------------------------------- counting

  function NameSet(es: seq<Option<Name>>): set<Name> {
    set i | 0 <= i < |es| && es[i].Some? :: es[i].value
  }

  lemma {:induction false} NameSetSize(es: seq<Option<Name>>)
    requires forall i :: 0 <= i < |es| ==> es[i].Some?
    requires forall i, j :: 0 <= i < j < |es| ==> es[i] != es[j]
    ensures |NameSet(es)| == |es|
  {
    if es == [] {
      assert NameSet(es) == {};
    } else {
      var k := |es| - 1;
      NameSetSize(es[..k]);
      forall n ensures n in NameSet(es) <==> n in NameSet(es[..k]) + {es[k].value} {
        if n in NameSet(es) {
          var i :| 0 <= i < |es| && es[i].Some? && es[i].value == n;
          if i < k { assert es[..k][i] == es[i]; }
        }
        if n in NameSet(es[..k]) {
          var i :| 0 <= i < k && es[..k][i].Some? && es[..k][i].value == n;
          assert es[i].value == n;
        }
      }
      assert NameSet(es) == NameSet(es[..k]) + {es[k].value};
      assert es[k].value !in NameSet(es[..k]);
    }
  }

  lemma NamesCount(s: Store, p: PoolRef, es: seq<Option<Name>>, t: string)
    requires Names(s, p, es, t)
    ensures |es| == |LiveNames(s, p, t)| && NameSet(es) == LiveNames(s, p, t)
  {
    NameSetSize(es);
    forall n | n in LiveNames(s, p, t) ensures n in NameSet(es) {
      assert Some(n) in es;
    }
    assert NameSet(es) == LiveNames(s, p, t);
  }

  /** `es` names exactly the live instances of type `t` among `seen`, each once. */
  predicate GroupOk(s: Store, p: PoolRef, es: seq<Option<Name>>, seen: seq<Name>, t: string) {
    && (forall i :: 0 <= i < |es| ==> es[i].Some? && es[i].value in seen && es[i].value in LiveNames(s, p, t))
    && (forall i, j :: 0 <= i < j < |es| ==> es[i] != es[j])
    && (forall n :: n in seen && n in LiveNames(s, p, t) ==> Some(n) in es)
  }

  lemma GroupExtend(s: Store, p: PoolRef, es: seq<Option<Name>>, seen: seq<Name>, n: Name, t: string)
    requires GroupOk(s, p, es, seen, t) && n !in seen
    ensures GroupOk(s, p, if n in LiveNames(s, p, t) then es + [Some(n)] else es, seen + [n], t)
  {
    var es' := if n in LiveNames(s, p, t) then es + [Some(n)] else es;
    forall m | m in seen + [n] && m in LiveNames(s, p, t) ensures Some(m) in es' {
      if m in seen { assert Some(m) in es; } else { assert es'[|es|] == Some(m); }
    }
  }

  /** The store after a Delete of `n` took effect. */
  function Deleted(s: Store, n: Name): Store
    requires n in s
  {
    if s[n].finalizers then s[n := s[n].(deleting := true)] else s - {n}
  }

  lemma DeletedLive(s: Store, p: PoolRef, n: Name, t: string)
    requires n in s
    ensures LiveNames(Deleted(s, n), p, t) == LiveNames(s, p, t) - {n}
  {
  }

  lemma CreatedLive(s: Store, p: PoolRef, n: Name, i: Inst, t: string)
    requires n !in s && Mine(p, i) && !i.deleting
    ensures LiveNames(s[n := i], p, t) == if t == i.hostType then LiveNames(s, p, t) + {n} else LiveNames(s, p, t)
  {
  }

  /** Creating `i` adds it to its type and leaves every other type alone. */
  lemma CreatedElsewhere(p: PoolRef, s: Store, g: Groups, n: Name, i: Inst, g': Groups)
    requires n !in s && Mine(p, i) && !i.deleting && !i.ready && Counts(s, p, g, i.hostType)
    requires g' == g || g' == g[i.hostType := Entries(g, i.hostType) + [None]]
    ensures Elsewhere(p, i.hostType, s, g, s[n := i], g')
    ensures Counts(s[n := i], p, g', i.hostType) <==> g' != g
  {
    forall u ensures LiveNames(s[n := i], p, u) ==
      if u == i.hostType then LiveNames(s, p, u) + {n} else LiveNames(s, p, u)
    {
      CreatedLive(s, p, n, i, u);
    }
    assert n !in LiveNames(s, p, i.hostType);
    assert Framed(p, s, s[n := i]);
    assert |Entries(g[i.hostType := Entries(g, i.hostType) + [None]], i.hostType)| == |Entries(g, i.hostType)| + 1;
  }

  lemma DeletedFramed(p: PoolRef, s: Store, n: Name)
    requires n in s && Mine(p, s[n])
    ensures Framed(p, s, Deleted(s, n))
  {
  }

  /** `n` is as it was, or has been deleted: marked if it has finalizers, gone if not. */
  predicate KeptOrDeleted(before: Store, after: Store, n: Name) {
    if n in after then
      n in before && (after[n] == before[n] || (before[n].finalizers && after[n] == before[n].(deleting := true)))
    else n in before ==> !before[n].finalizers
  }

  /** Some of the pool's instances have been deleted, and that is all. */
  ghost predicate Shrunk(p: PoolRef, before: Store, after: Store) {
    Framed(p, before, after) && forall n :: KeptOrDeleted(before, after, n)
  }

  lemma ShrunkDelete(p: PoolRef, s0: Store, s: Store, n: Name)
    requires Shrunk(p, s0, s) && n in s && Mine(p, s[n])
    ensures Shrunk(p, s0, Deleted(s, n))
  {
    DeletedFramed(p, s, n);
    FramedTransitive(p, s0, s, Deleted(s, n));
    forall m ensures KeptOrDeleted(s0, Deleted(s, n), m) {
      assert KeptOrDeleted(s0, s, m);
    }
  }

  /** Deleting a live instance takes it from its type and leaves every other type alone. */
  lemma DeletedElsewhere(p: PoolRef, t: string, s: Store, g: Groups, n: Name)
    requires n in LiveNames(s, p, t)
    ensures Elsewhere(p, t, s, g, Deleted(s, n), g)
    ensures LiveNames(Deleted(s, n), p, t) == LiveNames(s, p, t) - {n}
  {
    forall u ensures LiveNames(Deleted(s, n), p, u) == LiveNames(s, p, u) - {n} {
      DeletedLive(s, p, n, u);
    }
    DeletedFramed(p, s, n);
  }

  /** The listed instances from the `i`th on that have to be deleted. */
  function StillLive(items: seq<Name>, i: nat, s: Store): set<Name> {
    set j | i <= j < |items| && items[j] in s && !s[items[j]].deleting :: items[j]
  }

  lemma StillLiveStep(items: seq<Name>, i: nat, s: Store)
    requires i < |items| && items[i] in s
    requires forall j, k :: 0 <= j < k < |items| ==> items[j] != items[k]
    ensures |StillLive(items, i, s)| == |StillLive(items, i + 1, s)| + if s[items[i]].deleting then 0 else 1
  {
    var rest := StillLive(items, i + 1, s);
    if s[items[i]].deleting {
      assert StillLive(items, i, s) == rest;
    } else {
      assert StillLive(items, i, s) == rest + {items[i]};
    }
  }

  /** The groups without the last entry of `t`; an emptied group is dropped. */
  function WithoutLast(g: Groups, t: string): (r: Groups)
    requires t in g && g[t] != []
    ensures Entries(r, t) == g[t][..|g[t]| - 1] && (t in r <==> |g[t]| > 1)
    ensures NonEmpty(g) ==> NonEmpty(r)
  {
    if |g[t]| == 1 then g - {t} else g[t := g[t][..|g[t]| - 1]]
  }

  lemma WithoutLastElsewhere(p: PoolRef, t: string, s: Store, g: Groups, s': Store)
    requires t in g && g[t] != [] && Elsewhere(p, t, s, g, s', g)
    ensures Elsewhere(p, t, s, g, s', WithoutLast(g, t))
  {
  }

  lemma NamesDropLast(s: Store, p: PoolRef, es: seq<Option<Name>>, t: string)
    requires es != [] && Names(s, p, es, t)
    ensures es[|es| - 1].Some? && es[|es| - 1].value in s
    ensures Names(Deleted(s, es[|es| - 1].value), p, es[..|es| - 1], t)
  {
    var k := |es| - 1;
    var n := es[k].value;
    DeletedLive(s, p, n, t);
    forall m | m in LiveNames(s, p, t) - {n} ensures Some(m) in es[..k] {
      assert Some(m) in es;
      var i :| 0 <= i < |es| && es[i] == Some(m);
      assert es[..k][i] == Some(m);
    }
  }

  lemma {:induction false} FreshBound(names: set<Name>) returns (n: Name)
    ensures forall m :: m in names ==> m < n
    decreases |names|
  {
    if names == {} {
      n := 0;
    } else {
      var m :| m in names;
      var rest := FreshBound(names - {m});
      n := if rest > m then rest else m + 1;
      forall k: Name | k in names ensures k < n {
        assert k == m || k in names - {m};
      }
    }
  }

  lemma FreshName(s: Store) returns (n: Name)
    ensures n !in s
  {
    n := FreshBound(s.Keys);
  }

  lemma NamesKept(s: Store, s': Store, p: PoolRef, es: seq<Option<Name>>, t: string)
    requires Names(s, p, es, t) && LiveNames(s', p, t) == LiveNames(s, p, t)
    ensures Names(s', p, es, t)
  {
  }

  // ---------------------------------------------------------------- spec and status

  predicate ValidSpec(spec: seq<HostSet>) {
    forall i :: 0 <= i < |spec| ==> 0 <= spec[i].replicas <= MAX_INT32
  }

  /** The replicas the spec asks for; a later entry of the same type wins. */
  function SpecReplicas(spec: seq<HostSet>, t: string): Option<int> {
    if spec == [] then None
    else if spec[|spec| - 1].hostType == t then Some(spec[|spec| - 1].replicas)
    else SpecReplicas(spec[..|spec| - 1], t)
  }

  function Desired(spec: seq<HostSet>, t: string): int {
    match SpecReplicas(spec, t) case None => 0 case Some(n) => n
  }

  lemma {:induction false} DesiredValid(spec: seq<HostSet>, t: string)
    requires ValidSpec(spec)
    ensures 0 <= Desired(spec, t) <= MAX_INT32
  {
    if spec == [] {
    } else if spec[|spec| - 1].hostType != t {
      DesiredValid(spec[..|spec| - 1], t);
    }
  }

  /** The status gives `n` for type `t`; zero is reported by leaving the type out. */
  predicate Reports(sets: seq<HostSet>, t: string, n: int) {
    && (n > 0 ==> HostSet(t, n) in sets)
    && (forall x :: x in sets && x.hostType == t ==> x.replicas == n && n > 0)
  }

  lemma ReportsUnique(sets: seq<HostSet>, t: string, m: int, n: int)
    requires m >= 0 && n >= 0 && Reports(sets, t, m) && Reports(sets, t, n)
    ensures m == n
  {
    assert m > 0 ==> HostSet(t, m) in sets;
    assert n > 0 ==> HostSet(t, n) in sets;
  }

  /** Type `t` is as the list call found it. */
  predicate Untouched(p: PoolRef, s: Store, g: Groups, s0: Store, g0: Groups, t: string) {
    Entries(g, t) == Entries(g0, t) && LiveNames(s, p, t) == LiveNames(s0, p, t)
  }

  /** Type `t` has `n` instances; if it had as many before, the first `n` of the list are left. */
  predicate Done(p: PoolRef, s: Store, g: Groups, g0: Groups, n: int, t: string) {
    && |Entries(g, t)| == n
    && (n <= |Entries(g0, t)| ==> Names(s, p, Entries(g0, t)[..n], t))
  }

  /** Every group lists the live instances of its type, and an int32 can count them. */
  ghost predicate AllListed(p: PoolRef, s: Store, g: Groups) {
    forall t :: Names(s, p, Entries(g, t), t) && |Entries(g, t)| <= MAX_INT32
  }

  ghost predicate AllSmall(g: Groups) {
    forall t :: |Entries(g, t)| <= MAX_INT32
  }

  ghost predicate AllCounted(p: PoolRef, s: Store, g: Groups) {
    forall t :: Counts(s, p, g, t)
  }

  ghost predicate AllDone(p: PoolRef, spec: seq<HostSet>, g0: Groups, s: Store, g: Groups) {
    forall t :: Done(p, s, g, g0, Desired(spec, t), t)
  }

  /** The live counts are what the spec asks for. */
  ghost predicate Matches(p: PoolRef, s: Store, spec: seq<HostSet>) {
    forall t :: |LiveNames(s, p, t)| == Desired(spec, t)
  }

  ghost predicate Progress(p: PoolRef, spec: seq<HostSet>, todo: set<string>,
                           s0: Store, g0: Groups, s: Store, g: Groups) {
    && Framed(p, s0, s)
    && forall t ::
      && Counts(s, p, g, t) && |Entries(g, t)| <= MAX_INT32
      && (if t in todo then Untouched(p, s, g, s0, g0, t) else Done(p, s, g, g0, Desired(spec, t), t))
  }

  lemma ProgressStart(p: PoolRef, spec: seq<HostSet>, todo: set<string>, s: Store, g: Groups)
    requires AllListed(p, s, g)
    requires forall t :: t !in todo ==> t !in g && Desired(spec, t) == 0
    ensures Progress(p, spec, todo, s, g, s, g)
  {
    forall t
      ensures Counts(s, p, g, t)
      ensures t !in todo ==> Done(p, s, g, g, Desired(spec, t), t)
    {
      NamesCount(s, p, Entries(g, t), t);
      if t !in todo { assert Entries(g, t)[..0] == Entries(g, t); }
    }
  }

  lemma ProgressReady(p: PoolRef, spec: seq<HostSet>, todo: set<string>, t: string,
                      s0: Store, g0: Groups, s: Store, g: Groups)
    requires Progress(p, spec, todo, s0, g0, s, g) && t in todo && ValidSpec(spec) && AllListed(p, s0, g0)
    ensures Names(s, p, Entries(g, t), t) && |Entries(g, t)| <= MAX_INT32 && 0 <= Desired(spec, t) <= MAX_INT32
    ensures Entries(g, t) == Entries(g0, t) && |Entries(g, t)| == |LiveNames(s0, p, t)|
  {
    assert Untouched(p, s, g, s0, g0, t) && Counts(s, p, g, t);
    NamesKept(s0, s, p, Entries(g0, t), t);
    DesiredValid(spec, t);
  }

  lemma ProgressEnd(p: PoolRef, spec: seq<HostSet>, s0: Store, g0: Groups, s: Store, g: Groups)
    requires Progress(p, spec, {}, s0, g0, s, g)
    ensures AllDone(p, spec, g0, s, g) && AllCounted(p, s, g) && AllSmall(g) && Framed(p, s0, s)
  {
    forall t ensures Done(p, s, g, g0, Desired(spec, t), t) && Counts(s, p, g, t) && |Entries(g, t)| <= MAX_INT32 {
      assert Counts(s, p, g, t);
    }
  }

  lemma ProgressStep(p: PoolRef, spec: seq<HostSet>, todo: set<string>, t: string,
                     s0: Store, g0: Groups, s: Store, g: Groups, s': Store, g': Groups)
    requires Progress(p, spec, todo, s0, g0, s, g) && Elsewhere(p, t, s, g, s', g')
    requires Counts(s', p, g', t) && |Entries(g', t)| <= MAX_INT32 && Done(p, s', g', g0, Desired(spec, t), t)
    ensures Progress(p, spec, todo - {t}, s0, g0, s', g')
  {
    FramedTransitive(p, s0, s, s');
    forall u | u != t
      ensures Counts(s', p, g', u) && |Entries(g', u)| <= MAX_INT32
      ensures if u in todo then Untouched(p, s', g', s0, g0, u) else Done(p, s', g', g0, Desired(spec, u), u)
    {
      assert Counts(s, p, g, u);
      if u !in todo && Desired(spec, u) <= |Entries(g0, u)| {
        NamesKept(s, s', p, Entries(g0, u)[..Desired(spec, u)], u);
      }
    }
  }

  /** A failed call leaves the other types counted, and its own exactly if it did not land. */
  lemma ProgressBroken(p: PoolRef, spec: seq<HostSet>, todo: set<string>, t: string,
                       s0: Store, g0: Groups, s: Store, g: Groups, s': Store, g': Groups)
    requires Progress(p, spec, todo, s0, g0, s, g) && Elsewhere(p, t, s, g, s', g')
    requires |Entries(g', t)| <= MAX_INT32
    ensures AllCounted(p, s', g') <==> Counts(s', p, g', t)
    ensures AllSmall(g') && Framed(p, s0, s')
  {
    FramedTransitive(p, s0, s, s');
    forall u | u != t ensures Counts(s', p, g', u) && |Entries(g', u)| <= MAX_INT32 {
      assert Counts(s, p, g, u);
    }
  }

  // ---------------------------------------------------------------- the work to do

  /** Create and Delete calls that type `t` needs. */
  function Cost(p: PoolRef, s: Store, spec: seq<HostSet>, t: string): nat {
    var live := |LiveNames(s, p, t)|;
    if Desired(spec, t) >= live then Desired(spec, t) - live else live - Desired(spec, t)
  }

  ghost function CostOf(p: PoolRef, s: Store, spec: seq<HostSet>, ts: set<string>): nat
    decreases |ts|
  {
    if ts == {} then 0
    else
      var t :| t in ts;
      Cost(p, s, spec, t) + CostOf(p, s, spec, ts - {t})
  }

  /** The types that the spec asks for or that have live instances. */
  function Types(p: PoolRef, s: Store, spec: seq<HostSet>): set<string> {
    (set n | n in s && Mine(p, s[n]) && !s[n].deleting :: s[n].hostType) + (set x | x in spec :: x.hostType)
  }

  /** All calls that bring the pool to its spec. */
  ghost function Work(p: PoolRef, s: Store, spec: seq<HostSet>): nat {
    CostOf(p, s, spec, Types(p, s, spec))
  }

  lemma {:induction false} CostRemove(p: PoolRef, s: Store, spec: seq<HostSet>, ts: set<string>, t: string)
    requires t in ts
    ensures CostOf(p, s, spec, ts) == Cost(p, s, spec, t) + CostOf(p, s, spec, ts - {t})
    decreases |ts|
  {
    var u :| u in ts && CostOf(p, s, spec, ts) == Cost(p, s, spec, u) + CostOf(p, s, spec, ts - {u});
    if u != t {
      CostRemove(p, s, spec, ts - {u}, t);
      CostRemove(p, s, spec, ts - {t}, u);
      assert ts - {u} - {t} == ts - {t} - {u};
    }
  }

  lemma {:induction false} SpecReplicasFound(spec: seq<HostSet>, t: string)
    ensures SpecReplicas(spec, t).Some? <==> exists x :: x in spec && x.hostType == t
  {
    if spec == [] {
    } else if spec[|spec| - 1].hostType == t {
      assert spec[|spec| - 1] in spec;
    } else {
      var rest := spec[..|spec| - 1];
      SpecReplicasFound(rest, t);
      assert spec == rest + [spec[|spec| - 1]];
    }
  }

  lemma {:induction false} CostOfNone(p: PoolRef, s: Store, spec: seq<HostSet>, ts: set<string>)
    ensures CostOf(p, s, spec, ts) == 0 <==> forall t :: t in ts ==> Cost(p, s, spec, t) == 0
    decreases ts
  {
    if ts == {} {
    } else {
      var t :| t in ts;
      CostRemove(p, s, spec, ts, t);
      CostOfNone(p, s, spec, ts - {t});
      assert forall u :: u in ts <==> u == t || u in ts - {t};
    }
  }

  /** There is nothing to do exactly if every type has what the spec asks for. */
  lemma WorkDone(p: PoolRef, s: Store, spec: seq<HostSet>)
    ensures Work(p, s, spec) == 0 <==> Matches(p, s, spec)
  {
    var ts := Types(p, s, spec);
    CostOfNone(p, s, spec, ts);
    forall t | t !in ts ensures |LiveNames(s, p, t)| == 0 == Desired(spec, t) {
      SpecReplicasFound(spec, t);
      assert LiveNames(s, p, t) == {};
    }
    if Matches(p, s, spec) {
      forall t ensures Cost(p, s, spec, t) == 0 {
        assert |LiveNames(s, p, t)| == Desired(spec, t);
      }
    } else {
      var t :| |LiveNames(s, p, t)| != Desired(spec, t);
      assert Cost(p, s, spec, t) != 0;
    }
  }

  /** The types found by grouping and in the spec are all there are. */
  lemma TypesListed(p: PoolRef, s: Store, g: Groups, spec: seq<HostSet>, t: string)
    requires Names(s, p, Entries(g, t), t) && NonEmpty(g)
    ensures t in Types(p, s, spec) <==> t in g || SpecReplicas(spec, t).Some?
  {
    SpecReplicasFound(spec, t);
    if t in g {
      assert g[t][0].value in LiveNames(s, p, t);
    }
    if n :| n in s && Mine(p, s[n]) && !s[n].deleting && s[n].hostType == t {
      assert n in LiveNames(s, p, t) && Some(n) in Entries(g, t);
    }
  }
}
