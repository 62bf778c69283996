/** Labels written under a common prefix. */
module PrefixedLabels {
  import opened GoStrings

  type Pairs = map<string, string>

  /** `key` is the prefixed form of one of `keys`. */
  predicate Covers(prefix: string, keys: set<string>, key: string) {
    prefix <= key && key[|prefix|..] in keys
  }

  function Prefixed(prefix: string, m: Pairs): Pairs {
    map key | key in (set k | k in m :: prefix + k) && Covers(prefix, m.Keys, key) :: m[key[|prefix|..]]
  }

  /** The labels overridden by `m`, every key of which gets the prefix. */
  function Labelled(prefix: string, labels: Pairs, m: Pairs): Pairs {
    labels + Prefixed(prefix, m)
  }

  lemma LabelledMeans(prefix: string, labels: Pairs, m: Pairs)
    ensures
      var r := Labelled(prefix, labels, m);
      && (forall key :: key in r <==> key in labels || Covers(prefix, m.Keys, key))
      && (forall key :: key in r ==>
            r[key] == if Covers(prefix, m.Keys, key) then m[key[|prefix|..]] else labels[key])
  {
    assert forall key :: Covers(prefix, m.Keys, key) ==> key == prefix + key[|prefix|..];
    assert forall k :: (prefix + k)[|prefix|..] == k;
  }

  function Unlabelled(prefix: string, labels: Pairs, keys: set<string>): Pairs {
    map key | key in labels && !Covers(prefix, keys, key) :: labels[key]
  }

  lemma CoversOne(prefix: string, k: string, key: string)
    ensures Covers(prefix, {k}, key) <==> key == prefix + k
  {
    if Covers(prefix, {k}, key) { assert key == prefix + key[|prefix|..]; }
    assert (prefix + k)[|prefix|..] == k;
  }

  lemma CoversStep(prefix: string, keys: set<string>, k: string, key: string)
    ensures Covers(prefix, keys + {k}, key) <==> Covers(prefix, keys, key) || key == prefix + k
    ensures key == prefix + k ==> key[|prefix|..] == k
  {
    CoversOne(prefix, k, key);
  }

  lemma LabelledStep(prefix: string, labels: Pairs, m: Pairs, k: string, v: string)
    ensures Labelled(prefix, labels, m[k := v]) == Labelled(prefix, labels, m)[prefix + k := v]
  {
    var m' := m[k := v];
    var a, b := Labelled(prefix, labels, m'), Labelled(prefix, labels, m)[prefix + k := v];
    assert m'.Keys == m.Keys + {k};
    LabelledMeans(prefix, labels, m');
    LabelledMeans(prefix, labels, m);
    forall key ensures (key in a <==> key in b) && (key in a ==> a[key] == b[key]) {
      CoversStep(prefix, m.Keys, k, key);
      if Covers(prefix, m'.Keys, key) && key != prefix + k {
        CoversOne(prefix, k, key);
        assert key[|prefix|..] != k;
      }
    }
  }

  lemma LabelledNone(prefix: string, labels: Pairs)
    ensures Labelled(prefix, labels, map[]) == labels
  {
  }

  lemma UnlabelledStep(prefix: string, labels: Pairs, keys: set<string>, k: string)
    ensures Unlabelled(prefix, labels, keys + {k}) == Unlabelled(prefix, labels, keys) - {prefix + k}
  {
    forall key ensures Covers(prefix, keys + {k}, key) <==> Covers(prefix, keys, key) || key == prefix + k {
      CoversStep(prefix, keys, k, key);
    }
  }

  function Without(m: Pairs, todo: set<string>): Pairs {
    map k | k in m && k !in todo :: m[k]
  }

  lemma WithoutStep(m: Pairs, todo: set<string>, k: string)
    requires k in todo && k in m
    ensures Without(m, todo - {k}) == Without(m, todo)[k := m[k]]
  {
  }

  method AddLabels(prefix: string, labels: Pairs, m: Pairs) returns (r: Pairs)
    ensures r == Labelled(prefix, labels, m)
  {
    r := labels;
    var todo := m.Keys;
    assert Without(m, todo) == map[];
    LabelledNone(prefix, labels);
    while todo != {}
      invariant todo <= m.Keys
      invariant r == Labelled(prefix, labels, Without(m, todo))
      decreases todo
    {
      var k :| k in todo;
      LabelledStep(prefix, labels, Without(m, todo), k, m[k]);
      WithoutStep(m, todo, k);
      r := r[prefix + k := m[k]];
      todo := todo - {k};
    }
    assert Without(m, {}) == m;
  }

  method RemoveLabels(prefix: string, labels: Pairs, names: seq<string>) returns (r: Pairs)
    ensures r == Unlabelled(prefix, labels, Elements(names))
  {
    r := labels;
    assert r == Unlabelled(prefix, labels, Elements(names[..0]));
    for i := 0 to |names|
      invariant r == Unlabelled(prefix, labels, Elements(names[..i]))
    {
      UnlabelledStep(prefix, labels, Elements(names[..i]), names[i]);
      assert Elements(names[..i + 1]) == Elements(names[..i]) + {names[i]};
      r := r - {prefix + names[i]};
    }
    assert names[..|names|] == names;
  }

  /** Labelling with one more layer that is then taken off again leaves no trace of it. */
  lemma LabelledThenUnlabelled(prefix: string, labels: Pairs, m: Pairs, m': Pairs, keys: set<string>)
    requires forall k :: k !in keys ==> (k in m <==> k in m') && (k in m ==> m[k] == m'[k])
    ensures Unlabelled(prefix, Labelled(prefix, labels, m), keys)
      == Unlabelled(prefix, Labelled(prefix, labels, m'), keys)
  {
    LabelledMeans(prefix, labels, m);
    LabelledMeans(prefix, labels, m');
  }
}
