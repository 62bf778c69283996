/**
 The labels an instance puts on its host and takes off again
 (internal/controller/baremetalinstance_controller.go), and their closed form on both backends.
 */
module InventoryLabels {
  import opened Wrappers
  import opened GoStrings
  import opened JsonPatch
  import opened PrefixedLabels
  import OS = OpenStackInventory

  /** The label part of an instance's spec; `pool` is the UID of the owning pool, if any. */
  datatype LabelSpec = LabelSpec(inventory: Pairs, persistent: Pairs, pool: Option<string>)

  function PoolKeys(ls: LabelSpec): set<string> {
    if ls.pool.Some? then {OS.POOL} else {}
  }

  function Combined(ls: LabelSpec): Pairs {
    var m := ls.inventory + ls.persistent;
    if ls.pool.Some? then m[OS.POOL := ls.pool.value] else m
  }

  function RemovedKeys(ls: LabelSpec): set<string> {
    ls.inventory.Keys + PoolKeys(ls)
  }

  /** maps.Copy */
  method CopyInto(dst: Pairs, src: Pairs) returns (r: Pairs)
    ensures r == dst + src
  {
    r := dst;
    var todo := src.Keys;
    while todo != {}
      invariant todo <= src.Keys
      invariant r == dst + (map k | k in src && k !in todo :: src[k])
      decreases todo
    {
      var k :| k in todo;
      r := r[k := src[k]];
      todo := todo - {k};
    }
    assert (map k | k in src && k !in todo :: src[k]) == src;
  }

  method BuildLabels(ls: LabelSpec) returns (labels: Pairs)
    ensures labels == Combined(ls)
    ensures forall k :: k in labels <==> k in ls.inventory || k in ls.persistent || (ls.pool.Some? && k == OS.POOL)
    ensures forall k :: k in labels ==>
      labels[k] == if ls.pool.Some? && k == OS.POOL then ls.pool.value
      else if k in ls.persistent then ls.persistent[k]
      else ls.inventory[k]
  {
    labels := CopyInto(map[], ls.inventory);
    labels := CopyInto(labels, ls.persistent);
    if ls.pool.Some? {
      labels := labels[OS.POOL := ls.pool.value];
    }
  }

  method CollectLabels(ls: LabelSpec) returns (labels: seq<string>)
    ensures Elements(labels) == RemovedKeys(ls)
    ensures forall k :: k in labels <==> k in ls.inventory || (ls.pool.Some? && k == OS.POOL)
  {
    labels := [];
    var todo := ls.inventory.Keys;
    while todo != {}
      invariant todo <= ls.inventory.Keys
      invariant Elements(labels) == ls.inventory.Keys - todo
      decreases todo
    {
      var k :| k in todo;
      assert Elements(labels + [k]) == Elements(labels) + {k};
      labels := labels + [k];
      todo := todo - {k};
    }
    if ls.pool.Some? {
      assert Elements(labels + [OS.POOL]) == Elements(labels) + {OS.POOL};
      labels := labels + [OS.POOL];
    }
    assert forall k :: k in labels <==> k in Elements(labels);
  }

  // ---------------------------------------------------------------- closed form

  /** `assigns` assigns by instance `bmi`, then `unassigns` unassigns, on OpenStack labels. */
  function OpenStackHistory(m: OS.LabelMap, ls: LabelSpec, bmi: string, assigns: nat, unassigns: nat): OS.LabelMap {
    if unassigns > 0 then OpenStackHistory(m, ls, bmi, assigns, unassigns - 1) - ({OS.OWNER} + RemovedKeys(ls))
    else if assigns > 0 then OS.Assigned(OpenStackHistory(m, ls, bmi, assigns - 1, 0), bmi, Combined(ls))
    else m
  }

  /** The same on labels written under a prefix, as on a Metal3 host. */
  function Metal3History(prefix: string, m: Pairs, ls: LabelSpec, assigns: nat, unassigns: nat): Pairs {
    if unassigns > 0 then Unlabelled(prefix, Metal3History(prefix, m, ls, assigns, unassigns - 1), RemovedKeys(ls))
    else if assigns > 0 then Labelled(prefix, Metal3History(prefix, m, ls, assigns - 1, 0), Combined(ls))
    else m
  }

  /** A key that is not taken off again carries the persistent label, or what was there before. */
  lemma OnlyPersistentStays(ls: LabelSpec)
    ensures forall k :: k !in RemovedKeys(ls) ==>
      (k in Combined(ls) <==> k in ls.persistent) && (k in ls.persistent ==> Combined(ls)[k] == ls.persistent[k])
  {
  }

  lemma AssignTwice(m: OS.LabelMap, bmi: string, labels: Pairs)
    ensures OS.Assigned(OS.Assigned(m, bmi, labels), bmi, labels) == OS.Assigned(m, bmi, labels)
  {
  }

  lemma {:induction false} AssignsAbsorb(m: OS.LabelMap, ls: LabelSpec, bmi: string, assigns: nat)
    requires assigns > 0
    ensures OpenStackHistory(m, ls, bmi, assigns, 0) == OS.Assigned(m, bmi, Combined(ls))
    decreases assigns
  {
    if assigns > 1 {
      AssignsAbsorb(m, ls, bmi, assigns - 1);
      AssignTwice(m, bmi, Combined(ls));
    } else {
      assert OpenStackHistory(m, ls, bmi, 0, 0) == m;
    }
  }

  lemma AssignThenUnassign(m: OS.LabelMap, ls: LabelSpec, bmi: string)
    ensures OS.Assigned(m, bmi, Combined(ls)) - ({OS.OWNER} + RemovedKeys(ls)) ==
      (m + OS.StrMap(ls.persistent)) - ({OS.OWNER} + RemovedKeys(ls))
  {
    OnlyPersistentStays(ls);
  }

  lemma SubtractTwice(m: OS.LabelMap, keys: set<string>)
    ensures m - keys - keys == m - keys
  {
  }

  /** Any positive numbers of assigns and unassigns do what one of each does. */
  lemma {:induction false} OpenStackFolds(m: OS.LabelMap, ls: LabelSpec, bmi: string, assigns: nat, unassigns: nat)
    requires assigns > 0 && unassigns > 0
    ensures OpenStackHistory(m, ls, bmi, assigns, unassigns) ==
      (m + OS.StrMap(ls.persistent)) - ({OS.OWNER} + RemovedKeys(ls))
    decreases unassigns
  {
    var gone := {OS.OWNER} + RemovedKeys(ls);
    if unassigns > 1 {
      OpenStackFolds(m, ls, bmi, assigns, unassigns - 1);
      SubtractTwice(m + OS.StrMap(ls.persistent), gone);
    } else {
      AssignsAbsorb(m, ls, bmi, assigns);
      AssignThenUnassign(m, ls, bmi);
    }
  }

  /** While the host is claimed it carries all labels of the instance, the owner mark, and what was there before. */
  lemma OpenStackCarried(m: OS.LabelMap, ls: LabelSpec, bmi: string, assigns: nat)
    requires assigns > 0
    ensures
      var now := OpenStackHistory(m, ls, bmi, assigns, 0);
      forall k ::
        && (k in now <==>
              k == OS.OWNER || k in ls.inventory || k in ls.persistent || (ls.pool.Some? && k == OS.POOL) || k in m)
        && (k in now ==>
              now[k] == if ls.pool.Some? && k == OS.POOL then Str(ls.pool.value)
              else if k in ls.persistent then Str(ls.persistent[k])
              else if k in ls.inventory then Str(ls.inventory[k])
              else if k == OS.OWNER then Str(bmi)
              else m[k])
  {
    AssignsAbsorb(m, ls, bmi, assigns);
  }

  /**
   Retries do not matter: the old labels overridden by the persistent ones, less the owner mark,
   the non-persistent labels and the pool label.
   */
  lemma OpenStackClosedForm(m: OS.LabelMap, ls: LabelSpec, bmi: string, assigns: nat, unassigns: nat)
    requires assigns > 0 && unassigns > 0
    ensures
      var end := OpenStackHistory(m, ls, bmi, assigns, unassigns);
      forall k ::
        && (k in end <==>
              && k != OS.OWNER && k !in ls.inventory && !(ls.pool.Some? && k == OS.POOL)
              && (k in ls.persistent || k in m))
        && (k in end ==> end[k] == if k in ls.persistent then Str(ls.persistent[k]) else m[k])
  {
    OpenStackFolds(m, ls, bmi, assigns, unassigns);
  }

  lemma LabelTwice(prefix: string, m: Pairs, labels: Pairs)
    ensures Labelled(prefix, Labelled(prefix, m, labels), labels) == Labelled(prefix, m, labels)
  {
  }

  lemma {:induction false} Metal3AssignsAbsorb(prefix: string, m: Pairs, ls: LabelSpec, assigns: nat)
    requires assigns > 0
    ensures Metal3History(prefix, m, ls, assigns, 0) == Labelled(prefix, m, Combined(ls))
    decreases assigns
  {
    if assigns > 1 {
      Metal3AssignsAbsorb(prefix, m, ls, assigns - 1);
      LabelTwice(prefix, m, Combined(ls));
    } else {
      assert Metal3History(prefix, m, ls, 0, 0) == m;
    }
  }

  lemma UnlabelTwice(prefix: string, m: Pairs, keys: set<string>)
    ensures Unlabelled(prefix, Unlabelled(prefix, m, keys), keys) == Unlabelled(prefix, m, keys)
  {
  }

  lemma {:induction false} Metal3Folds(prefix: string, m: Pairs, ls: LabelSpec, assigns: nat, unassigns: nat)
    requires assigns > 0 && unassigns > 0
    ensures Metal3History(prefix, m, ls, assigns, unassigns) ==
      Unlabelled(prefix, Labelled(prefix, m, ls.persistent), RemovedKeys(ls))
    decreases unassigns
  {
    if unassigns > 1 {
      Metal3Folds(prefix, m, ls, assigns, unassigns - 1);
      UnlabelTwice(prefix, Labelled(prefix, m, ls.persistent), RemovedKeys(ls));
    } else {
      Metal3AssignsAbsorb(prefix, m, ls, assigns);
      OnlyPersistentStays(ls);
      LabelledThenUnlabelled(prefix, m, Combined(ls), ls.persistent, RemovedKeys(ls));
    }
  }

  lemma PrefixCovers(prefix: string, keys: set<string>, k: string)
    ensures Covers(prefix, keys, prefix + k) <==> k in keys
  {
    assert (prefix + k)[|prefix|..] == k;
  }

  /** The same while a Metal3 host is claimed: its labels carry the prefix. */
  lemma Metal3Carried(prefix: string, m: Pairs, ls: LabelSpec, assigns: nat, k: string)
    requires assigns > 0
    ensures
      var now := Metal3History(prefix, m, ls, assigns, 0);
      && (prefix + k in now <==>
            k in ls.inventory || k in ls.persistent || (ls.pool.Some? && k == OS.POOL) || prefix + k in m)
      && (prefix + k in now ==>
            now[prefix + k] == if ls.pool.Some? && k == OS.POOL then ls.pool.value
            else if k in ls.persistent then ls.persistent[k]
            else if k in ls.inventory then ls.inventory[k]
            else m[prefix + k])
  {
    Metal3AssignsAbsorb(prefix, m, ls, assigns);
    LabelledMeans(prefix, m, Combined(ls));
    PrefixCovers(prefix, Combined(ls).Keys, k);
    assert (prefix + k)[|prefix|..] == k;
  }

  lemma Metal3ClosedForm(prefix: string, m: Pairs, ls: LabelSpec, assigns: nat, unassigns: nat, k: string)
    requires assigns > 0 && unassigns > 0
    ensures
      var end := Metal3History(prefix, m, ls, assigns, unassigns);
      && (prefix + k in end <==>
            && k !in ls.inventory && !(ls.pool.Some? && k == OS.POOL)
            && (k in ls.persistent || prefix + k in m))
      && (prefix + k in end ==> end[prefix + k] == if k in ls.persistent then ls.persistent[k] else m[prefix + k])
  {
    Metal3Folds(prefix, m, ls, assigns, unassigns);
    LabelledMeans(prefix, m, ls.persistent);
    PrefixCovers(prefix, ls.persistent.Keys, k);
    PrefixCovers(prefix, RemovedKeys(ls), k);
    assert (prefix + k)[|prefix|..] == k;
  }

  /** Labels without the prefix are nobody's business. */
  lemma Metal3Foreign(prefix: string, m: Pairs, ls: LabelSpec, assigns: nat, unassigns: nat, key: string)
    requires assigns > 0 && !(prefix <= key)
    ensures
      var end := Metal3History(prefix, m, ls, assigns, unassigns);
      (key in end <==> key in m) && (key in m ==> end[key] == m[key])
  {
    if unassigns > 0 {
      Metal3Folds(prefix, m, ls, assigns, unassigns);
      LabelledMeans(prefix, m, ls.persistent);
    } else {
      Metal3AssignsAbsorb(prefix, m, ls, assigns);
      LabelledMeans(prefix, m, Combined(ls));
    }
  }

  /**
   Persistent labels outlive the instance exactly if none of them is also a plain label, the pool
   label of a pooled instance or the owner label; the API documentation promises it always.
   */
  lemma PersistentSurvive(m: OS.LabelMap, ls: LabelSpec, bmi: string, assigns: nat, unassigns: nat)
    requires assigns > 0 && unassigns > 0
    ensures
      var end := OpenStackHistory(m, ls, bmi, assigns, unassigns);
      (forall k :: k in ls.persistent ==> k in end && end[k] == Str(ls.persistent[k]))
      <==> (forall k :: k in ls.persistent ==>
              k != OS.OWNER && k !in ls.inventory && !(ls.pool.Some? && k == OS.POOL))
  {
    OpenStackClosedForm(m, ls, bmi, assigns, unassigns);
  }

  lemma Metal3PersistentSurvive(prefix: string, m: Pairs, ls: LabelSpec, assigns: nat, unassigns: nat)
    requires assigns > 0 && unassigns > 0
    ensures
      var end := Metal3History(prefix, m, ls, assigns, unassigns);
      (forall k :: k in ls.persistent ==> prefix + k in end && end[prefix + k] == ls.persistent[k])
      <==> (forall k :: k in ls.persistent ==> k !in ls.inventory && !(ls.pool.Some? && k == OS.POOL))
  {
    forall k | k in ls.persistent
      ensures prefix + k in Metal3History(prefix, m, ls, assigns, unassigns) <==>
        k !in ls.inventory && !(ls.pool.Some? && k == OS.POOL)
    {
      Metal3ClosedForm(prefix, m, ls, assigns, unassigns, k);
    }
    forall k | k in ls.persistent && prefix + k in Metal3History(prefix, m, ls, assigns, unassigns)
      ensures Metal3History(prefix, m, ls, assigns, unassigns)[prefix + k] == ls.persistent[k]
    {
      Metal3ClosedForm(prefix, m, ls, assigns, unassigns, k);
    }
  }
}
