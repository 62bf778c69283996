/** JSON documents and JSON Patch (RFC 6902), as far as object members go. */
module JsonPatch {
  import opened Wrappers
  import opened JsonPointer

  /** `Other` stands for numbers, booleans, null and arrays. */
  datatype Json = Str(s: string) | Obj(fields: map<string, Json>) | Other

  datatype Operation = Add(path: string, value: Json) | Remove(path: string)

  /** Section 4.1: the parent must exist; a member that exists is replaced. */
  function AddAt(doc: Json, path: seq<string>, v: Json): Option<Json>
    decreases |path|
  {
    if path == [] then Some(v)
    else if !doc.Obj? then None
    else if |path| == 1 then Some(Obj(doc.fields[path[0] := v]))
    else if path[0] !in doc.fields then None
    else
      match AddAt(doc.fields[path[0]], path[1..], v)
      case None => None
      case Some(child) => Some(Obj(doc.fields[path[0] := child]))
  }

  /** Section 4.2: the member must exist. */
  function RemoveAt(doc: Json, path: seq<string>): Option<Json>
    decreases |path|
  {
    if path == [] || !doc.Obj? || path[0] !in doc.fields then None
    else if |path| == 1 then Some(Obj(doc.fields - {path[0]}))
    else
      match RemoveAt(doc.fields[path[0]], path[1..])
      case None => None
      case Some(child) => Some(Obj(doc.fields[path[0] := child]))
  }

  function ApplyOp(doc: Json, op: Operation): Option<Json> {
    match Tokens(op.path)
    case None => None
    case Some(path) => if op.Add? then AddAt(doc, path, op.value) else RemoveAt(doc, path)
  }

  /** Section 5: one failing operation fails the whole patch. */
  function ApplyAll(doc: Json, ops: seq<Operation>): Option<Json>
    decreases |ops|
  {
    if ops == [] then Some(doc)
    else
      match ApplyOp(doc, ops[0])
      case None => None
      case Some(next) => ApplyAll(next, ops[1..])
  }

  lemma {:induction false} ApplyAllConcat(doc: Json, one: seq<Operation>, two: seq<Operation>)
    ensures ApplyAll(doc, one + two) ==
      match ApplyAll(doc, one) case None => None case Some(mid) => ApplyAll(mid, two)
    decreases |one|
  {
    if one == [] {
      assert one + two == two;
    } else {
      assert (one + two)[1..] == one[1..] + two;
      match ApplyOp(doc, one[0]) {
        case None =>
        case Some(next) => ApplyAllConcat(next, one[1..], two);
      }
    }
  }

  lemma ApplyOne(doc: Json, ops: seq<Operation>, op: Operation)
    ensures ApplyAll(doc, ops + [op]) ==
      match ApplyAll(doc, ops) case None => None case Some(mid) => ApplyOp(mid, op)
  {
    ApplyAllConcat(doc, ops, [op]);
    assert [op][1..] == [];
  }

  // ---------------------------------------------------------------- the label object of a node

  function Wrap(a: string, extra: map<string, Json>): Json {
    Obj(map[a := Obj(extra)])
  }

  /** A node document with the given "extra" object. */
  function Doc(extra: map<string, Json>): Json {
    Wrap(EXTRA, extra)
  }

  function WithLabels(extra: map<string, Json>, m: map<string, Json>): map<string, Json> {
    extra[LABELS := Obj(m)]
  }

  /** The node's labels, if "osac_labels" is an object. */
  function Labels(extra: map<string, Json>): Option<map<string, Json>> {
    if LABELS in extra && extra[LABELS].Obj? then Some(extra[LABELS].fields) else None
  }

  lemma AddThird(a: string, b: string, key: string, extra: map<string, Json>, v: Json)
    ensures AddAt(Wrap(a, extra), [a, b, key], v) ==
      if b in extra && extra[b].Obj? then Some(Wrap(a, extra[b := Obj(extra[b].fields[key := v])])) else None
  {
    var path := [a, b, key];
    assert path[1..] == [b, key] && path[1..][1..] == [key];
    if b in extra {
      assert AddAt(extra[b], [key], v) == if extra[b].Obj? then Some(Obj(extra[b].fields[key := v])) else None;
      if extra[b].Obj? {
        var inner := extra[b := Obj(extra[b].fields[key := v])];
        assert AddAt(Obj(extra), [b, key], v) == Some(Obj(inner));
        assert map[a := Obj(extra)][a := Obj(inner)] == map[a := Obj(inner)];
      }
    }
  }

  lemma RemoveThird(a: string, b: string, key: string, extra: map<string, Json>)
    requires b in extra && extra[b].Obj? && key in extra[b].fields
    ensures RemoveAt(Wrap(a, extra), [a, b, key]) == Some(Wrap(a, extra[b := Obj(extra[b].fields - {key})]))
  {
    var path := [a, b, key];
    assert path[1..] == [b, key] && path[1..][1..] == [key];
    var inner := extra[b := Obj(extra[b].fields - {key})];
    assert RemoveAt(extra[b], [key]) == Some(Obj(extra[b].fields - {key}));
    assert RemoveAt(Obj(extra), [b, key]) == Some(Obj(inner));
    assert map[a := Obj(extra)][a := Obj(inner)] == map[a := Obj(inner)];
  }

  lemma AddSecond(a: string, b: string, extra: map<string, Json>, v: Json)
    ensures AddAt(Wrap(a, extra), [a, b], v) == Some(Wrap(a, extra[b := v]))
  {
    var path := [a, b];
    assert path[1..] == [b];
    assert AddAt(Obj(extra), [b], v) == Some(Obj(extra[b := v]));
    assert map[a := Obj(extra)][a := Obj(extra[b := v])] == map[a := Obj(extra[b := v])];
  }

  /** Adding a label works exactly when the label object is there, and overrides just that label. */
  lemma AddLabel(extra: map<string, Json>, key: string, v: Json)
    ensures ApplyOp(Doc(extra), Add(LabelPath(key), v)) ==
      if Labels(extra).Some? then Some(Doc(WithLabels(extra, Labels(extra).value[key := v]))) else None
  {
    LabelPathTokens(key);
    AddThird(EXTRA, LABELS, key, extra, v);
  }

  lemma RemoveLabel(extra: map<string, Json>, key: string)
    requires Labels(extra).Some? && key in Labels(extra).value
    ensures ApplyOp(Doc(extra), Remove(LabelPath(key))) == Some(Doc(WithLabels(extra, Labels(extra).value - {key})))
  {
    LabelPathTokens(key);
    RemoveThird(EXTRA, LABELS, key, extra);
  }

  lemma InitLabels(extra: map<string, Json>)
    ensures ApplyAll(Doc(extra), [Add(LabelsPath(), Obj(map[]))]) == Some(Doc(WithLabels(extra, map[])))
  {
    LabelPathTokens("");
    AddSecond(EXTRA, LABELS, extra, Obj(map[]));
    ApplyOne(Doc(extra), [], Add(LabelsPath(), Obj(map[])));
    assert [] + [Add(LabelsPath(), Obj(map[]))] == [Add(LabelsPath(), Obj(map[]))];
  }

  // ---------------------------------------------------------------- patches on labels

  /** An operation on one label, before its path is written down. */
  datatype Edit = Put(key: string, value: Json) | Del(key: string)

  function Render(e: Edit): Operation {
    match e
    case Put(k, v) => Add(LabelPath(k), v)
    case Del(k) => Remove(LabelPath(k))
  }

  function Rendered(es: seq<Edit>): seq<Operation> {
    seq(|es|, i requires 0 <= i < |es| => Render(es[i]))
  }

  function ApplyEdits(m: map<string, Json>, es: seq<Edit>): Option<map<string, Json>>
    decreases |es|
  {
    if es == [] then Some(m)
    else
      match es[0]
      case Put(k, v) => ApplyEdits(m[k := v], es[1..])
      case Del(k) => if k in m then ApplyEdits(m - {k}, es[1..]) else None
  }

  /** Whether an edit has its label to remove. */
  predicate Fits(m: map<string, Json>, e: Edit) {
    e.Del? ==> e.key in m
  }

  function Edited(m: map<string, Json>, e: Edit): map<string, Json> {
    if e.Put? then m[e.key := e.value] else m - {e.key}
  }

  lemma RenderApplies(extra: map<string, Json>, e: Edit)
    requires Labels(extra).Some? && Fits(Labels(extra).value, e)
    ensures ApplyOp(Doc(extra), Render(e)) == Some(Doc(WithLabels(extra, Edited(Labels(extra).value, e))))
  {
    match e
    case Put(k, v) => AddLabel(extra, k, v);
    case Del(k) => RemoveLabel(extra, k);
  }

  lemma ApplyCons(doc: Json, op: Operation, ops: seq<Operation>, next: Json)
    requires ops != [] && ops[0] == op && ApplyOp(doc, op) == Some(next)
    ensures ApplyAll(doc, ops) == ApplyAll(next, ops[1..])
  {
  }

  /** The operation does to a document's labels what the edit does, wherever that applies. */
  ghost predicate Renders(op: Operation, e: Edit) {
    forall x: map<string, Json> :: Labels(x).Some? && Fits(Labels(x).value, e) ==>
      ApplyOp(Doc(x), op) == Some(Doc(WithLabels(x, Edited(Labels(x).value, e))))
  }

  lemma WithLabelsTwice(extra: map<string, Json>, m: map<string, Json>, m': map<string, Json>)
    ensures WithLabels(WithLabels(extra, m), m') == WithLabels(extra, m')
  {
  }

  lemma {:induction false} ListMeans(extra: map<string, Json>, es: seq<Edit>, ops: seq<Operation>, m: map<string, Json>)
    requires Labels(extra).Some? && ApplyEdits(Labels(extra).value, es) == Some(m) && |ops| == |es|
    requires forall i :: 0 <= i < |es| ==> Renders(ops[i], es[i])
    ensures ApplyAll(Doc(extra), ops) == Some(Doc(WithLabels(extra, m)))
    decreases |es|
  {
    var m0 := Labels(extra).value;
    if es == [] {
      assert WithLabels(extra, m0) == extra;
    } else {
      var extra1 := WithLabels(extra, Edited(m0, es[0]));
      assert Renders(ops[0], es[0]);
      ApplyCons(Doc(extra), ops[0], ops, Doc(extra1));
      ListMeans(extra1, es[1..], ops[1..], m);
      WithLabelsTwice(extra, Edited(m0, es[0]), m);
    }
  }

  /** On a node with a label object, the rendered patch does to the document what the edits do to the labels. */
  lemma RenderedMeans(extra: map<string, Json>, es: seq<Edit>, m: map<string, Json>)
    requires Labels(extra).Some? && ApplyEdits(Labels(extra).value, es) == Some(m)
    ensures ApplyAll(Doc(extra), Rendered(es)) == Some(Doc(WithLabels(extra, m)))
  {
    var ops := Rendered(es);
    forall i, x: map<string, Json> | 0 <= i < |es| && Labels(x).Some? && Fits(Labels(x).value, es[i])
      ensures ApplyOp(Doc(x), ops[i]) == Some(Doc(WithLabels(x, Edited(Labels(x).value, es[i]))))
    {
      RenderApplies(x, es[i]);
    }
    ListMeans(extra, es, ops, m);
  }

  /** Without a label object, a patch that starts by adding a label is refused as a whole. */
  lemma NoLabelsRefused(extra: map<string, Json>, es: seq<Edit>)
    requires Labels(extra).None? && es != [] && es[0].Put?
    ensures ApplyAll(Doc(extra), Rendered(es)).None?
  {
    AddLabel(extra, es[0].key, es[0].value);
    assert Rendered(es)[0] == Render(es[0]);
  }

  lemma RenderedExtend(es: seq<Edit>, e: Edit)
    ensures Rendered(es + [e]) == Rendered(es) + [Render(e)]
  {
  }
}
