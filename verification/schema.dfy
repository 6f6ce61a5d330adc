/** Tightening of the agent's output schema (`_make_strict_json_schema`). */
module Schema {
  import opened Options
  import opened Json

  predicate Dropped(key: string) {
    key == "default" || key == "title" || key == "description"
  }

  predicate IsObject(fields: seq<Field>) {
    Lookup(fields, "type") == Some(Str("object"))
  }

  function Strings(names: seq<string>): (r: seq<Json>)
    ensures |r| == |names|
    ensures forall i :: 0 <= i < |names| ==> r[i] == Str(names[i])
  {
    seq(|names|, i requires 0 <= i < |names| => Str(names[i]))
  }

  /** The property map of a node, when it has one. */
  function Properties(fields: seq<Field>): Option<seq<Field>> {
    match Lookup(fields, "properties")
    case Some(Obj(ps)) => Some(ps)
    case _ => None
  }

  /** The fields the pass assigns at a node. */
  function Sets(fields: seq<Field>): seq<Field> {
    if !IsObject(fields) then []
    else
      [Field("additionalProperties", Bool(false))]
      + match Properties(fields)
        case Some(ps) => [Field("required", Arr(Strings(Names(ps))))]
        case None => []
  }

  /** The whole pass: at each node pop, assign, then descend into every remaining value. */
  function Strict(j: Json): Json
    decreases j, 1
  {
    match j
    case Obj(fields) => Obj(Rewritten(fields, Sets(fields)) + Missing(Sets(fields), fields))
    case Arr(items) => Arr(StrictItems(items))
    case _ => j
  }

  /** The remaining fields in place: a key that is set takes its new value where it stands. */
  function Rewritten(fields: seq<Field>, sets: seq<Field>): seq<Field>
    decreases fields, 0
  {
    if fields == [] then []
    else
      var f := fields[0];
      (if Dropped(f.key) then []
       else match Lookup(sets, f.key)
         case Some(v) => [Field(f.key, v)]
         case None => [Field(f.key, Strict(f.value))])
      + Rewritten(fields[1..], sets)
  }

  /** Assigned keys the node did not have go to its end. */
  function Missing(sets: seq<Field>, fields: seq<Field>): seq<Field> {
    if sets == [] then []
    else
      (if Lookup(fields, sets[0].key).None? then [sets[0]] else []) + Missing(sets[1..], fields)
  }

  function StrictItems(items: seq<Json>): seq<Json>
    decreases items, 0
  {
    if items == [] then [] else [Strict(items[0])] + StrictItems(items[1..])
  }

  /* ---------- what the pass establishes ---------- */

  predicate TightNode(fields: seq<Field>) {
    IsObject(fields) ==>
      && Lookup(fields, "additionalProperties") == Some(Bool(false))
      && match Properties(fields)
         case Some(ps) => Lookup(fields, "required") == Some(Arr(Strings(Names(ps))))
         case None => true
  }

  /** At every depth, object nodes are closed and require exactly their property names. */
  predicate Tight(j: Json)
    decreases j, 1
  {
    match j
    case Obj(fields) => TightNode(fields) && TightFields(fields)
    case Arr(items) => TightItems(items)
    case _ => true
  }

  predicate TightFields(fields: seq<Field>)
    decreases fields, 0
  {
    fields == [] || (Tight(fields[0].value) && TightFields(fields[1..]))
  }

  predicate TightItems(items: seq<Json>)
    decreases items, 0
  {
    items == [] || (Tight(items[0]) && TightItems(items[1..]))
  }

  /* ---------- when it does ---------- */

  predicate NoneDropped(fields: seq<Field>) {
    fields == [] || (!Dropped(fields[0].key) && NoneDropped(fields[1..]))
  }

  /** The pass over a property map neither removes a property nor adds one. */
  predicate NamesSurvive(ps: seq<Field>) {
    NoneDropped(ps) && Missing(Sets(ps), ps) == []
  }

  predicate CleanNode(fields: seq<Field>) {
    IsObject(fields) ==>
      match Properties(fields)
      case Some(ps) => NamesSurvive(ps)
      case None => true
  }

  /**
   * No object node that the pass reaches has a property named default, title or description
   * (or a property map that itself looks like an object schema).
   */
  predicate Clean(j: Json)
    decreases j, 1
  {
    match j
    case Obj(fields) => CleanNode(fields) && CleanFields(fields, Sets(fields))
    case Arr(items) => CleanItems(items)
    case _ => true
  }

  predicate CleanFields(fields: seq<Field>, sets: seq<Field>)
    decreases fields, 0
  {
    fields == []
    || ((Dropped(fields[0].key) || Lookup(sets, fields[0].key).Some? || Clean(fields[0].value))
        && CleanFields(fields[1..], sets))
  }

  predicate CleanItems(items: seq<Json>)
    decreases items, 0
  {
    items == [] || (Clean(items[0]) && CleanItems(items[1..]))
  }

  /* ---------- one node ---------- */

  lemma {:induction false} LookupAppend(a: seq<Field>, b: seq<Field>, key: string)
    ensures Lookup(a + b, key) == if Lookup(a, key).Some? then Lookup(a, key) else Lookup(b, key)
  {
    if a == [] {
      assert a + b == b;
    } else {
      assert (a + b)[1..] == a[1..] + b;
      LookupAppend(a[1..], b, key);
    }
  }

  lemma {:induction false} RewrittenLookup(fields: seq<Field>, sets: seq<Field>, key: string)
    ensures Lookup(Rewritten(fields, sets), key)
            == if Dropped(key) || Lookup(fields, key).None? then None
               else if Lookup(sets, key).Some? then Lookup(sets, key)
               else Some(Strict(Lookup(fields, key).value))
  {
    if fields != [] {
      RewrittenLookup(fields[1..], sets, key);
      var f, rest := fields[0], Rewritten(fields[1..], sets);
      if Dropped(f.key) {
        assert Rewritten(fields, sets) == rest;
      } else {
        var first := match Lookup(sets, f.key)
          case Some(v) => Field(f.key, v)
          case None => Field(f.key, Strict(f.value));
        assert Rewritten(fields, sets) == [first] + rest;
        assert ([first] + rest)[1..] == rest;
      }
    }
  }

  lemma {:induction false} MissingLookup(sets: seq<Field>, fields: seq<Field>, key: string)
    ensures Lookup(Missing(sets, fields), key)
            == if Lookup(fields, key).Some? then None else Lookup(sets, key)
  {
    if sets != [] {
      MissingLookup(sets[1..], fields, key);
      var rest := Missing(sets[1..], fields);
      if Lookup(fields, sets[0].key).None? {
        assert ([sets[0]] + rest)[1..] == rest;
      } else {
        assert Missing(sets, fields) == rest;
      }
    }
  }

  function NodeAfter(fields: seq<Field>): seq<Field> {
    Rewritten(fields, Sets(fields)) + Missing(Sets(fields), fields)
  }

  /** What stands under a key after the pass. */
  lemma AfterLookup(fields: seq<Field>, key: string)
    ensures Lookup(NodeAfter(fields), key)
            == if Lookup(Sets(fields), key).Some? then Lookup(Sets(fields), key)
               else if Dropped(key) || Lookup(fields, key).None? then None
               else Some(Strict(Lookup(fields, key).value))
  {
    var sets := Sets(fields);
    RewrittenLookup(fields, sets, key);
    MissingLookup(sets, fields, key);
    LookupAppend(Rewritten(fields, sets), Missing(sets, fields), key);
    SetsLookup(fields, key);
  }

  lemma SetsLookup(fields: seq<Field>, key: string)
    ensures Lookup(Sets(fields), key)
            == if !IsObject(fields) then None
               else if key == "additionalProperties" then Some(Bool(false))
               else if key == "required" && Properties(fields).Some?
               then Some(Arr(Strings(Names(Properties(fields).value))))
               else None
  {
    if IsObject(fields) {
      var first := Field("additionalProperties", Bool(false));
      match Properties(fields)
      case Some(ps) =>
        var second := Field("required", Arr(Strings(Names(ps))));
        assert Sets(fields) == [first] + [second];
        LookupAppend([first], [second], key);
        assert |first.key| != |second.key|;
      case None =>
        assert Sets(fields) == [first];
        assert [first][1..] == [];
    }
  }

  /** The pass keeps a node's type and its property map, tightened. */
  lemma SameShape(fields: seq<Field>)
    ensures IsObject(NodeAfter(fields)) == IsObject(fields)
    ensures Properties(NodeAfter(fields))
            == match Properties(fields) case Some(ps) => Some(NodeAfter(ps)) case None => None
  {
    AfterLookup(fields, "type");
    SetsLookup(fields, "type");
    AfterLookup(fields, "properties");
    SetsLookup(fields, "properties");
  }

  lemma {:induction false} RewrittenNames(fields: seq<Field>, sets: seq<Field>)
    ensures NoneDropped(Rewritten(fields, sets))
    ensures NoneDropped(fields) ==> Names(Rewritten(fields, sets)) == Names(fields)
  {
    if fields != [] {
      RewrittenNames(fields[1..], sets);
      var f, rest := fields[0], Rewritten(fields[1..], sets);
      if Dropped(f.key) {
        assert Rewritten(fields, sets) == rest;
      } else {
        var first := match Lookup(sets, f.key)
          case Some(v) => Field(f.key, v)
          case None => Field(f.key, Strict(f.value));
        assert Rewritten(fields, sets) == [first] + rest;
        assert ([first] + rest)[1..] == rest;
        assert fields == [f] + fields[1..];
      }
    }
  }

  lemma {:induction false} DroppedByName(fields: seq<Field>)
    ensures NoneDropped(fields) <==> forall name :: name in Names(fields) ==> !Dropped(name)
  {
    if fields != [] {
      DroppedByName(fields[1..]);
      assert Names(fields) == [fields[0].key] + Names(fields[1..]);
    }
  }

  lemma {:induction false} MissingKept(sets: seq<Field>, fields: seq<Field>)
    requires NoneDropped(sets)
    ensures NoneDropped(Missing(sets, fields))
  {
    if sets != [] {
      MissingKept(sets[1..], fields);
      var rest := Missing(sets[1..], fields);
      if Lookup(fields, sets[0].key).None? {
        assert ([sets[0]] + rest)[1..] == rest;
      } else {
        assert Missing(sets, fields) == rest;
      }
    }
  }

  lemma SetsNotDropped(fields: seq<Field>)
    ensures NoneDropped(Sets(fields))
  {
    DroppedByName(Sets(fields));
  }

  /** A property map keeps its names exactly when none is dropped and none is added. */
  lemma NamesAfter(ps: seq<Field>)
    ensures Names(NodeAfter(ps)) == Names(ps) <==> NamesSurvive(ps)
  {
    var kept, added := Rewritten(ps, Sets(ps)), Missing(Sets(ps), ps);
    RewrittenNames(ps, Sets(ps));
    SetsNotDropped(ps);
    MissingKept(Sets(ps), ps);
    DroppedByName(ps);
    DroppedByName(kept);
    DroppedByName(added);
    assert Names(kept + added) == Names(kept) + Names(added);
    if Names(NodeAfter(ps)) == Names(ps) {
      forall name | name in Names(ps) ensures !Dropped(name) {
        assert name in Names(kept) + Names(added);
      }
      assert |Names(kept)| == |ps|;
    }
    if NamesSurvive(ps) {
      assert kept + added == kept;
    }
  }

  /* ---------- the main results ---------- */

  /** The node itself comes out tight exactly when its property names survive. */
  lemma NodeTightExactly(fields: seq<Field>)
    ensures TightNode(NodeAfter(fields)) <==> CleanNode(fields)
  {
    SameShape(fields);
    AfterLookup(fields, "additionalProperties");
    AfterLookup(fields, "required");
    SetsLookup(fields, "additionalProperties");
    SetsLookup(fields, "required");
    match Properties(fields)
    case Some(ps) =>
      NamesAfter(ps);
      StringsInjective(Names(ps), Names(NodeAfter(ps)));
    case None =>
  }

  lemma StringsInjective(a: seq<string>, b: seq<string>)
    ensures Strings(a) == Strings(b) <==> a == b
  {
    if Strings(a) == Strings(b) {
      assert |a| == |Strings(a)| == |b|;
      forall i | 0 <= i < |a| ensures a[i] == b[i] {
        assert Strings(a)[i] == Strings(b)[i];
      }
    }
  }

  lemma {:induction false} TightAppend(a: seq<Field>, b: seq<Field>)
    ensures TightFields(a + b) <==> TightFields(a) && TightFields(b)
  {
    if a == [] {
      assert a + b == b;
    } else {
      assert (a + b)[1..] == a[1..] + b;
      TightAppend(a[1..], b);
    }
  }

  lemma {:induction false} TightStrings(items: seq<Json>)
    requires forall i :: 0 <= i < |items| ==> items[i].Str?
    ensures TightItems(items)
  {
    if items != [] {
      TightStrings(items[1..]);
    }
  }

  lemma SetsTight(fields: seq<Field>, key: string)
    ensures match Lookup(Sets(fields), key) case Some(v) => Tight(v) case None => true
  {
    SetsLookup(fields, key);
    match Properties(fields)
    case Some(ps) => TightStrings(Strings(Names(ps)));
    case None =>
  }

  lemma {:induction false} MissingTight(sets: seq<Field>, fields: seq<Field>)
    requires TightFields(sets)
    ensures TightFields(Missing(sets, fields))
  {
    if sets != [] {
      MissingTight(sets[1..], fields);
      var rest := Missing(sets[1..], fields);
      if Lookup(fields, sets[0].key).None? {
        assert ([sets[0]] + rest)[1..] == rest;
      } else {
        assert Missing(sets, fields) == rest;
      }
    }
  }

  lemma AllSetsTight(fields: seq<Field>)
    ensures TightFields(Sets(fields))
  {
    if IsObject(fields) {
      var first := Field("additionalProperties", Bool(false));
      match Properties(fields)
      case Some(ps) =>
        TightStrings(Strings(Names(ps)));
        var second := Field("required", Arr(Strings(Names(ps))));
        TightAppend([first], [second]);
      case None =>
        TightAppend([first], []);
    }
  }

  /**
   * After the pass every object node at every depth is closed and requires exactly its property
   * names, if and only if the schema was clean.
   */
  lemma {:induction false} TightExactly(j: Json)
    ensures Tight(Strict(j)) <==> Clean(j)
    decreases j, 1
  {
    match j
    case Obj(fields) =>
      var sets := Sets(fields);
      NodeTightExactly(fields);
      AllSetsTight(fields);
      MissingTight(sets, fields);
      TightAppend(Rewritten(fields, sets), Missing(sets, fields));
      TightFieldsExactly(fields, fields);
    case Arr(items) => TightItemsExactly(items);
    case _ =>
  }

  lemma {:induction false} TightFieldsExactly(fields: seq<Field>, node: seq<Field>)
    ensures TightFields(Rewritten(fields, Sets(node))) <==> CleanFields(fields, Sets(node))
    decreases fields, 0
  {
    if fields != [] {
      var f, sets := fields[0], Sets(node);
      TightExactly(f.value);
      TightFieldsExactly(fields[1..], node);
      SetsTight(node, f.key);
      var rest := Rewritten(fields[1..], sets);
      if Dropped(f.key) {
        assert Rewritten(fields, sets) == rest;
      } else {
        var first := match Lookup(sets, f.key)
          case Some(v) => Field(f.key, v)
          case None => Field(f.key, Strict(f.value));
        assert Rewritten(fields, sets) == [first] + rest;
        assert ([first] + rest)[1..] == rest;
      }
    }
  }

  lemma {:induction false} TightItemsExactly(items: seq<Json>)
    ensures TightItems(StrictItems(items)) <==> CleanItems(items)
    decreases items, 0
  {
    if items != [] {
      TightExactly(items[0]);
      TightItemsExactly(items[1..]);
      assert ([Strict(items[0])] + StrictItems(items[1..]))[1..] == StrictItems(items[1..]);
    }
  }

  lemma {:induction false} RewrittenAppend(a: seq<Field>, b: seq<Field>, sets: seq<Field>)
    ensures Rewritten(a + b, sets) == Rewritten(a, sets) + Rewritten(b, sets)
  {
    hide Strict, Dropped, Lookup;
    if a == [] {
      assert a + b == b;
    } else {
      assert (a + b)[1..] == a[1..] + b;
      RewrittenAppend(a[1..], b, sets);
    }
  }

  /** Assigned values that went to the end of the node are assigned again and stay as they are. */
  lemma {:induction false} MissingStable(part: seq<Field>, node: seq<Field>, fields: seq<Field>)
    requires NoneDropped(part)
    requires forall f :: f in part ==> Lookup(Sets(node), f.key) == Some(f.value)
    ensures Rewritten(Missing(part, fields), Sets(node)) == Missing(part, fields)
  {
    if part != [] {
      MissingStable(part[1..], node, fields);
      var rest := Missing(part[1..], fields);
      if Lookup(fields, part[0].key).None? {
        assert ([part[0]] + rest)[1..] == rest;
      } else {
        assert Missing(part, fields) == rest;
      }
    }
  }

  lemma SetsFound(fields: seq<Field>, f: Field)
    requires f in Sets(fields)
    ensures Lookup(Sets(fields), f.key) == Some(f.value)
  {
    SetsLookup(fields, f.key);
    match Properties(fields)
    case Some(ps) =>
      assert Sets(fields) == [Field("additionalProperties", Bool(false)), Field("required", Arr(Strings(Names(ps))))];
      assert |"additionalProperties"| != |"required"|;
    case None =>
  }

  lemma {:induction false} NothingMissing(part: seq<Field>, fields: seq<Field>)
    requires forall f :: f in part ==> Lookup(fields, f.key).Some?
    ensures Missing(part, fields) == []
  {
    if part != [] {
      NothingMissing(part[1..], fields);
    }
  }

  /** A second pass over the node assigns the same values exactly when the property names survive. */
  lemma SetsAgainExactly(fields: seq<Field>)
    ensures Sets(NodeAfter(fields)) == Sets(fields) <==> CleanNode(fields)
  {
    SameShape(fields);
    if IsObject(fields) {
      match Properties(fields)
      case Some(ps) =>
        NamesAfter(ps);
        StringsInjective(Names(ps), Names(NodeAfter(ps)));
        var first := Field("additionalProperties", Bool(false));
        assert Sets(fields) == [first, Field("required", Arr(Strings(Names(ps))))];
        assert Sets(NodeAfter(fields)) == [first, Field("required", Arr(Strings(Names(NodeAfter(ps)))))];
        assert Sets(fields)[1].value.items == Strings(Names(ps));
        assert Sets(NodeAfter(fields))[1].value.items == Strings(Names(NodeAfter(ps)));
      case None =>
    }
  }

  /** A second pass over the whole schema changes nothing, if and only if the schema was clean. */
  lemma {:induction false} SecondPassExactly(j: Json)
    ensures Strict(Strict(j)) == Strict(j) <==> Clean(j)
    decreases j, 1
  {
    match j
    case Obj(fields) =>
      var sets, after := Sets(fields), NodeAfter(fields);
      assert Strict(j) == Obj(after);
      SetsAgainExactly(fields);
      if CleanNode(fields) {
        SecondPassNode(fields);
        SecondPassFieldsExactly(fields, fields);
        var kept, added := Rewritten(fields, sets), Missing(sets, fields);
        var again := Rewritten(kept, sets);
        assert Strict(Obj(after)) == Obj(again + added);
        assert |again| == |kept| by {
          RewrittenNames(fields, sets);
          RewrittenNames(kept, sets);
          assert |Names(again)| == |Names(kept)|;
        }
        assert again + added == kept + added <==> again == kept by {
          assert (again + added)[..|kept|] == again && (kept + added)[..|kept|] == kept;
        }
      } else {
        SecondPassDiffers(fields);
      }
    case Arr(items) => SecondPassItemsExactly(items);
    case _ =>
  }

  lemma SecondPassNode(fields: seq<Field>)
    requires Sets(NodeAfter(fields)) == Sets(fields)
    ensures NodeAfter(NodeAfter(fields))
            == Rewritten(Rewritten(fields, Sets(fields)), Sets(fields)) + Missing(Sets(fields), fields)
  {
    var sets, after := Sets(fields), NodeAfter(fields);
    RewrittenAppend(Rewritten(fields, sets), Missing(sets, fields), sets);
    SetsNotDropped(fields);
    forall f | f in sets ensures Lookup(sets, f.key) == Some(f.value) && Lookup(after, f.key).Some? {
      SetsFound(fields, f);
      AfterLookup(fields, f.key);
    }
    MissingStable(sets, fields, fields);
    NothingMissing(sets, after);
    var twice := Rewritten(Rewritten(fields, sets), sets) + Missing(sets, fields);
    assert NodeAfter(after) == twice + [];
  }

  lemma SecondPassDiffers(fields: seq<Field>)
    requires !CleanNode(fields)
    ensures NodeAfter(NodeAfter(fields)) != NodeAfter(fields)
  {
    var after := NodeAfter(fields);
    SameShape(fields);
    SameShape(after);
    AfterLookup(fields, "required");
    AfterLookup(after, "required");
    SetsLookup(fields, "required");
    SetsLookup(after, "required");
    var ps := Properties(fields).value;
    NamesAfter(ps);
    StringsInjective(Names(ps), Names(NodeAfter(ps)));
  }

  lemma {:induction false} SecondPassFieldsExactly(fields: seq<Field>, node: seq<Field>)
    ensures var sets := Sets(node);
            Rewritten(Rewritten(fields, sets), sets) == Rewritten(fields, sets) <==> CleanFields(fields, sets)
    decreases fields, 0
  {
    if fields != [] {
      var f, sets := fields[0], Sets(node);
      SecondPassExactly(f.value);
      SecondPassFieldsExactly(fields[1..], node);
      var rest := Rewritten(fields[1..], sets);
      if Dropped(f.key) {
        assert Rewritten(fields, sets) == rest;
      } else {
        var first := match Lookup(sets, f.key)
          case Some(v) => Field(f.key, v)
          case None => Field(f.key, Strict(f.value));
        var twice := match Lookup(sets, f.key)
          case Some(v) => Field(f.key, v)
          case None => Field(f.key, Strict(Strict(f.value)));
        assert Rewritten(fields, sets) == [first] + rest;
        assert ([first] + rest)[1..] == rest;
        assert Rewritten([first] + rest, sets) == [twice] + Rewritten(rest, sets);
        assert [twice] + Rewritten(rest, sets) == [first] + rest
               <==> twice == first && Rewritten(rest, sets) == rest by {
          assert ([twice] + Rewritten(rest, sets))[1..] == Rewritten(rest, sets);
          assert ([twice] + Rewritten(rest, sets))[0] == twice && ([first] + rest)[0] == first;
        }
      }
    }
  }

  lemma {:induction false} SecondPassItemsExactly(items: seq<Json>)
    ensures StrictItems(StrictItems(items)) == StrictItems(items) <==> CleanItems(items)
    decreases items, 0
  {
    if items != [] {
      SecondPassExactly(items[0]);
      SecondPassItemsExactly(items[1..]);
      var first, rest := Strict(items[0]), StrictItems(items[1..]);
      assert ([first] + rest)[1..] == rest;
      assert StrictItems([first] + rest) == [Strict(first)] + StrictItems(rest);
      assert [Strict(first)] + StrictItems(rest) == [first] + rest
             <==> Strict(first) == first && StrictItems(rest) == rest by {
        assert ([Strict(first)] + StrictItems(rest))[1..] == StrictItems(rest);
        assert ([Strict(first)] + StrictItems(rest))[0] == Strict(first) && ([first] + rest)[0] == first;
      }
    }
  }
}
