/** The tightening pass as it runs: dictionaries and lists of the schema tree are changed in place. */
module Tightening {
  import opened Options
  import opened Json
  import opened Schema

  /* ---------- the pass in steps, on values ---------- */

  /** `node.pop(key, None)`. */
  function Pop(fields: seq<Field>, key: string): seq<Field> {
    if fields == [] then []
    else (if fields[0].key == key then [] else [fields[0]]) + Pop(fields[1..], key)
  }

  function PopAll(fields: seq<Field>): seq<Field> {
    Pop(Pop(Pop(fields, "default"), "title"), "description")
  }

  /** `node[key] = v`: where the key stands, or at the end. */
  function Put(fields: seq<Field>, key: string, v: Json): seq<Field> {
    if fields == [] then [Field(key, v)]
    else if fields[0].key == key then [Field(key, v)] + fields[1..]
    else [fields[0]] + Put(fields[1..], key, v)
  }

  /** The assignments at a dictionary: closed, and requiring its property names. */
  function Assigned(fields: seq<Field>): seq<Field> {
    if !IsObject(fields) then fields
    else
      var closed := Put(fields, "additionalProperties", Bool(false));
      match Properties(fields)
      case Some(ps) => Put(closed, "required", Arr(Strings(Names(ps))))
      case None => closed
  }

  function StrictEach(fields: seq<Field>): (r: seq<Field>)
    ensures |r| == |fields|
    ensures forall i :: 0 <= i < |fields| ==> r[i] == Field(fields[i].key, Strict(fields[i].value))
  {
    seq(|fields|, i requires 0 <= i < |fields| => Field(fields[i].key, Strict(fields[i].value)))
  }

  /** A dictionary holds a key at most once. */
  ghost predicate UniqueKeys(fields: seq<Field>) {
    forall i, j :: 0 <= i < j < |fields| ==> fields[i].key != fields[j].key
  }

  lemma EachCons(f: Field, rest: seq<Field>)
    ensures StrictEach([f] + rest) == [Field(f.key, Strict(f.value))] + StrictEach(rest)
  {
  }

  lemma PopCons(f: Field, rest: seq<Field>, key: string)
    ensures Pop([f] + rest, key) == (if f.key == key then [] else [f]) + Pop(rest, key)
  {
    assert ([f] + rest)[1..] == rest;
  }

  lemma PopAllCons(f: Field, rest: seq<Field>)
    ensures PopAll([f] + rest) == (if Dropped(f.key) then [] else [f]) + PopAll(rest)
  {
    hide Pop;
    var a := Pop(rest, "default");
    var b := Pop(a, "title");
    PopCons(f, rest, "default");
    PopCons(f, a, "title");
    PopCons(f, b, "description");
    assert [] + a == a && [] + b == b && [] + Pop(b, "description") == Pop(b, "description");
  }

  lemma {:induction false} KeysOf(fields: seq<Field>, key: string)
    ensures Lookup(fields, key).Some? <==> exists i :: 0 <= i < |fields| && fields[i].key == key
  {
    if fields != [] && fields[0].key != key {
      KeysOf(fields[1..], key);
      if Lookup(fields, key).Some? {
        var i :| 0 <= i < |fields[1..]| && fields[1..][i].key == key;
        assert fields[i + 1].key == key;
      } else {
        assert forall i :: 1 <= i < |fields| ==> fields[i] == fields[1..][i - 1];
      }
    }
  }

  /** Without assignments, popping and descending is the rewriting of the pass. */
  lemma {:induction false} PoppedEach(fields: seq<Field>)
    ensures StrictEach(PopAll(fields)) == Rewritten(fields, [])
  {
    if fields != [] {
      var f, rest := fields[0], fields[1..];
      assert fields == [f] + rest;
      PoppedEach(rest);
      PopAllCons(f, rest);
      if Dropped(f.key) {
        assert [] + PopAll(rest) == PopAll(rest);
      } else {
        EachCons(f, PopAll(rest));
      }
    }
  }

  lemma PutCons(f: Field, rest: seq<Field>, key: string, v: Json)
    ensures Put([f] + rest, key, v) == if f.key == key then [Field(key, v)] + rest else [f] + Put(rest, key, v)
  {
    assert ([f] + rest)[1..] == rest;
  }

  lemma RewrittenCons(f: Field, rest: seq<Field>, sets: seq<Field>)
    ensures Rewritten([f] + rest, sets)
            == (if Dropped(f.key) then []
                else [Field(f.key, if Lookup(sets, f.key).Some? then Lookup(sets, f.key).value else Strict(f.value))])
               + Rewritten(rest, sets)
  {
    assert ([f] + rest)[1..] == rest;
  }

  lemma LookupCons(f: Field, rest: seq<Field>, key: string)
    ensures Lookup([f] + rest, key) == if f.key == key then Some(f.value) else Lookup(rest, key)
  {
    assert ([f] + rest)[1..] == rest;
  }

  /** One more assignment to a rewritten dictionary. */
  lemma {:induction false} OneMore(fields: seq<Field>, sets: seq<Field>, s: Field)
    requires UniqueKeys(fields) && !Dropped(s.key) && Lookup(sets, s.key).None?
    ensures Put(Rewritten(fields, sets), s.key, s.value)
            == Rewritten(fields, sets + [s]) + if Lookup(fields, s.key).None? then [s] else []
  {
    hide Strict, Dropped;
    if fields != [] {
      var f, rest := fields[0], fields[1..];
      assert fields == [f] + rest;
      OneMore(rest, sets, s);
      OneMoreCons(f, rest, sets, s);
    }
  }

  lemma OneMoreCons(f: Field, rest: seq<Field>, sets: seq<Field>, s: Field)
    requires UniqueKeys([f] + rest) && !Dropped(s.key) && Lookup(sets, s.key).None?
    requires Put(Rewritten(rest, sets), s.key, s.value)
             == Rewritten(rest, sets + [s]) + if Lookup(rest, s.key).None? then [s] else []
    ensures Put(Rewritten([f] + rest, sets), s.key, s.value)
            == Rewritten([f] + rest, sets + [s]) + if Lookup([f] + rest, s.key).None? then [s] else []
  {
    hide Strict, Dropped, Rewritten, Put;
    RewrittenCons(f, rest, sets);
    RewrittenCons(f, rest, sets + [s]);
    LookupCons(f, rest, s.key);
    LookupAppend(sets, [s], f.key);
    LookupCons(s, [], f.key);
    assert [s] + [] == [s];
    if Dropped(f.key) {
      assert [] + Rewritten(rest, sets) == Rewritten(rest, sets);
      assert [] + Rewritten(rest, sets + [s]) == Rewritten(rest, sets + [s]);
    } else {
      var first := Field(f.key, if Lookup(sets, f.key).Some? then Lookup(sets, f.key).value else Strict(f.value));
      PutCons(first, Rewritten(rest, sets), s.key, s.value);
      if f.key == s.key {
        KeysOf(rest, s.key);
        assert forall i :: 0 <= i < |rest| ==> rest[i] == ([f] + rest)[i + 1];
        RewrittenSame(rest, sets, s);
      }
    }
  }

  lemma {:induction false} RewrittenSame(fields: seq<Field>, sets: seq<Field>, s: Field)
    requires Lookup(fields, s.key).None?
    ensures Rewritten(fields, sets + [s]) == Rewritten(fields, sets)
  {
    if fields != [] {
      LookupAppend(sets, [s], fields[0].key);
      RewrittenSame(fields[1..], sets, s);
    }
  }

  /** Descending after an assignment, of a value the descent leaves alone, is assigning afterwards. */
  lemma {:induction false} PutEach(fields: seq<Field>, key: string, v: Json)
    requires Strict(v) == v
    ensures StrictEach(Put(fields, key, v)) == Put(StrictEach(fields), key, v)
  {
    hide Strict;
    if fields != [] {
      var f, rest := fields[0], fields[1..];
      assert fields == [f] + rest;
      PutEach(rest, key, v);
      PutCons(f, rest, key, v);
      EachCons(f, rest);
      PutCons(Field(f.key, Strict(f.value)), StrictEach(rest), key, v);
      EachCons(Field(key, v), rest);
      EachCons(f, Put(rest, key, v));
    }
  }

  lemma {:induction false} PutAppend(a: seq<Field>, b: seq<Field>, key: string, v: Json)
    ensures Put(a + b, key, v) == if Lookup(a, key).Some? then Put(a, key, v) + b else a + Put(b, key, v)
  {
    if a == [] {
      assert a + b == b;
      assert a + Put(b, key, v) == Put(b, key, v);
    } else {
      PutAppend(a[1..], b, key, v);
      assert a == [a[0]] + a[1..];
      PutAppendCons(a[0], a[1..], b, key, v);
    }
  }

  lemma PutAppendCons(f: Field, rest: seq<Field>, b: seq<Field>, key: string, v: Json)
    requires Put(rest + b, key, v) == if Lookup(rest, key).Some? then Put(rest, key, v) + b else rest + Put(b, key, v)
    ensures var a := [f] + rest;
            Put(a + b, key, v) == if Lookup(a, key).Some? then Put(a, key, v) + b else a + Put(b, key, v)
  {
    hide Put, Lookup;
    assert ([f] + rest) + b == [f] + (rest + b);
    assert ([f] + rest) + Put(b, key, v) == [f] + (rest + Put(b, key, v));
    assert ([f] + Put(rest, key, v)) + b == [f] + (Put(rest, key, v) + b);
    PutCons(f, rest + b, key, v);
    PutCons(f, rest, key, v);
    LookupCons(f, rest, key);
  }

  lemma {:induction false} PopLookup(fields: seq<Field>, gone: string, key: string)
    requires key != gone
    ensures Lookup(Pop(fields, gone), key) == Lookup(fields, key)
  {
    if fields != [] {
      PopLookup(fields[1..], gone, key);
      LookupAppend(if fields[0].key == gone then [] else [fields[0]], Pop(fields[1..], gone), key);
    }
  }

  lemma PopAllLookup(fields: seq<Field>, key: string)
    requires !Dropped(key)
    ensures Lookup(PopAll(fields), key) == Lookup(fields, key)
  {
    PopLookup(fields, "default", key);
    PopLookup(Pop(fields, "default"), "title", key);
    PopLookup(Pop(Pop(fields, "default"), "title"), "description", key);
  }

  lemma {:induction false} StringsAreStrict(names: seq<string>)
    ensures StrictItems(Strings(names)) == Strings(names)
  {
    if names != [] {
      assert Strings(names)[1..] == Strings(names[1..]);
      StringsAreStrict(names[1..]);
      assert Strings(names) == [Str(names[0])] + Strings(names[1..]);
    }
  }

  /** Popping, assigning and then descending, key by key, is the pass at a dictionary. */
  lemma PassInSteps(fields: seq<Field>)
    requires UniqueKeys(fields)
    ensures StrictEach(Assigned(PopAll(fields))) == NodeAfter(fields)
  {
    hide Strict, Put, Pop, Rewritten, Lookup, Missing, PopAll;
    var popped := PopAll(fields);
    PopAllLookup(fields, "type");
    PopAllLookup(fields, "properties");
    PoppedEach(fields);
    if IsObject(fields) {
      ClosedInSteps(fields);
      match Properties(fields)
      case Some(ps) => RequiringInSteps(fields, ps);
      case None => assert [Closed()] + [] == [Closed()];
    } else {
      NothingMissing(fields);
      assert Rewritten(fields, []) + [] == Rewritten(fields, []);
    }
  }

  lemma NothingMissing(fields: seq<Field>)
    ensures Missing([], fields) == []
  {
  }

  function Closed(): Field { Field("additionalProperties", Bool(false)) }

  function Requiring(ps: seq<Field>): Field { Field("required", Arr(Strings(Names(ps)))) }

  lemma MissingOne(s: Field, fields: seq<Field>)
    ensures Missing([s], fields) == if Lookup(fields, s.key).None? then [s] else []
  {
    assert [s][1..] == [];
  }

  lemma MissingTwo(a: Field, b: Field, fields: seq<Field>)
    ensures Missing([a] + [b], fields) == Missing([a], fields) + Missing([b], fields)
  {
    assert ([a] + [b])[1..] == [b] && [a][1..] == [];
  }

  lemma ClosedInSteps(fields: seq<Field>)
    requires UniqueKeys(fields)
    ensures StrictEach(Put(PopAll(fields), Closed().key, Closed().value))
            == Rewritten(fields, [Closed()]) + Missing([Closed()], fields)
  {
    PoppedEach(fields);
    PutEach(PopAll(fields), Closed().key, Closed().value);
    OneMore(fields, [], Closed());
    MissingOne(Closed(), fields);
    assert [] + [Closed()] == [Closed()];
  }

  lemma RequiringInSteps(fields: seq<Field>, ps: seq<Field>)
    requires UniqueKeys(fields)
    ensures StrictEach(Put(Put(PopAll(fields), Closed().key, Closed().value), Requiring(ps).key, Requiring(ps).value))
            == Rewritten(fields, [Closed()] + [Requiring(ps)]) + Missing([Closed()] + [Requiring(ps)], fields)
  {
    hide Put, Rewritten, Lookup, Missing, PopAll;
    var c, r := Closed(), Requiring(ps);
    assert c.key != r.key by { assert |c.key| != |r.key|; }
    StringsAreStrict(Names(ps));
    ClosedInSteps(fields);
    PutEach(Put(PopAll(fields), c.key, c.value), r.key, r.value);
    LookupCons(c, [], r.key);
    assert [c] + [] == [c];
    EmptyLookup(r.key);
    OneMore(fields, [c], r);
    MissingOne(c, fields);
    MissingOne(r, fields);
    MissingTwo(c, r, fields);
    AfterTwo(fields, c, r);
  }

  lemma EmptyLookup(key: string)
    ensures Lookup([], key) == None
  {
  }

  lemma AfterTwo(fields: seq<Field>, c: Field, r: Field)
    requires c.key != r.key && !Dropped(r.key)
    requires Put(Rewritten(fields, [c]), r.key, r.value)
             == Rewritten(fields, [c] + [r]) + if Lookup(fields, r.key).None? then [r] else []
    ensures Put(Rewritten(fields, [c]) + Missing([c], fields), r.key, r.value)
            == Rewritten(fields, [c] + [r]) + (Missing([c], fields) + Missing([r], fields))
  {
    hide Put, Rewritten, Missing, Strict;
    var written, more := Rewritten(fields, [c]), Missing([c], fields);
    MissingOne(c, fields);
    MissingOne(r, fields);
    RewrittenLookup(fields, [c], r.key);
    LookupCons(c, [], r.key);
    assert [c] + [] == [c];
    PutAppend(written, more, r.key, r.value);
    PutMissing(more, c, r);
    if Lookup(fields, r.key).None? {
      RewrittenSame(fields, [c], r);
    }
  }

  lemma PutMissing(more: seq<Field>, c: Field, r: Field)
    requires more == [] || more == [c]
    requires c.key != r.key
    ensures Put(more, r.key, r.value) == more + [r]
  {
    if more == [c] {
      assert more[1..] == [];
    }
  }

  /* ---------- the tree in memory ---------- */

  /** A value in a dictionary or list: a container, or an atom in which the pass finds nothing to do. */
  datatype Ref = Atom(j: Json) | Container(c: Node)

  /** A dictionary entry; list items carry no key of their own. */
  datatype Slot = Slot(key: string, value: Ref)

  /** Scalars, and the list of names that the pass itself assigns. */
  predicate Plain(j: Json) {
    match j
    case Obj(_) => false
    case Arr(items) => forall i :: 0 <= i < |items| ==> items[i].Str?
    case _ => true
  }

  ghost function RefValue(r: Ref): Json
    reads if r.Container? then {r.c} else {}
  {
    match r
    case Atom(j) => j
    case Container(c) => c.value
  }

  /** A Python dictionary or list. `value` is the JSON tree it stands for, `repr` the containers in it. */
  class Node {
    const list: bool
    var slots: seq<Slot>
    ghost var value: Json
    ghost var repr: set<Node>

    ghost predicate Valid()
      reads this, repr
      decreases repr, 1
    {
      this in repr && Held(slots) && Shown(slots, value)
    }

    /** The containers in `ss` are valid trees of their own, apart from each other and from this node. */
    ghost predicate Held(ss: seq<Slot>)
      reads this, repr
      decreases repr, 0
    {
      && (forall i :: 0 <= i < |ss| ==> match ss[i].value
            case Atom(j) => Plain(j)
            case Container(c) => c in repr && c.repr <= repr - {this} && this in repr && c.Valid())
      && (forall i, j :: 0 <= i < j < |ss| && ss[i].value.Container? && ss[j].value.Container? ==>
            ss[i].value.c in repr && ss[j].value.c in repr && ss[i].value.c.repr !! ss[j].value.c.repr)
    }

    /** The tree `v` is what the slots hold. */
    ghost predicate Shown(ss: seq<Slot>, v: Json)
      reads set i | 0 <= i < |ss| && ss[i].value.Container? :: ss[i].value.c
    {
      if list then
        v.Arr? && |v.items| == |ss| && forall i :: 0 <= i < |ss| ==> v.items[i] == RefValue(ss[i].value)
      else
        v.Obj? && |v.fields| == |ss| && UniqueKeys(v.fields)
        && forall i :: 0 <= i < |ss| ==> v.fields[i] == Field(ss[i].key, RefValue(ss[i].value))
    }

    /** The position of a key, or the number of entries. */
    method Position(key: string) returns (i: nat)
      requires Valid() && !list
      ensures i <= |slots| && (i < |slots| ==> slots[i].key == key)
      ensures forall j :: 0 <= j < i ==> slots[j].key != key
    {
      i := 0;
      while i < |slots| && slots[i].key != key
        invariant i <= |slots| && forall j :: 0 <= j < i ==> slots[j].key != key
      {
        i := i + 1;
      }
    }

    lemma HeldWithout(ss: seq<Slot>, i: nat)
      requires Held(ss) && i < |ss|
      ensures Held(ss[..i] + ss[i + 1..])
    {
    }

    lemma ShownWithout(ss: seq<Slot>, fields: seq<Field>, i: nat)
      requires !list && Shown(ss, Obj(fields)) && i < |ss|
      ensures Shown(ss[..i] + ss[i + 1..], Obj(fields[..i] + fields[i + 1..]))
    {
    }

    lemma HeldWith(ss: seq<Slot>, i: nat, slot: Slot)
      requires Held(ss) && i <= |ss| && slot.value.Atom? && Plain(slot.value.j)
      ensures Held(if i < |ss| then ss[i := slot] else ss + [slot])
    {
    }

    lemma ShownWith(ss: seq<Slot>, fields: seq<Field>, i: nat, key: string, j: Json)
      requires !list && Shown(ss, Obj(fields)) && i <= |ss|
      requires (i < |ss| ==> ss[i].key == key) && (i == |ss| ==> forall k :: 0 <= k < |ss| ==> ss[k].key != key)
      ensures var slot, field := Slot(key, Atom(j)), Field(key, j);
              Shown(if i < |ss| then ss[i := slot] else ss + [slot],
                    Obj(if i < |ss| then fields[i := field] else fields + [field]))
    {
    }

    /** The entries are replaced; the containers among them are some of those held before. */
    method Become(ss: seq<Slot>, ghost v: Json)
      requires this in repr && Held(ss) && Shown(ss, v)
      modifies this`slots, this`value
      ensures Valid() && slots == ss && value == v
    {
      slots := ss;
      value := v;
    }

    /** `node.pop(key, None)`. */
    method PopKey(key: string)
      requires Valid() && !list
      modifies this`slots, this`value
      ensures Valid() && value == Obj(Pop(old(value.fields), key))
    {
      var i := Position(key);
      if i == |slots| {
        PopNone(value.fields, key);
      } else {
        PopAt(value.fields, key, i);
        HeldWithout(slots, i);
        ShownWithout(slots, value.fields, i);
        Become(slots[..i] + slots[i + 1..], Obj(value.fields[..i] + value.fields[i + 1..]));
      }
    }

    /** `node[key] = j`. */
    method SetKey(key: string, j: Json)
      requires Valid() && !list && Plain(j)
      modifies this`slots, this`value
      ensures Valid() && value == Obj(Put(old(value.fields), key, j))
    {
      var i := Position(key);
      PutAt(value.fields, key, j, i);
      HeldWith(slots, i, Slot(key, Atom(j)));
      ShownWith(slots, value.fields, i, key, j);
      Become(if i < |slots| then slots[i := Slot(key, Atom(j))] else slots + [Slot(key, Atom(j))],
             Obj(Put(value.fields, key, j)));
    }

    /** `node.get(key)`. */
    method GetKey(key: string) returns (r: Option<Ref>)
      requires Valid() && !list
      ensures Lookup(value.fields, key) == match r case Some(v) => Some(RefValue(v)) case None => None
      ensures r.Some? && r.value.Container? ==>
                r.value.c in repr && r.value.c.Valid() && (r.value.c.value.Arr? || r.value.c.value.Obj?)
      ensures r.Some? && r.value.Atom? ==> Plain(r.value.j)
    {
      var i := Position(key);
      LookupAt(value.fields, key, i);
      r := if i < |slots| then Some(slots[i].value) else None;
    }

    /** The property names, if this is a dictionary. */
    method Keys() returns (names: Option<seq<string>>)
      requires Valid()
      ensures names == if value.Obj? then Some(Names(value.fields)) else None
    {
      if list {
        return None;
      }
      var keys := [];
      for i := 0 to |slots|
        invariant keys == Names(value.fields)[..i]
      {
        keys := keys + [slots[i].key];
      }
      assert keys == Names(value.fields);
      names := Some(keys);
    }

    /** The part of the pass at a dictionary itself: pop, close, require. */
    method TightenHere()
      requires Valid() && !list
      modifies this`slots, this`value
      ensures Valid() && value == Obj(Assigned(PopAll(old(value.fields))))
    {
      hide Valid, Held, Shown, Put, Pop, Lookup;
      PopKey("default");
      PopKey("title");
      PopKey("description");
      ghost var popped := value.fields;
      var kind := GetKey("type");
      if kind == Some(Atom(Str("object"))) {
        SetKey("additionalProperties", Bool(false));
        PutLookup(popped, "additionalProperties", Bool(false), "properties");
        var properties := GetKey("properties");
        if properties.Some? && properties.value.Container? {
          var names := properties.value.c.Keys();
          if names.Some? {
            SetKey("required", Arr(Strings(names.value)));
          }
        }
      }
    }

    /** The whole pass, in place. */
    method Tighten()
      requires Valid()
      modifies repr
      ensures Valid() && repr == old(repr) && value == Strict(old(value))
      decreases repr, 2
    {
      if !list {
        PassInSteps(value.fields);
        TightenHere();
      }
      ghost var start := value;
      PartlyNothing(start);
      for i := 0 to |slots|
        invariant Valid() && repr == old(repr) && |slots| == Size(start) && value == Partly(start, i)
      {
        Descend(i, start);
      }
      PartlyAll(start);
    }

    /** The pass over one value of this container. */
    method Descend(i: nat, ghost start: Json)
      requires Valid() && i < |slots| == Size(start) && value == Partly(start, i)
      modifies repr
      ensures Valid() && repr == old(repr) && slots == old(slots) && value == Partly(start, i + 1)
      decreases repr, 1
    {
      hide Strict, Partly, Plain, UniqueKeys, Shown, Fits;
      ghost var before := value;
      ShownParts(slots, before);
      if slots[i].value.Atom? {
        AtomStays(slots, i);
      } else {
        TightenChild(i);
      }
      value := Partly(start, i + 1);
      ShownNext(slots, start, i);
    }

    lemma ShownParts(ss: seq<Slot>, v: Json)
      requires Shown(ss, v)
      ensures Fits(list, ss, v) && forall k :: 0 <= k < |ss| ==> RefValue(ss[k].value) == Part(v, k)
    {
    }

    /** One more value has been tightened, and the rest stands as it stood. */
    lemma ShownNext(ss: seq<Slot>, start: Json, i: nat)
      requires i < |ss| == Size(start) && Fits(list, ss, Partly(start, i))
      requires forall k :: 0 <= k < |ss| ==>
                 RefValue(ss[k].value)
                 == if k == i then Strict(Part(Partly(start, i), k)) else Part(Partly(start, i), k)
      ensures Shown(ss, Partly(start, i + 1))
    {
      hide Strict;
      PartlyKeys(start, i);
    }

    /** An atom is left alone, and rightly so. */
    lemma AtomStays(ss: seq<Slot>, i: nat)
      requires Held(ss) && i < |ss| && ss[i].value.Atom?
      ensures Strict(RefValue(ss[i].value)) == RefValue(ss[i].value)
    {
      PlainStrict(ss[i].value.j);
    }

    /** A contained dictionary or list changes; its neighbours do not. */
    method TightenChild(i: nat)
      requires Valid() && i < |slots| && slots[i].value.Container?
      modifies slots[i].value.c.repr
      ensures this in repr && Held(slots) && unchanged(this)
      ensures forall k :: 0 <= k < |slots| ==>
                RefValue(slots[k].value)
                == if k == i then Strict(old(RefValue(slots[k].value))) else old(RefValue(slots[k].value))
      decreases repr, 0
    {
      hide Strict, UniqueKeys, Plain, Shown;
      var c := slots[i].value.c;
      c.Tighten();
      forall k | 0 <= k < |slots| && k != i && slots[k].value.Container?
        ensures var d := slots[k].value.c;
                d.repr == old(d.repr) && d.value == old(d.value) && d.Valid() && d.repr !! c.repr && d in repr
      {
        var d := slots[k].value.c;
        assert old(d.Valid());
        assert old(d.repr !! c.repr);
      }
    }
  }

  /** The `k`-th value of a list or dictionary. */
  function Part(v: Json, k: nat): Json {
    match v
    case Arr(items) => if k < |items| then items[k] else Null
    case Obj(fields) => if k < |fields| then fields[k].value else Null
    case _ => Null
  }

  /** A tree of the slots' kind, length and keys. */
  ghost predicate Fits(list: bool, ss: seq<Slot>, v: Json) {
    if list then v.Arr? && |v.items| == |ss|
    else v.Obj? && |v.fields| == |ss| && UniqueKeys(v.fields)
         && forall i :: 0 <= i < |ss| ==> v.fields[i].key == ss[i].key
  }

  lemma PartlyKeys(v: Json, n: nat)
    ensures v.Obj? ==> (UniqueKeys(Partly(v, n).fields) <==> UniqueKeys(v.fields))
    ensures v.Obj? ==> (UniqueKeys(Partly(v, n + 1).fields) <==> UniqueKeys(v.fields))
  {
    if v.Obj? {
      assert forall i :: 0 <= i < |v.fields| ==> v.fields[i].key == Partly(v, n).fields[i].key;
      assert forall i :: 0 <= i < |v.fields| ==> v.fields[i].key == Partly(v, n + 1).fields[i].key;
    }
  }

  function Size(v: Json): nat {
    match v case Arr(items) => |items| case Obj(fields) => |fields| case _ => 0
  }

  lemma PartlyNothing(v: Json)
    ensures Partly(v, 0) == v
  {
    match v
    case Arr(items) => assert Partly(v, 0).items == items;
    case Obj(fields) => assert Partly(v, 0).fields == fields;
    case _ =>
  }

  lemma PartlyAll(v: Json)
    ensures v.Arr? ==> Partly(v, Size(v)) == Strict(v)
    ensures v.Obj? ==> Partly(v, Size(v)) == Obj(StrictEach(v.fields))
  {
    match v
    case Arr(items) =>
      ItemsEach(items);
      assert Partly(v, Size(v)).items == StrictItems(items);
    case Obj(fields) => assert Partly(v, Size(v)).fields == StrictEach(fields);
    case _ =>
  }

  lemma {:induction false} ItemsEach(items: seq<Json>)
    ensures |StrictItems(items)| == |items|
    ensures forall i :: 0 <= i < |items| ==> StrictItems(items)[i] == Strict(items[i])
  {
    if items != [] {
      ItemsEach(items[1..]);
    }
  }

  ghost function Partly(v: Json, n: nat): Json {
    match v
    case Arr(items) => Arr(seq(|items|, k requires 0 <= k < |items| => if k < n then Strict(items[k]) else items[k]))
    case Obj(fields) =>
      Obj(seq(|fields|, k requires 0 <= k < |fields| =>
        if k < n then Field(fields[k].key, Strict(fields[k].value)) else fields[k]))
    case _ => v
  }

  lemma PlainStrict(j: Json)
    requires Plain(j)
    ensures Strict(j) == j
  {
    if j.Arr? {
      PlainItems(j.items);
    }
  }

  lemma {:induction false} PlainItems(items: seq<Json>)
    requires forall i :: 0 <= i < |items| ==> items[i].Str?
    ensures StrictItems(items) == items
  {
    if items != [] {
      PlainItems(items[1..]);
    }
  }

  lemma {:induction false} PutLookup(fields: seq<Field>, key: string, v: Json, other: string)
    requires key != other
    ensures Lookup(Put(fields, key, v), other) == Lookup(fields, other)
  {
    if fields != [] {
      PutLookup(fields[1..], key, v, other);
      PutCons(fields[0], fields[1..], key, v);
      assert fields == [fields[0]] + fields[1..];
      LookupCons(fields[0], Put(fields[1..], key, v), other);
      LookupCons(Field(key, v), fields[1..], other);
    }
  }

  lemma {:induction false} PutAt(fields: seq<Field>, key: string, v: Json, i: nat)
    requires i <= |fields| && forall j :: 0 <= j < i ==> fields[j].key != key
    requires i < |fields| ==> fields[i].key == key
    ensures Put(fields, key, v) == if i < |fields| then fields[i := Field(key, v)] else fields + [Field(key, v)]
  {
    if i > 0 {
      PutAt(fields[1..], key, v, i - 1);
      assert fields == [fields[0]] + fields[1..];
    }
  }

  lemma {:induction false} LookupAt(fields: seq<Field>, key: string, i: nat)
    requires i <= |fields| && forall j :: 0 <= j < i ==> fields[j].key != key
    requires i < |fields| ==> fields[i].key == key
    ensures Lookup(fields, key) == if i < |fields| then Some(fields[i].value) else None
  {
    if i > 0 {
      LookupAt(fields[1..], key, i - 1);
    }
  }

  lemma {:induction false} PopNone(fields: seq<Field>, key: string)
    requires forall i :: 0 <= i < |fields| ==> fields[i].key != key
    ensures Pop(fields, key) == fields
  {
    if fields != [] {
      PopNone(fields[1..], key);
    }
  }

  lemma {:induction false} PopAt(fields: seq<Field>, key: string, i: nat)
    requires i < |fields| && fields[i].key == key && UniqueKeys(fields)
    ensures Pop(fields, key) == fields[..i] + fields[i + 1..]
  {
    if i == 0 {
      PopNone(fields[1..], key);
    } else {
      PopAt(fields[1..], key, i - 1);
      assert fields[..i] == [fields[0]] + fields[1..][..i - 1] && fields[1..][i..] == fields[i + 1..];
    }
  }
}
