/** JSON trees. Fields keep the order of a Python dictionary. */
module Json {
  import opened Options

  datatype Json =
    | Null
    | Bool(b: bool)
    | Num(r: real)
    | Str(s: string)
    | Arr(items: seq<Json>)
    | Obj(fields: seq<Field>)

  datatype Field = Field(key: string, value: Json)

  /** The value under `key`; dictionaries hold a key at most once. */
  function Lookup(fields: seq<Field>, key: string): Option<Json> {
    if fields == [] then None
    else if fields[0].key == key then Some(fields[0].value)
    else Lookup(fields[1..], key)
  }

  function Names(fields: seq<Field>): (names: seq<string>)
    ensures |names| == |fields|
    ensures forall i :: 0 <= i < |fields| ==> names[i] == fields[i].key
  {
    seq(|fields|, i requires 0 <= i < |fields| => fields[i].key)
  }

  /* ---------- paths ---------- */

  datatype Step = Key(key: string) | Index(i: nat)

  function Child(j: Json, step: Step): Option<Json> {
    match (j, step)
    case (Obj(fields), Key(k)) => Lookup(fields, k)
    case (Arr(items), Index(i)) => if i < |items| then Some(items[i]) else None
    case _ => None
  }

  function Get(j: Json, path: seq<Step>): Option<Json>
    decreases |path|
  {
    if path == [] then Some(j)
    else match Child(j, path[0])
      case Some(c) => Get(c, path[1..])
      case None => None
  }
}
