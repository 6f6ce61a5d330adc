/** Redaction of the customer context before an agent job may see it. */
module Redaction {
  import opened Options
  import opened Json

  const FORBIDDEN_KEYS: set<string> := {
    "id", "customer_id", "session_id", "agent_session_id", "graph_thread_id", "account_id", "loan_id",
    "policy_id", "proposal_id", "external_ref", "api_body", "api_body_header", "api_tran_id",
    "bank_tran_id", "fintech_use_num", "card_value", "loan_repayment_id", "raw_ref"
  }

  predicate EndsInId(key: string) {
    |key| >= 3 && key[|key| - 3..] == "_id"
  }

  predicate Shown(key: string) {
    key !in FORBIDDEN_KEYS && !EndsInId(key)
  }

  function Redact(j: Json): Json {
    match j
    case Obj(fields) => Obj(RedactFields(fields))
    case Arr(items) => Arr(RedactItems(items))
    case _ => j
  }

  function RedactFields(fields: seq<Field>): seq<Field> {
    if fields == [] then []
    else
      (if Shown(fields[0].key) then [Field(fields[0].key, Redact(fields[0].value))] else [])
      + RedactFields(fields[1..])
  }

  function RedactItems(items: seq<Json>): (r: seq<Json>)
    ensures |r| == |items|
  {
    if items == [] then [] else [Redact(items[0])] + RedactItems(items[1..])
  }

  predicate ShownPath(path: seq<Step>) {
    forall i :: 0 <= i < |path| && path[i].Key? ==> Shown(path[i].key)
  }

  lemma {:induction false} RedactedLookup(fields: seq<Field>, key: string)
    ensures Lookup(RedactFields(fields), key)
            == if !Shown(key) then None
               else match Lookup(fields, key) case Some(v) => Some(Redact(v)) case None => None
  {
    if fields != [] {
      RedactedLookup(fields[1..], key);
      var rest := RedactFields(fields[1..]);
      if Shown(fields[0].key) {
        var all := [Field(fields[0].key, Redact(fields[0].value))] + rest;
        assert RedactFields(fields) == all && all[1..] == rest;
      } else {
        assert RedactFields(fields) == rest;
      }
    }
  }

  lemma {:induction false} RedactedItem(items: seq<Json>, i: nat)
    requires i < |items|
    ensures RedactItems(items)[i] == Redact(items[i])
  {
    if i > 0 {
      RedactedItem(items[1..], i - 1);
    }
  }

  lemma RedactedChild(j: Json, step: Step)
    ensures Child(Redact(j), step)
            == if step.Key? && !Shown(step.key) then None
               else match Child(j, step) case Some(c) => Some(Redact(c)) case None => None
  {
    match (j, step)
    case (Obj(fields), Key(k)) => RedactedLookup(fields, k);
    case (Arr(items), Index(i)) =>
      if i < |items| {
        RedactedItem(items, i);
      }
    case _ =>
  }

  /**
   * Redaction is exact pruning: a path leads somewhere in the redacted tree exactly when it does
   * in the raw tree and every key on it may be shown, and what stands there is the redacted value.
   */
  lemma {:induction false} ExactPruning(j: Json, path: seq<Step>)
    decreases |path|
    ensures Get(Redact(j), path)
            == if !ShownPath(path) then None
               else match Get(j, path) case Some(v) => Some(Redact(v)) case None => None
  {
    if path != [] {
      RedactedChild(j, path[0]);
      assert ShownPath(path) <==> (path[0].Key? ==> Shown(path[0].key)) && ShownPath(path[1..]) by {
        if (path[0].Key? ==> Shown(path[0].key)) && ShownPath(path[1..]) {
          forall i | 0 <= i < |path| && path[i].Key? ensures Shown(path[i].key) {
            if i > 0 {
              assert path[1..][i - 1] == path[i];
            }
          }
        }
        if ShownPath(path) {
          forall i | 0 <= i < |path[1..]| && path[1..][i].Key? ensures Shown(path[1..][i].key) {
            assert path[1..][i] == path[i + 1];
          }
        }
      }
      match Child(j, path[0])
      case Some(c) => ExactPruning(c, path[1..]);
      case None =>
    } else {
      assert ShownPath(path);
    }
  }

  /** No identifier of the tables and no field of the bank's interface is left anywhere in a redacted tree. */
  lemma NoIdentifierLeft(j: Json, path: seq<Step>, i: nat, stem: string)
    requires Get(Redact(j), path).Some? && i < |path| && path[i].Key?
    ensures path[i].key != stem + "_id" && path[i].key != "id"
    ensures path[i].key !in {"external_ref", "raw_ref", "card_value", "fintech_use_num"}
    ensures path[i].key !in {"api_body", "api_body_header"}
  {
    ExactPruning(j, path);
    assert Shown(path[i].key);
    assert (stem + "_id")[|stem|..] == "_id";
  }

  /** Nothing else is taken away: a key without these traits is kept wherever it stands. */
  lemma OthersAreKept(j: Json, path: seq<Step>)
    requires Get(j, path).Some?
    requires forall i :: 0 <= i < |path| && path[i].Key? ==>
               && path[i].key !in {"id", "external_ref", "raw_ref", "card_value", "fintech_use_num", "api_body",
                                   "api_body_header"}
               && (|path[i].key| >= 3 ==> path[i].key[|path[i].key| - 3..] != "_id")
    ensures Get(Redact(j), path).Some?
  {
    ExactPruning(j, path);
    forall i | 0 <= i < |path| && path[i].Key? ensures Shown(path[i].key) {
      if path[i].key in FORBIDDEN_KEYS {
        EndingInId(path[i].key);
      }
    }
  }

  /** Every other forbidden key ends in `_id` anyway. */
  lemma EndingInId(key: string)
    requires key in FORBIDDEN_KEYS
    requires key !in {"id", "external_ref", "raw_ref", "card_value", "fintech_use_num", "api_body", "api_body_header"}
    ensures |key| >= 3 && key[|key| - 3..] == "_id"
  {
  }

  predicate Leaf(j: Json) { !j.Obj? && !j.Arr? }

  /** Leaves and list lengths on shown paths are as they were. */
  lemma LeavesAndLengths(j: Json, path: seq<Step>)
    requires ShownPath(path) && Get(j, path).Some?
    ensures var raw := Get(j, path).value;
            var seen := Get(Redact(j), path);
            && seen.Some?
            && (Leaf(raw) ==> seen.value == raw)
            && (raw.Arr? ==> seen.value.Arr? && |seen.value.items| == |raw.items|)
            && (raw.Obj? ==> seen.value.Obj?)
  {
    ExactPruning(j, path);
  }

  /** Redacting twice is redacting once. */
  lemma {:induction false} Idempotent(j: Json)
    ensures Redact(Redact(j)) == Redact(j)
    decreases j, 1
  {
    match j
    case Obj(fields) => IdempotentFields(fields);
    case Arr(items) => IdempotentItems(items);
    case _ =>
  }

  lemma {:induction false} IdempotentFields(fields: seq<Field>)
    ensures RedactFields(RedactFields(fields)) == RedactFields(fields)
    decreases fields, 0
  {
    if fields != [] {
      Idempotent(fields[0].value);
      IdempotentFields(fields[1..]);
      var rest := RedactFields(fields[1..]);
      if Shown(fields[0].key) {
        var all := [Field(fields[0].key, Redact(fields[0].value))] + rest;
        assert all[1..] == rest;
      } else {
        assert RedactFields(fields) == rest;
      }
    }
  }

  lemma {:induction false} IdempotentItems(items: seq<Json>)
    ensures RedactItems(RedactItems(items)) == RedactItems(items)
    decreases items, 0
  {
    if items != [] {
      Idempotent(items[0]);
      IdempotentItems(items[1..]);
      var all := [Redact(items[0])] + RedactItems(items[1..]);
      assert all[1..] == RedactItems(items[1..]);
    }
  }
}
