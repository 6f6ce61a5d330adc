/** Plan items, the parameters stored with a proposal, and the target the executor reads back. */
module Proposals {
  import opened Policy

  /** A JSON value as far as the executor looks into it. */
  datatype Value =
    | Null
    | Truth(b: bool)
    | Num(r: real)
    | Text(s: string)
    | Items(items: seq<Value>)
    | Obj(fields: map<string, Value>)

  type Params = map<string, Value>

  const TARGET := "target_high_risk_weight"
  const LOW_TARGET := "target_low_risk_weight"
  const NESTED := "execution_params"
  const DEFAULT_TARGET: real := 0.45

  /** `execution_params` of a plan item; absent fields are null there. */
  datatype ExecutionParams = ExecutionParams(
    targetHigh: Value,
    targetLow: Value,
    buffer: Value,
    reviewReason: Value,
    focus: Value,
    notes: Value)

  const NO_EXECUTION_PARAMS := ExecutionParams(Null, Null, Null, Null, Null, Null)

  /** A step of a proposal's preview; texts that are null in the source may be null here. */
  datatype ExecutionStep = ExecutionStep(
    action: string,
    target: string,
    amountKrw: Value,
    currentValue: Value,
    targetValue: Value,
    reason: string,
    needsCustomer: bool)

  /** The dump of a step, nulls included. */
  function StepDump(step: ExecutionStep): Value {
    Obj(map["action" := Text(step.action), "target" := Text(step.target), "amount_krw" := step.amountKrw,
            "current_value" := step.currentValue, "target_value" := step.targetValue,
            "reason" := Text(step.reason), "requires_customer_approval" := Truth(step.needsCustomer)])
  }

  function StepDumps(steps: seq<ExecutionStep>): (dumps: seq<Value>)
    ensures |dumps| == |steps|
    ensures forall i :: 0 <= i < |steps| ==> dumps[i] == StepDump(steps[i])
  {
    seq(|steps|, i requires 0 <= i < |steps| => StepDump(steps[i]))
  }

  datatype Item = Item(
    kind: Kind,
    external: bool,
    params: Params,
    execution: ExecutionParams,
    summary: string,
    steps: seq<ExecutionStep>)

  function SetIfPresent(m: Params, key: string, v: Value): Params {
    if v.Null? then m else m[key := v]
  }

  /** The dump that leaves nulls out. */
  function Dump(e: ExecutionParams): Params {
    var a := SetIfPresent(map[], TARGET, e.targetHigh);
    var b := SetIfPresent(a, LOW_TARGET, e.targetLow);
    var c := SetIfPresent(b, "liquidity_buffer_krw", e.buffer);
    var d := SetIfPresent(c, "insurance_review_reason", e.reviewReason);
    var f := SetIfPresent(d, "report_focus", e.focus);
    SetIfPresent(f, "notes", e.notes)
  }

  /** What is stored in the proposal row for a plan item. */
  function StoredParams(item: Item): Params {
    var withSummary :=
      if item.summary == "" then item.params else item.params["execution_summary" := Text(item.summary)];
    var withSteps :=
      if item.steps == [] then withSummary else withSummary["execution_steps" := Items(StepDumps(item.steps))];
    var dump := Dump(item.execution);
    if dump == map[] then withSteps
    else
      var nested := withSteps[NESTED := Obj(dump)];
      // every dumped key that the item's own parameters lack is added at the top level
      dump + nested
  }

  /** The part of a plan item that becomes a proposal row. */
  datatype Draft = Draft(kind: Kind, external: bool, params: Params)

  function DraftOf(item: Item): Draft { Draft(item.kind, item.external, StoredParams(item)) }

  function Drafts(items: seq<Item>): (drafts: seq<Draft>)
    ensures |drafts| == |items|
    ensures forall i :: 0 <= i < |items| ==> drafts[i] == DraftOf(items[i])
  {
    seq(|items|, i requires 0 <= i < |items| => DraftOf(items[i]))
  }

  /** Python truthiness. */
  predicate Truthy(v: Value) {
    match v
    case Null => false
    case Truth(b) => b
    case Num(r) => r != 0.0
    case Text(s) => s != ""
    case Items(vs) => vs != []
    case Obj(m) => m != map[]
  }

  function Or(a: Value, b: Value): Value {
    if Truthy(a) then a else b
  }

  function Lookup(m: Params, key: string): Value {
    if key in m then m[key] else Null
  }

  function NestedParams(params: Params): Params {
    match Lookup(params, NESTED)
    case Obj(m) => m
    case _ => map[]
  }

  /** The `or` chain by which the executor picks its target. */
  function TargetValue(params: Params): Value {
    Or(Lookup(params, TARGET), Or(Lookup(NestedParams(params), TARGET), Num(DEFAULT_TARGET)))
  }

  /** The target as a number; the plan schema admits only numbers and null here. */
  function TargetHigh(params: Params): real {
    match TargetValue(params)
    case Num(r) => r
    case Truth(b) => if b then 1.0 else 0.0
    case _ => DEFAULT_TARGET
  }

  function TargetLow(target: real): real {
    if 1.0 - target > 0.0 then 1.0 - target else 0.0
  }

  lemma DumpTarget(e: ExecutionParams)
    ensures Lookup(Dump(e), TARGET) == e.targetHigh
    ensures NESTED !in Dump(e)
    ensures Dump(e) == map[] <==> e == NO_EXECUTION_PARAMS
  {
    if e.targetLow != Null {
      assert LOW_TARGET in Dump(e);
    }
    if e.buffer != Null {
      assert "liquidity_buffer_krw" in Dump(e);
    }
    if e.reviewReason != Null {
      assert "insurance_review_reason" in Dump(e);
    }
    if e.focus != Null {
      assert "report_focus" in Dump(e);
    }
    if e.notes != Null {
      assert "notes" in Dump(e);
    }
    assert "execution_params" != "notes" && "execution_params" != "report_focus";
  }

  /**
   * The target survives the merge: the executor uses the first truthy one of the item's own
   * parameter, the item's execution parameter and the default. The only other source is an
   * `execution_params` entry among the item's own parameters, and it matters exactly when the
   * item's execution parameters are all null.
   */
  lemma TargetSurvives(item: Item)
    ensures TargetValue(StoredParams(item)) ==
            Or(Lookup(item.params, TARGET),
               Or(if item.execution == NO_EXECUTION_PARAMS
                  then Lookup(NestedParams(item.params), TARGET)
                  else item.execution.targetHigh,
                  Num(DEFAULT_TARGET)))
    ensures NESTED !in item.params ==>
              TargetValue(StoredParams(item)) ==
              Or(Lookup(item.params, TARGET), Or(item.execution.targetHigh, Num(DEFAULT_TARGET)))
  {
    DumpTarget(item.execution);
    assert TARGET != "execution_summary" && TARGET != "execution_steps" && TARGET != NESTED by {
      assert TARGET[0] != NESTED[0];
    }
    assert NESTED != "execution_summary" && NESTED != "execution_steps" by {
      assert |NESTED| != |"execution_summary"|;
      assert NESTED[10] != "execution_steps"[10];
    }
    var stored := StoredParams(item);
    if item.execution != NO_EXECUTION_PARAMS {
      assert stored[NESTED] == Obj(Dump(item.execution));
    }
  }

  /**
   * The target as a number: the first of the item's own entry and the nested one that is a number
   * other than zero; a target of zero counts as none.
   */
  lemma TargetInNumbers(params: Params, own: real, nested: real)
    requires Lookup(params, "target_high_risk_weight") == Num(own)
    requires Lookup(NestedParams(params), "target_high_risk_weight") == Num(nested)
    ensures TargetHigh(params) == if own != 0.0 then own else if nested != 0.0 then nested else 0.45
  {
  }

  /** Without any number there, the default target counts; a plain `true` is all of it. */
  lemma TargetWithoutNumbers(params: Params)
    requires Lookup(NestedParams(params), "target_high_risk_weight") == Null
    ensures Lookup(params, "target_high_risk_weight") == Null ==> TargetHigh(params) == 0.45
    ensures Lookup(params, "target_high_risk_weight") == Truth(false) ==> TargetHigh(params) == 0.45
    ensures Lookup(params, "target_high_risk_weight") == Truth(true) ==> TargetHigh(params) == 1.0
  {
  }

  /* ---------- everything else that is stored ---------- */

  /** Keys under which the program stores something of its own. */
  predicate Reserved(key: string) {
    key == "execution_summary" || key == "execution_steps" || key == "execution_params"
  }

  /** A field of the execution parameters: nested under its key, and at the top unless the item has its own entry. */
  predicate FieldStored(item: Item, stored: Params, key: string, v: Value) {
    v != Null ==>
      && Lookup(NestedParams(stored), key) == v
      && Lookup(stored, key) == if key in item.params then item.params[key] else v
  }

  /** A stored step shows the action, the amount, and whether the customer has to approve it. */
  predicate StepShown(dump: Value, step: ExecutionStep) {
    && dump.Obj?
    && Lookup(dump.fields, "action") == Text(step.action) && Lookup(dump.fields, "target") == Text(step.target)
    && Lookup(dump.fields, "amount_krw") == step.amountKrw
    && Lookup(dump.fields, "current_value") == step.currentValue
    && Lookup(dump.fields, "target_value") == step.targetValue
    && Lookup(dump.fields, "reason") == Text(step.reason)
    && Lookup(dump.fields, "requires_customer_approval") == Truth(step.needsCustomer)
  }

  lemma StepIsShown(step: ExecutionStep)
    ensures StepShown(StepDump(step), step)
  {
  }

  lemma DumpFields(e: ExecutionParams)
    ensures Lookup(Dump(e), "target_high_risk_weight") == e.targetHigh
    ensures Lookup(Dump(e), "target_low_risk_weight") == e.targetLow
    ensures Lookup(Dump(e), "liquidity_buffer_krw") == e.buffer
    ensures Lookup(Dump(e), "insurance_review_reason") == e.reviewReason
    ensures Lookup(Dump(e), "report_focus") == e.focus
    ensures Lookup(Dump(e), "notes") == e.notes
  {
  }

  lemma MergedField(item: Item, key: string, v: Value)
    requires v != Null && Lookup(Dump(item.execution), key) == v
    requires !Reserved(key)
    ensures FieldStored(item, StoredParams(item), key, v)
  {
    hide Dump;
    assert key in Dump(item.execution);
    assert StoredParams(item)[NESTED] == Obj(Dump(item.execution)) by { KeptKeys(item); }
  }

  /** Summary, steps and nested parameters stand under their keys; the item's own entries are kept. */
  lemma KeptKeys(item: Item)
    ensures var stored := StoredParams(item);
            && (item.summary != "" ==> Lookup(stored, "execution_summary") == Text(item.summary))
            && (item.steps != [] ==> Lookup(stored, "execution_steps") == Items(StepDumps(item.steps)))
            && (Dump(item.execution) != map[] ==> Lookup(stored, "execution_params") == Obj(Dump(item.execution)))
            && forall key :: key in item.params && !Reserved(key) ==> Lookup(stored, key) == item.params[key]
  {
    hide Dump, StepDumps;
    KeysDiffer();
  }

  lemma KeysDiffer()
    ensures "execution_summary" != "execution_steps" && "execution_summary" != "execution_params"
    ensures "execution_steps" != "execution_params"
  {
    assert |"execution_summary"| == 17 && |"execution_steps"| == 15 && |"execution_params"| == 16;
  }

  /**
   * The stored parameters of a plan item: its own entries, its summary, its steps one by one, and
   * each execution parameter under its own key, nested and, where the item has no entry of its own,
   * at the top.
   */
  lemma ParamsAreStored(item: Item)
    ensures var stored := StoredParams(item);
            && (forall key :: key in item.params && !Reserved(key) ==> Lookup(stored, key) == item.params[key])
            && (item.summary != "" ==> Lookup(stored, "execution_summary") == Text(item.summary))
            && (item.steps != [] ==>
                  var steps := Lookup(stored, "execution_steps");
                  && steps.Items? && |steps.items| == |item.steps|
                  && forall i :: 0 <= i < |item.steps| ==> StepShown(steps.items[i], item.steps[i]))
            && FieldStored(item, stored, "target_high_risk_weight", item.execution.targetHigh)
            && FieldStored(item, stored, "target_low_risk_weight", item.execution.targetLow)
            && FieldStored(item, stored, "liquidity_buffer_krw", item.execution.buffer)
            && FieldStored(item, stored, "insurance_review_reason", item.execution.reviewReason)
            && FieldStored(item, stored, "report_focus", item.execution.focus)
            && FieldStored(item, stored, "notes", item.execution.notes)
  {
    hide Dump, StoredParams, StepShown, StepDump, FieldStored;
    var e := item.execution;
    KeptKeys(item);
    DumpFields(e);
    forall i | 0 <= i < |item.steps| ensures StepShown(StepDumps(item.steps)[i], item.steps[i]) {
      StepIsShown(item.steps[i]);
    }
    FieldIsStored(item, "target_high_risk_weight", e.targetHigh);
    FieldIsStored(item, "target_low_risk_weight", e.targetLow);
    FieldIsStored(item, "liquidity_buffer_krw", e.buffer);
    FieldIsStored(item, "insurance_review_reason", e.reviewReason);
    FieldIsStored(item, "report_focus", e.focus);
    FieldIsStored(item, "notes", e.notes);
  }

  lemma FieldIsStored(item: Item, key: string, v: Value)
    requires Lookup(Dump(item.execution), key) == v
    requires |key| < 15 || key[0] != 'e'
    ensures FieldStored(item, StoredParams(item), key, v)
  {
    hide Dump, StoredParams;
    KeysDiffer();
    if v != Null {
      assert !Reserved(key) by {
        assert "execution_summary"[0] == 'e' && "execution_steps"[0] == 'e' && "execution_params"[0] == 'e';
        assert |"execution_summary"| == 17 && |"execution_steps"| == 15 && |"execution_params"| == 16;
      }
      MergedField(item, key, v);
    }
  }
}
