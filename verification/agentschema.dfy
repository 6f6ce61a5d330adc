/** The agent's output schema, as it is generated from the planning models, and what the pass makes of it. */
module AgentSchema {
  import opened Options
  import opened Json
  import opened Schema
  import Tightening

  /* ---------- the generator's vocabulary ---------- */

  function Enum(names: seq<string>): Field { Field("enum", Arr(Strings(names))) }

  function Typed(name: string): Json { Obj([Field("type", Str(name))]) }

  function Ref(name: string): Json { Obj([Field("$ref", Str("#/$defs/" + name))]) }

  /** A field of a plain type, with its default if it has one. */
  function Plain(start: seq<Field>, title: string, name: string): Json {
    Obj(start + [Field("title", Str(title)), Field("type", Str(name))])
  }

  function Default(v: Json): seq<Field> { [Field("default", v)] }

  function Text(title: string): Json { Plain(Default(Str("")), title, "string") }

  function Required(title: string): Json { Plain([], title, "string") }

  function Flag(title: string): Json { Plain(Default(Bool(false)), title, "boolean") }

  function OrNull(what: Json): Field { Field("anyOf", Arr([what, Typed("null")])) }

  function Optional(title: string, name: string): Json {
    Obj([OrNull(Typed(name)), Field("default", Null), Field("title", Str(title))])
  }

  function OptionalRef(name: string): Json { Obj([OrNull(Ref(name)), Field("default", Null)]) }

  function ListOf(item: Json, title: string): Json {
    Obj([Field("items", item), Field("title", Str(title)), Field("type", Str("array"))])
  }

  /** A model's node: what comes before its properties, the properties, those without default, its name. */
  function Model(start: seq<Field>, props: seq<Field>, needed: seq<string>, title: string): Json {
    Obj(ModelFields(start, props, needed, title))
  }

  function ModelFields(start: seq<Field>, props: seq<Field>, needed: seq<string>, title: string): seq<Field> {
    start + [Field("properties", Obj(props))] + NeededField(needed)
    + [Field("title", Str(title)), Field("type", Str("object"))]
  }

  function NeededField(needed: seq<string>): seq<Field> {
    if needed == [] then [] else [Field("required", Arr(Strings(needed)))]
  }

  function Described(text: string): seq<Field> { [Field("description", Str(text))] }

  /* ---------- the models ---------- */

  const LEVELS := ["none", "low", "mid", "high"]
  const NEEDS := ["medical_cost", "insurance", "cashflow", "asset_defense", "investment_adjust", "life_plan",
                  "preference_update", "none"]
  const KINDS := ["book_hospital", "review_insurance", "cashflow_plan", "rebalance_portfolio", "notify", "report"]
  const ACTIONS := ["sell", "buy", "move_to_cash", "create_report", "review", "request", "notify", "book", "none"]

  function Level(title: string): Json { Plain(Default(Str("none")) + [Enum(LEVELS)], title, "string") }

  const STRATEGY: seq<Field> :=
    [Field("title", Text("Title")),
     Field("objective", Text("Objective")),
     Field("priority_order",
           ListOf(Obj([Enum(NEEDS), Field("type", Str("string"))]), "Priority Order")),
     Field("rationale", Text("Rationale")),
     Field("risk_controls", ListOf(Typed("string"), "Risk Controls"))]

  const STEP: seq<Field> :=
    [Field("action", Plain([Enum(ACTIONS)], "Action", "string")),
     Field("target", Required("Target")),
     Field("amount_krw", Optional("Amount Krw", "integer")),
     Field("current_value", Optional("Current Value", "string")),
     Field("target_value", Optional("Target Value", "string")),
     Field("reason", Required("Reason")),
     Field("requires_customer_approval", Flag("Requires Customer Approval"))]

  const EXECUTION: seq<Field> :=
    [Field("target_high_risk_weight", Optional("Target High Risk Weight", "number")),
     Field("target_low_risk_weight", Optional("Target Low Risk Weight", "number")),
     Field("liquidity_buffer_krw", Optional("Liquidity Buffer Krw", "integer")),
     Field("insurance_review_reason", Optional("Insurance Review Reason", "string")),
     Field("report_focus", Optional("Report Focus", "string")),
     Field("notes", Optional("Notes", "string"))]

  const ASSESSMENT: seq<Field> :=
    [Field("medical_cost_need", Level("Medical Cost Need")),
     Field("insurance_need", Level("Insurance Need")),
     Field("cashflow_need", Level("Cashflow Need")),
     Field("asset_defense_need", Level("Asset Defense Need")),
     Field("investment_adjust_need", Level("Investment Adjust Need")),
     Field("life_plan_need", Level("Life Plan Need")),
     Field("primary_need", Plain(Default(Str("none")) + [Enum(NEEDS)], "Primary Need", "string")),
     Field("confidence", Plain(Default(Num(0.0)), "Confidence", "number")),
     Field("rationale", Text("Rationale")),
     Field("preference_update_only", Flag("Preference Update Only")),
     Field("no_action", Flag("No Action")),
     Field("clarifying_question", Optional("Clarifying Question", "string"))]

  /** `params` is taken out of the action's properties before the pass. */
  const GENERATED_ACTION: seq<Field> :=
    [Field("kind", Plain([Enum(KINDS)], "Kind", "string")),
     Field("summary", Required("Summary")),
     Field("has_external_effect", Flag("Has External Effect")),
     Field("execution_summary", Text("Execution Summary")),
     Field("execution_steps", ListOf(Ref("ExecutionStep"), "Execution Steps")),
     Field("execution_params", Ref("ExecutionParams")),
     Field("params", Plain([Field("additionalProperties", Bool(true))], "Params", "object")),
     Field("rationale", Text("Rationale"))]

  const ACTION: seq<Field> := Tightening.Pop(GENERATED_ACTION, "params")

  const PLAN: seq<Field> :=
    [Field("strategy", OptionalRef("PlanStrategy")),
     Field("proposals", ListOf(Ref("ActionProposalSchema"), "Proposals")),
     Field("explanation", Text("Explanation")),
     Field("assessment", OptionalRef("NeedAssessment"))]

  const OUTPUT: seq<Field> :=
    [Field("assessment", Ref("NeedAssessment")),
     Field("plan", Ref("Plan")),
     Field("message", Text("Message"))]

  /**
   * The shared definitions, with the property map of `PlanStrategy` left open; `about` gives the
   * description of a model that has one.
   */
  function Definitions(strategy: seq<Field>, about: string -> string): seq<Field> {
    [Field("ActionProposalSchema",
           Model(Described(about("ActionProposalSchema")), ACTION, ["kind", "summary"], "ActionProposalSchema")),
     Field("ExecutionParams", Model(Described(about("ExecutionParams")), EXECUTION, [], "ExecutionParams")),
     Field("ExecutionStep",
           Model(Described(about("ExecutionStep")), STEP, ["action", "target", "reason"], "ExecutionStep")),
     Field("NeedAssessment", Model(Described(about("NeedAssessment")), ASSESSMENT, [], "NeedAssessment")),
     Field("Plan", Model([], PLAN, [], "Plan")),
     Field("PlanStrategy", Model(Described(about("PlanStrategy")), strategy, [], "PlanStrategy"))]
  }

  /** The whole output schema. */
  function Output(strategy: seq<Field>, about: string -> string): Json {
    Model([Field("$defs", Obj(Definitions(strategy, about)))], OUTPUT, ["assessment", "plan"], "AgentJobOutput")
  }

  /* ---------- clean nodes ---------- */

  lemma {:induction false} CleanEach(fields: seq<Field>, sets: seq<Field>)
    ensures CleanFields(fields, sets)
            <==> forall i :: 0 <= i < |fields| ==>
                   Dropped(fields[i].key) || Lookup(sets, fields[i].key).Some? || Clean(fields[i].value)
  {
    hide Clean, Dropped, Lookup;
    if fields != [] {
      CleanEach(fields[1..], sets);
      assert forall i :: 1 <= i < |fields| ==> fields[i] == fields[1..][i - 1];
    }
  }

  lemma {:induction false} CleanList(items: seq<Json>)
    ensures CleanItems(items) <==> forall i :: 0 <= i < |items| ==> Clean(items[i])
  {
    hide Clean;
    if items != [] {
      CleanList(items[1..]);
      assert forall i :: 1 <= i < |items| ==> items[i] == items[1..][i - 1];
    }
  }

  /** A dictionary that is no object schema is clean when what it keeps is. */
  lemma CleanDictionary(fields: seq<Field>)
    requires !IsObject(fields)
    ensures Clean(Obj(fields)) <==> forall i :: 0 <= i < |fields| ==> Dropped(fields[i].key) || Clean(fields[i].value)
  {
    assert Sets(fields) == [];
    CleanEach(fields, []);
  }

  lemma CleanStrings(names: seq<string>)
    ensures Clean(Arr(Strings(names)))
  {
    CleanList(Strings(names));
  }

  lemma CleanTyped(name: string)
    requires name != "object"
    ensures Clean(Typed(name))
  {
    CleanDictionary([Field("type", Str(name))]);
  }

  lemma CleanRef(name: string)
    ensures Clean(Ref(name))
  {
    var fields := [Field("$ref", Str("#/$defs/" + name))];
    assert "$ref" != "type" by { assert "$ref"[0] != "type"[0]; }
    NoSuchKey(fields, "type");
    CleanDictionary(fields);
  }

  /** The keys that may come before title and type. */
  predicate Harmless(start: seq<Field>) {
    forall i :: 0 <= i < |start| ==> start[i].key != "type" && (Dropped(start[i].key) || Clean(start[i].value))
  }

  lemma {:induction false} NoSuchKey(fields: seq<Field>, key: string)
    requires forall i :: 0 <= i < |fields| ==> fields[i].key != key
    ensures Lookup(fields, key) == None
  {
    if fields != [] {
      NoSuchKey(fields[1..], key);
    }
  }

  lemma CleanPlain(start: seq<Field>, title: string, name: string)
    requires Harmless(start) && name != "object"
    ensures Clean(Plain(start, title, name))
  {
    hide Clean;
    var tail := [Field("title", Str(title)), Field("type", Str(name))];
    NoSuchKey(start, "type");
    LookupAppend(start, tail, "type");
    TailType(title, name);
    CleanScalar(Str(name));
    CleanDictionary(start + tail);
  }

  lemma TailType(title: string, name: string)
    ensures Lookup([Field("title", Str(title)), Field("type", Str(name))], "type") == Some(Str(name))
  {
    var tail := [Field("title", Str(title)), Field("type", Str(name))];
    assert "title" != "type" by { assert |"title"| != |"type"|; }
    assert tail[1..] == [Field("type", Str(name))];
  }

  lemma CleanScalar(j: Json)
    requires !j.Obj? && !j.Arr?
    ensures Clean(j)
  {
  }

  lemma DefaultHarmless(v: Json)
    ensures Harmless(Default(v))
  {
    assert "default" != "type" by { assert |"default"| != |"type"|; }
  }

  lemma EnumHarmless(names: seq<string>)
    ensures Harmless([Enum(names)])
  {
    assert "enum" != "type" by { assert "enum"[0] != "type"[0]; }
    CleanStrings(names);
  }

  lemma HarmlessBoth(a: seq<Field>, b: seq<Field>)
    requires Harmless(a) && Harmless(b)
    ensures Harmless(a + b)
  {
    hide Clean, Dropped;
  }

  lemma CleanOrNull(what: Json)
    requires Clean(what)
    ensures Clean(OrNull(what).value)
  {
    CleanTyped("null");
    CleanList([what, Typed("null")]);
  }

  lemma CleanOptional(title: string, name: string)
    requires name != "object"
    ensures Clean(Optional(title, name))
  {
    CleanTyped(name);
    CleanOrNull(Typed(name));
    var fields := [OrNull(Typed(name)), Field("default", Null), Field("title", Str(title))];
    KeysNotType();
    NoSuchKey(fields, "type");
    CleanDictionary(fields);
  }

  lemma KeysNotType()
    ensures "anyOf" != "type" && "default" != "type" && "title" != "type" && "items" != "type"
  {
    assert |"anyOf"| == |"title"| == |"items"| == 5 && |"default"| == 7 && |"type"| == 4;
  }

  lemma CleanOptionalRef(name: string)
    ensures Clean(OptionalRef(name))
  {
    CleanRef(name);
    CleanOrNull(Ref(name));
    var fields := [OrNull(Ref(name)), Field("default", Null)];
    KeysNotType();
    NoSuchKey(fields, "type");
    CleanDictionary(fields);
  }

  lemma CleanListOf(item: Json, title: string)
    requires Clean(item)
    ensures Clean(ListOf(item, title))
  {
    hide Clean;
    var start := [Field("items", item)];
    KeysNotType();
    assert "array" != "object" by { assert |"array"| != |"object"|; }
    CleanPlain(start, title, "array");
    assert start + [Field("title", Str(title)), Field("type", Str("array"))]
           == [Field("items", item), Field("title", Str(title)), Field("type", Str("array"))];
  }

  /* ---------- model nodes ---------- */

  lemma FieldKeys()
    ensures "properties" != "type" && "required" != "type" && "additionalProperties" != "type"
    ensures "properties" != "title" && "required" != "title" && "additionalProperties" != "title"
    ensures "properties" != "required" && "properties" != "additionalProperties"
    ensures "required" != "additionalProperties" && "title" != "type"
    ensures !Dropped("properties") && !Dropped("required") && !Dropped("type")
  {
    assert |"properties"| == 10 && |"required"| == 8 && |"type"| == 4 && |"title"| == 5;
    assert |"additionalProperties"| == 20 && |"default"| == 7 && |"description"| == 11;
  }

  /** What may stand in front of a model's properties: nothing the pass looks at, and nothing unclean. */
  predicate Front(start: seq<Field>) {
    && Harmless(start)
    && forall i :: 0 <= i < |start| ==>
         start[i].key != "properties" && start[i].key != "required" && start[i].key != "additionalProperties"
  }

  lemma ModelLookups(start: seq<Field>, props: seq<Field>, needed: seq<string>, title: string)
    requires Front(start)
    ensures var fields := ModelFields(start, props, needed, title);
            IsObject(fields) && Properties(fields) == Some(props)
  {
    var middle, tail := [Field("properties", Obj(props))], [Field("title", Str(title)), Field("type", Str("object"))];
    FieldKeys();
    NoSuchKey(start, "type");
    NoSuchKey(start, "properties");
    NoSuchKey(middle, "type");
    NoSuchKey(NeededField(needed), "type");
    assert middle[0].key == "properties";
    TailType(title, "object");
    LookupAppend(start, middle, "type");
    LookupAppend(start + middle, NeededField(needed), "type");
    LookupAppend(start + middle + NeededField(needed), tail, "type");
    LookupAppend(start, middle, "properties");
    LookupAppend(start + middle, NeededField(needed), "properties");
    LookupAppend(start + middle + NeededField(needed), tail, "properties");
  }

  /** A property map in which nothing looks like an object schema's type. */
  predicate NoType(props: seq<Field>) { Lookup(props, "type") == None }

  /** A model's node is clean exactly when no property is dropped and all are clean. */
  lemma ModelClean(start: seq<Field>, props: seq<Field>, needed: seq<string>, title: string)
    requires Front(start) && NoType(props)
    ensures Clean(Model(start, props, needed, title))
            <==> NoneDropped(props) && forall i :: 0 <= i < |props| ==> Clean(props[i].value)
  {
    hide Clean, CleanFields;
    var fields := ModelFields(start, props, needed, title);
    ModelLookups(start, props, needed, title);
    PlainMapSurvives(props);
    ModelUnfolds(fields, props);
    FieldsOfModel(start, props, needed, title);
    CleanDictionary(props);
    KeptByName(props);
  }

  lemma ModelUnfolds(fields: seq<Field>, props: seq<Field>)
    requires IsObject(fields) && Properties(fields) == Some(props)
    ensures Clean(Obj(fields)) <==> NamesSurvive(props) && CleanFields(fields, Sets(fields))
  {
    hide NamesSurvive, CleanFields;
  }

  lemma PlainMapSurvives(props: seq<Field>)
    requires NoType(props)
    ensures NamesSurvive(props) <==> NoneDropped(props)
    ensures !IsObject(props)
  {
    assert Sets(props) == [];
  }

  lemma KeptByName(props: seq<Field>)
    ensures NoneDropped(props) <==> forall i :: 0 <= i < |props| ==> !Dropped(props[i].key)
  {
    DroppedByName(props);
    assert forall i :: 0 <= i < |props| ==> Names(props)[i] in Names(props);
  }

  /** Of a model's fields only the property map decides. */
  lemma FieldsOfModel(start: seq<Field>, props: seq<Field>, needed: seq<string>, title: string)
    requires Front(start) && NoType(props)
    requires var fields := ModelFields(start, props, needed, title);
             IsObject(fields) && Properties(fields) == Some(props)
    ensures var fields := ModelFields(start, props, needed, title);
            CleanFields(fields, Sets(fields)) <==> Clean(Obj(props))
  {
    hide Clean, CleanFields, Sets;
    var fields := ModelFields(start, props, needed, title);
    var sets := Sets(fields);
    CleanEach(fields, sets);
    SetsLookup(fields, "properties");
    FieldKeys();
    assert fields[|start|] == Field("properties", Obj(props));
    forall i | 0 <= i < |fields| && i != |start|
      ensures Dropped(fields[i].key) || Lookup(sets, fields[i].key).Some? || Clean(fields[i].value)
    {
      OtherField(start, props, needed, title, i);
    }
  }

  lemma OtherField(start: seq<Field>, props: seq<Field>, needed: seq<string>, title: string, i: nat)
    requires Front(start) && i < |ModelFields(start, props, needed, title)| && i != |start|
    ensures var f := ModelFields(start, props, needed, title)[i]; Dropped(f.key) || Clean(f.value)
  {
    hide Clean;
    CleanStrings(needed);
    CleanScalar(Str("object"));
  }

  /* ---------- the models are clean ---------- */

  lemma DescribedFront(text: string)
    ensures Front(Described(text))
  {
    assert |"description"| == 11 && |"type"| == 4 && |"properties"| == 10 && |"required"| == 8;
    assert |"additionalProperties"| == 20;
  }

  lemma CleanText(title: string)
    ensures Clean(Text(title)) && Clean(Required(title)) && Clean(Flag(title))
  {
    DefaultHarmless(Str(""));
    DefaultHarmless(Bool(false));
    assert |"string"| == |"object"| == 6 && "string"[0] != "object"[0];
    assert |"boolean"| == 7;
    CleanPlain(Default(Str("")), title, "string");
    CleanPlain([], title, "string");
    CleanPlain(Default(Bool(false)), title, "boolean");
  }

  lemma CleanEnum(title: string, names: seq<string>)
    ensures Clean(Plain([Enum(names)], title, "string"))
    ensures Clean(Plain(Default(Str("none")) + [Enum(names)], title, "string"))
  {
    assert |"string"| == |"object"| == 6 && "string"[0] != "object"[0];
    DefaultHarmless(Str("none"));
    EnumHarmless(names);
    HarmlessBoth(Default(Str("none")), [Enum(names)]);
    CleanPlain([Enum(names)], title, "string");
    CleanPlain(Default(Str("none")) + [Enum(names)], title, "string");
  }

  lemma TypeNames()
    ensures "string" != "object" && "number" != "object" && "integer" != "object" && "boolean" != "object"
  {
    assert "string"[0] != "object"[0] && "number"[0] != "object"[0];
    assert |"integer"| == |"boolean"| == 7 && |"object"| == 6;
  }

  ghost predicate AllClean(props: seq<Field>) { forall i :: 0 <= i < |props| ==> Clean(props[i].value) }

  /** A name that is neither dropped nor `type`. */
  predicate Kept(key: string) { !Dropped(key) && key != "type" }

  lemma KeptByLength(key: string)
    requires |key| != 4 && |key| != 5 && |key| != 7 && |key| != 11
    ensures Kept(key)
  {
    assert |"type"| == 4 && |"title"| == 5 && |"default"| == 7 && |"description"| == 11;
  }

  lemma KeptByStart(key: string)
    requires key != "" && key[0] != 't' && key[0] != 'd'
    ensures Kept(key)
  {
    assert "type"[0] == "title"[0] == 't' && "default"[0] == "description"[0] == 'd';
  }

  ghost predicate AllKept(props: seq<Field>) { forall i :: 0 <= i < |props| ==> Kept(props[i].key) }

  /** A model whose property names are kept and whose properties are clean is clean. */
  lemma ModelIsClean(start: seq<Field>, props: seq<Field>, needed: seq<string>, title: string)
    requires Front(start) && AllKept(props) && AllClean(props)
    ensures Clean(Model(start, props, needed, title))
  {
    NoSuchKey(props, "type");
    KeptByName(props);
    ModelClean(start, props, needed, title);
  }

  lemma StepsAreClean()
    ensures AllKept(STEP) && AllClean(STEP)
  {
    hide Clean, Kept;
    CleanEnum("Action", ACTIONS);
    CleanText("Target");
    CleanText("Reason");
    CleanText("Requires Customer Approval");
    TypeNames();
    CleanOptional("Amount Krw", "integer");
    CleanOptional("Current Value", "string");
    CleanOptional("Target Value", "string");
    KeptByLength("action");
    KeptByLength("target");
    KeptByLength("amount_krw");
    KeptByLength("current_value");
    KeptByLength("target_value");
    KeptByLength("reason");
    KeptByLength("requires_customer_approval");
  }

  lemma HintsAreClean()
    ensures AllKept(EXECUTION) && AllClean(EXECUTION)
  {
    hide Clean, Kept;
    TypeNames();
    CleanOptional("Target High Risk Weight", "number");
    CleanOptional("Target Low Risk Weight", "number");
    CleanOptional("Liquidity Buffer Krw", "integer");
    CleanOptional("Insurance Review Reason", "string");
    CleanOptional("Report Focus", "string");
    CleanOptional("Notes", "string");
    KeptByLength("target_high_risk_weight");
    KeptByLength("target_low_risk_weight");
    KeptByLength("liquidity_buffer_krw");
    KeptByLength("insurance_review_reason");
    KeptByLength("report_focus");
    KeptByStart("notes");
  }

  lemma NeedsAreClean()
    ensures AllKept(ASSESSMENT) && AllClean(ASSESSMENT)
  {
    hide Clean, Kept;
    CleanEnum("Medical Cost Need", LEVELS);
    CleanEnum("Insurance Need", LEVELS);
    CleanEnum("Cashflow Need", LEVELS);
    CleanEnum("Asset Defense Need", LEVELS);
    CleanEnum("Investment Adjust Need", LEVELS);
    CleanEnum("Life Plan Need", LEVELS);
    CleanEnum("Primary Need", NEEDS);
    TypeNames();
    DefaultHarmless(Num(0.0));
    CleanPlain(Default(Num(0.0)), "Confidence", "number");
    CleanText("Rationale");
    CleanText("Preference Update Only");
    CleanText("No Action");
    CleanOptional("Clarifying Question", "string");
    KeptByStart("medical_cost_need");
    KeptByStart("insurance_need");
    KeptByStart("cashflow_need");
    KeptByStart("asset_defense_need");
    KeptByStart("investment_adjust_need");
    KeptByStart("life_plan_need");
    KeptByStart("primary_need");
    KeptByStart("confidence");
    KeptByStart("rationale");
    KeptByStart("preference_update_only");
    KeptByStart("no_action");
    KeptByStart("clarifying_question");
  }

  /** Taking `params` out leaves the other properties in their order. */
  lemma ParamsTakenOut()
    ensures |ACTION| == |GENERATED_ACTION| - 1
    ensures ACTION == GENERATED_ACTION[..6] + GENERATED_ACTION[7..]
  {
    var all := GENERATED_ACTION;
    forall i | 0 <= i < |all| && i != 6 ensures all[i].key != "params" {
      assert |"params"| == 6 && |"kind"| == 4 && |"summary"| == 7 && |"rationale"| == 9;
      assert |"has_external_effect"| == 19 && |"execution_summary"| == 17 && |"execution_steps"| == 15;
      assert |"execution_params"| == 16;
    }
    PopOne(all, "params", 6);
  }

  lemma {:induction false} PopOne(fields: seq<Field>, key: string, i: nat)
    requires i < |fields| && fields[i].key == key
    requires forall j :: 0 <= j < |fields| && j != i ==> fields[j].key != key
    ensures Tightening.Pop(fields, key) == fields[..i] + fields[i + 1..]
  {
    if i == 0 {
      Tightening.PopNone(fields[1..], key);
    } else {
      PopOne(fields[1..], key, i - 1);
      assert fields[..i] == [fields[0]] + fields[1..][..i - 1] && fields[1..][i..] == fields[i + 1..];
    }
  }

  lemma ActionsAreClean()
    ensures AllKept(ACTION) && AllClean(ACTION)
  {
    hide Clean, Kept;
    ParamsTakenOut();
    CleanEnum("Kind", KINDS);
    CleanText("Summary");
    CleanText("Has External Effect");
    CleanText("Execution Summary");
    CleanText("Rationale");
    CleanRef("ExecutionStep");
    CleanListOf(Ref("ExecutionStep"), "Execution Steps");
    CleanRef("ExecutionParams");
    KeptByStart("kind");
    KeptByStart("summary");
    KeptByStart("has_external_effect");
    KeptByStart("execution_summary");
    KeptByStart("execution_steps");
    KeptByStart("execution_params");
    KeptByStart("rationale");
  }

  lemma PlansAreClean()
    ensures AllKept(PLAN) && AllClean(PLAN)
    ensures AllKept(OUTPUT) && AllClean(OUTPUT)
  {
    hide Clean, Kept;
    CleanOptionalRef("PlanStrategy");
    CleanOptionalRef("NeedAssessment");
    CleanRef("ActionProposalSchema");
    CleanListOf(Ref("ActionProposalSchema"), "Proposals");
    CleanText("Explanation");
    CleanText("Message");
    CleanRef("NeedAssessment");
    CleanRef("Plan");
    KeptByStart("strategy");
    KeptByStart("proposals");
    KeptByStart("explanation");
    KeptByStart("assessment");
    KeptByStart("plan");
    KeptByStart("message");
  }

  /* ---------- the whole schema ---------- */

  lemma DefinitionNames(strategy: seq<Field>, about: string -> string)
    ensures AllKept(Definitions(strategy, about))
  {
    hide Kept;
    KeptByStart("ActionProposalSchema");
    KeptByStart("ExecutionParams");
    KeptByStart("ExecutionStep");
    KeptByStart("NeedAssessment");
    KeptByStart("Plan");
    KeptByStart("PlanStrategy");
  }

  /** Every definition but one is clean. */
  lemma OthersAreClean(strategy: seq<Field>, about: string -> string)
    ensures forall i :: 0 <= i < 5 ==> Clean(Definitions(strategy, about)[i].value)
  {
    hide Clean, AllKept, AllClean, Front;
    DescribedFront(about("ActionProposalSchema"));
    DescribedFront(about("ExecutionParams"));
    DescribedFront(about("ExecutionStep"));
    DescribedFront(about("NeedAssessment"));
    NothingInFront();
    ActionsAreClean();
    HintsAreClean();
    StepsAreClean();
    NeedsAreClean();
    PlansAreClean();
    ModelIsClean(Described(about("ActionProposalSchema")), ACTION, ["kind", "summary"], "ActionProposalSchema");
    ModelIsClean(Described(about("ExecutionParams")), EXECUTION, [], "ExecutionParams");
    ModelIsClean(Described(about("ExecutionStep")), STEP, ["action", "target", "reason"], "ExecutionStep");
    ModelIsClean(Described(about("NeedAssessment")), ASSESSMENT, [], "NeedAssessment");
    ModelIsClean([], PLAN, [], "Plan");
  }

  lemma NothingInFront()
    ensures Front([])
  {
  }

  /** The root has the definitions in front; it is clean exactly when they are. */
  lemma RootClean(defs: seq<Field>)
    requires AllKept(defs)
    ensures Clean(Model([Field("$defs", Obj(defs))], OUTPUT, ["assessment", "plan"], "AgentJobOutput"))
            <==> AllClean(defs)
  {
    hide Clean, Kept;
    var start := [Field("$defs", Obj(defs))];
    var fields := ModelFields(start, OUTPUT, ["assessment", "plan"], "AgentJobOutput");
    PlansAreClean();
    DefsKey();
    NoTypeKept(defs);
    NoTypeKept(OUTPUT);
    CleanDictionary(defs);
    KeptIsNotDropped(defs);
    if AllClean(defs) {
      ModelIsClean(start, OUTPUT, ["assessment", "plan"], "AgentJobOutput");
    } else {
      FieldsOfRoot(fields, start);
    }
  }

  lemma DefsKey()
    ensures "$defs" != "type" && "$defs" != "properties" && "$defs" != "required" && "$defs" != "additionalProperties"
    ensures !Dropped("$defs")
  {
    assert |"$defs"| == 5 && |"type"| == 4 && |"properties"| == 10 && |"required"| == 8;
    assert |"additionalProperties"| == 20 && "$defs"[0] != "title"[0] && |"default"| == 7 && |"description"| == 11;
  }

  lemma NoTypeKept(props: seq<Field>)
    requires AllKept(props)
    ensures NoType(props) && !IsObject(props)
  {
    NoSuchKey(props, "type");
  }

  lemma KeptIsNotDropped(props: seq<Field>)
    requires AllKept(props)
    ensures forall i :: 0 <= i < |props| ==> !Dropped(props[i].key)
  {
  }

  /** An unclean value under a key that the pass neither drops nor sets makes the node unclean. */
  lemma FieldsOfRoot(fields: seq<Field>, start: seq<Field>)
    requires start != [] && start <= fields && start[0].key == "$defs" && !Clean(start[0].value)
    ensures !Clean(Obj(fields))
  {
    DefsKey();
    SetsLookup(fields, "$defs");
    CleanEach(fields, Sets(fields));
    assert fields[0] == start[0];
  }

  /**
   * The output schema is clean exactly when the node of `PlanStrategy` is, whatever its
   * properties: everything else in it is.
   */
  lemma OnlyStrategyDecides(strategy: seq<Field>, about: string -> string)
    requires NoType(strategy)
    ensures Clean(Output(strategy, about)) <==> NoneDropped(strategy) && AllClean(strategy)
  {
    hide Clean;
    var defs := Definitions(strategy, about);
    DefinitionNames(strategy, about);
    OthersAreClean(strategy, about);
    RootClean(defs);
    DescribedFront(about("PlanStrategy"));
    ModelClean(Described(about("PlanStrategy")), strategy, [], "PlanStrategy");
    assert AllClean(defs) <==> Clean(defs[5].value);
  }

  lemma StrategiesAreClean()
    ensures AllClean(STRATEGY) && AllKept(STRATEGY[1..]) && NoType(STRATEGY)
    ensures STRATEGY[0].key == "title" && Dropped(STRATEGY[0].key)
  {
    hide Clean, Kept;
    CleanText("Title");
    CleanText("Objective");
    CleanText("Rationale");
    TypeNames();
    EnumHarmless(NEEDS);
    CleanTypedEnum();
    CleanListOf(Obj([Enum(NEEDS), Field("type", Str("string"))]), "Priority Order");
    CleanTyped("string");
    CleanListOf(Typed("string"), "Risk Controls");
    KeptByStart("objective");
    KeptByStart("priority_order");
    KeptByStart("rationale");
    KeptByStart("risk_controls");
    NoTypeKept(STRATEGY[1..]);
    assert STRATEGY == [STRATEGY[0]] + STRATEGY[1..];
    FieldKeys();
    Tightening.LookupCons(STRATEGY[0], STRATEGY[1..], "type");
  }

  lemma CleanTypedEnum()
    ensures Clean(Obj([Enum(NEEDS), Field("type", Str("string"))]))
  {
    hide Clean;
    var fields := [Enum(NEEDS), Field("type", Str("string"))];
    CleanStrings(NEEDS);
    CleanScalar(Str("string"));
    TypeNames();
    assert "enum" != "type" by { assert "enum"[0] != "type"[0]; }
    assert fields[1..] == [Field("type", Str("string"))];
    assert Lookup(fields, "type") == Some(Str("string"));
    CleanDictionary(fields);
  }

  /**
   * The schema the code hands to the pass is not tight afterwards, and a second pass changes it
   * again; `title` among the properties of `PlanStrategy` is the only cause. Without it the pass
   * would do what it is for.
   */
  lemma TitleIsTheOnlyFault(about: string -> string)
    ensures !Clean(Output(STRATEGY, about)) && !Tight(Strict(Output(STRATEGY, about)))
    ensures Strict(Strict(Output(STRATEGY, about))) != Strict(Output(STRATEGY, about))
    ensures var mended := Output(STRATEGY[1..], about);
            Clean(mended) && Tight(Strict(mended)) && Strict(Strict(mended)) == Strict(mended)
  {
    hide Clean, Tight, Strict;
    StrategiesAreClean();
    KeptByName(STRATEGY);
    KeptByName(STRATEGY[1..]);
    KeptIsNotDropped(STRATEGY[1..]);
    NoTypeKept(STRATEGY[1..]);
    OnlyStrategyDecides(STRATEGY, about);
    OnlyStrategyDecides(STRATEGY[1..], about);
    TightExactly(Output(STRATEGY, about));
    TightExactly(Output(STRATEGY[1..], about));
    SecondPassExactly(Output(STRATEGY, about));
    SecondPassExactly(Output(STRATEGY[1..], about));
  }

  /** What goes wrong: the node goes on requiring `title`, and its property map no longer has it. */
  lemma StrategyRequiresWhatItLacks(about: string -> string)
    ensures var node := Strict(Model(Described(about("PlanStrategy")), STRATEGY, [], "PlanStrategy")).fields;
            && Lookup(node, "required")
               == Some(Arr(Strings(["title", "objective", "priority_order", "rationale", "risk_controls"])))
            && Properties(node).Some? && Lookup(Properties(node).value, "title") == None
  {
    var start := Described(about("PlanStrategy"));
    var fields := ModelFields(start, STRATEGY, [], "PlanStrategy");
    DescribedFront(about("PlanStrategy"));
    ModelLookups(start, STRATEGY, [], "PlanStrategy");
    AfterLookup(fields, "required");
    SetsLookup(fields, "required");
    FieldKeys();
    assert Names(STRATEGY) == ["title", "objective", "priority_order", "rationale", "risk_controls"];
    SameShape(fields);
    StrategiesAreClean();
    NoTypeKept(STRATEGY[1..]);
    AfterLookup(STRATEGY, "title");
    SetsLookup(STRATEGY, "title");
  }
}
