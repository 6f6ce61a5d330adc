/** From the customer's data to a plan: the context readers, the detector and the local planner. */
module Planner {
  import opened Options
  import opened Seqs
  import opened Text
  import opened Policy
  import opened Proposals
  import opened Book
  import Finance

  /** Account, card and loan figures; the workflow never changes them. */
  datatype Facts = Facts(cash: int, card: int, repayment: int)

  /** What detector and planner look at in the redacted context. */
  datatype Context = Context(highRisk: real, totalValue: real, gap: Option<string>, facts: Facts)

  function ReadContext(book: Book, customer: string, facts: Facts): Context {
    var holdings := CustomerHoldings(book, customer);
    Context(HighWeight(holdings), Total(holdings),
            if HasGap(book, customer) then Some(GAP) else None, facts)
  }

  /* ---------- signals ---------- */

  datatype Source = FromEvent | FromUser
  datatype Origin = EventOrigin | UserOrigin | DetectorOrigin
  datatype Payload = Payload(kind: string, text: string)
  datatype Signal = Signal(origin: Origin, kind: string)

  const PORTFOLIO_LOSS := "portfolio_loss"
  const CARD_PRESSURE := "upcoming_card_payment_pressure"
  const INSURANCE_GAP := "insurance_gap"
  const ROUTINE := "routine_check"

  predicate Mentions(text: string, markers: seq<string>) {
    exists m :: m in markers && Contains(text, m)
  }

  function ExplicitKind(source: Source, payload: Payload): string {
    var kind := Trim(payload.kind, PyBlank);
    if source.FromUser? && kind == "" then
      if Mentions(payload.text, ["보험", "보장", "특약"]) then INSURANCE_GAP
      else if Mentions(payload.text, ["투자", "손실", "리밸런싱", "포트폴리오"]) then PORTFOLIO_LOSS
      else if Mentions(payload.text, ["카드", "상환", "현금", "생활비"]) then CARD_PRESSURE
      else ""
    else kind
  }

  function Detect(source: Source, payload: Payload, ctx: Context): Signal {
    var kind := ExplicitKind(source, payload);
    if kind != "" then Signal(if source.FromUser? then UserOrigin else EventOrigin, kind)
    else if ctx.highRisk >= 0.65 then Signal(DetectorOrigin, PORTFOLIO_LOSS)
    else if ctx.facts.cash != 0
         && (ctx.facts.card + ctx.facts.repayment) as real > ctx.facts.cash as real * 0.5
    then Signal(DetectorOrigin, CARD_PRESSURE)
    else Signal(DetectorOrigin, ROUTINE)
  }

  /* ---------- the local planner ---------- */

  const ASSET_MARKERS := [PORTFOLIO_LOSS, "repayment", "spending", "income_drop", "card_payment_pressure"]

  predicate AssetSignal(kind: string) { Mentions(Lower(kind), ASSET_MARKERS) }

  /** Python's `int`: toward zero. */
  function Truncate(r: real): int {
    if r >= 0.0 then r.Floor else -(-r).Floor
  }

  lemma TruncatedTowardZero(r: real)
    ensures r >= 0.0 ==> 0 <= Truncate(r) && Truncate(r) as real <= r < Truncate(r) as real + 1.0
    ensures r <= 0.0 ==> 0 >= Truncate(r) && Truncate(r) as real - 1.0 < r <= Truncate(r) as real
  {
  }

  /** The whole-won sell amount shown to the customer before a rebalance. */
  function PreviewKrw(ctx: Context): int {
    var total := Truncate(ctx.totalValue);
    var reduction := Truncate(Scaled(total as real, ctx.highRisk)) - Truncate(Scaled(total as real, DEFAULT_TARGET));
    if reduction > 0 then reduction else 0
  }

  /** A step as the planner fills it in, without the texts the customer reads. */
  function Step(action: string, amount: Value, needsCustomer: bool): ExecutionStep {
    ExecutionStep(action, "", amount, Null, Null, "", needsCustomer)
  }

  function ReportItem(ctx: Context): Item {
    Item(Report, false, map["available_cash_krw" := Num(ctx.facts.cash as real),
                            "upcoming_card_payment_krw" := Num(ctx.facts.card as real)],
         NO_EXECUTION_PARAMS.(buffer := Num(ctx.facts.cash as real), focus := Text("cashflow_asset_defense")),
         "report", [Step("create_report", Null, false)])
  }

  function CashflowItem(ctx: Context): Item {
    Item(CashflowPlan, false, map["available_cash_krw" := Num(ctx.facts.cash as real)],
         NO_EXECUTION_PARAMS.(buffer := Num(ctx.facts.cash as real), focus := Text("three_month_cashflow")),
         "cashflow", [Step("create_report", Num(ctx.facts.cash as real), false)])
  }

  function RebalanceItem(ctx: Context): Item {
    Item(RebalancePortfolio, true, map[TARGET := Num(0.45), LOW_TARGET := Num(0.55)],
         NO_EXECUTION_PARAMS.(targetHigh := Num(0.45), targetLow := Num(0.55),
                              buffer := Num(ctx.facts.cash as real), notes := Text("rebalance")),
         "rebalance",
             [Step("sell", Num(PreviewKrw(ctx) as real), true),
              Step("move_to_cash", Num(PreviewKrw(ctx) as real), true)])
  }

  function ReviewItem(gap: string): Item {
    Item(ReviewInsurance, true, map["reason" := Text(gap)],
         NO_EXECUTION_PARAMS.(reviewReason := Text(gap), notes := Text("willingness")),
         "review", [Step("review", Null, true)])
  }

  function AssetPlan(ctx: Context): seq<Item> {
    [ReportItem(ctx), CashflowItem(ctx)]
    + (if ctx.highRisk >= 0.55 then [RebalanceItem(ctx)] else [])
    + (match ctx.gap case Some(gap) => [ReviewItem(gap)] case None => [])
  }

  function InsurancePlan(ctx: Context): seq<Item> {
    var gap := match ctx.gap case Some(g) => g case None => "보험 보장 공백";
    [Item(Report, false, map[],
          NO_EXECUTION_PARAMS.(reviewReason := Text(gap), focus := Text("insurance_gap")),
          "insurance report", [Step("create_report", Null, false)]),
     ReviewItem(gap)]
  }

  /** The deterministic planning worker. */
  function StubPlan(signal: Signal, ctx: Context): seq<Item> {
    if AssetSignal(signal.kind) then AssetPlan(ctx)
    else if ctx.gap.Some? || Contains(Lower(signal.kind), "insurance") then InsurancePlan(ctx)
    else []
  }

  predicate Proposes(items: seq<Item>, kind: Kind) { exists item :: item in items && item.kind == kind }

  /**
   * `_asset_plan`: two items that may run at once, then a rebalance exactly when too much is at
   * risk and a review exactly when a gap is reported, both for the customer to approve.
   */
  method BuildAssetPlan(ctx: Context) returns (proposals: seq<Item>)
    ensures |proposals| >= 2 && proposals[0].kind == Report && proposals[1].kind == CashflowPlan
    ensures forall i :: 0 <= i < |proposals| ==>
              (NeedsApproval(proposals[i].external, proposals[i].kind) <==> i >= 2)
    ensures Proposes(proposals, RebalancePortfolio) <==> ctx.highRisk >= 0.55
    ensures Proposes(proposals, ReviewInsurance) <==> ctx.gap.Some?
    ensures proposals == AssetPlan(ctx)
  {
    proposals := [ReportItem(ctx), CashflowItem(ctx)];
    if ctx.highRisk >= 0.55 {
      proposals := proposals + [RebalanceItem(ctx)];
      assert proposals[2].kind == RebalancePortfolio;
    }
    if ctx.gap.Some? {
      proposals := proposals + [ReviewItem(ctx.gap.value)];
      assert proposals[|proposals| - 1].kind == ReviewInsurance;
    }
  }

  /** `build_local_stub_output`, as far as proposals go. */
  method BuildLocalPlan(signal: Signal, ctx: Context) returns (plan: seq<Item>)
    ensures plan == StubPlan(signal, ctx)
    ensures AssetSignal(signal.kind) ==> |plan| >= 2
    ensures plan == [] ==> ctx.gap == None
  {
    if AssetSignal(signal.kind) {
      plan := BuildAssetPlan(ctx);
    } else if ctx.gap.Some? || Contains(Lower(signal.kind), "insurance") {
      plan := InsurancePlan(ctx);
    } else {
      plan := [];
    }
  }

  lemma PortfolioLossIsAsset()
    ensures AssetSignal(PORTFOLIO_LOSS)
  {
    assert Lower(PORTFOLIO_LOSS) == PORTFOLIO_LOSS;
    assert At(Lower(PORTFOLIO_LOSS), 0, PORTFOLIO_LOSS);
    assert Contains(Lower(PORTFOLIO_LOSS), ASSET_MARKERS[0]);
  }

  /** A text in which one character of `sub` stands at none of its possible places. */
  lemma NotAt(s: string, sub: string, k: nat)
    requires k < |sub| && forall j :: k <= j && j - k + |sub| <= |s| ==> s[j] != sub[k]
    ensures !Contains(s, sub)
  {
    forall i | 0 <= i <= |s| ensures !At(s, i, sub) {
      if 0 <= i && i + |sub| <= |s| {
        assert s[i..i + |sub|][k] == s[i + k];
      }
    }
  }

  lemma ContainsEnd(front: string, marker: string)
    ensures Contains(front + marker, marker)
  {
    assert At(front + marker, |front|, marker);
  }

  lemma CardPressureIsSmall()
    ensures Lower(CARD_PRESSURE) == CARD_PRESSURE
  {
  }

  lemma CardPressureIsAsset()
    ensures AssetSignal(CARD_PRESSURE)
  {
    hide Lower, LowerChar, Contains;
    CardPressureIsSmall();
    var front, marker := "upcoming_", "card_payment_pressure";
    assert CARD_PRESSURE == front + marker;
    ContainsEnd(front, marker);
    assert Contains(Lower(CARD_PRESSURE), ASSET_MARKERS[4]);
  }

  lemma RoutineIsNeither()
    ensures !AssetSignal(ROUTINE) && !Contains(Lower(ROUTINE), "insurance")
  {
    var s := ROUTINE;
    assert Lower(s) == s;
    NotAt(s, "portfolio_loss", 0);
    NotAt(s, "repayment", 1);
    NotAt(s, "spending", 0);
    NotAt(s, "income_drop", 0);
    NotAt(s, "card_payment_pressure", 0);
    NotAt(s, "insurance", 2);
  }

  lemma GapIsInsurance()
    ensures !AssetSignal(INSURANCE_GAP) && Contains(Lower(INSURANCE_GAP), "insurance")
  {
    var s := INSURANCE_GAP;
    assert Lower(s) == s;
    NotAt(s, "portfolio_loss", 0);
    NotAt(s, "repayment", 1);
    NotAt(s, "spending", 1);
    NotAt(s, "income_drop", 2);
    NotAt(s, "card_payment_pressure", 0);
    assert At(s, 0, "insurance");
  }

  /** What is due for cards and loans. */
  function Due(facts: Facts): int { facts.card + facts.repayment }

  /**
   * Is a customer flagged exactly when more than half of the cash is due? An event that names no
   * kind, at low risk, meets that rule if and only if there is any cash at all, or nothing is due:
   * a customer without cash is never flagged, however much is due.
   */
  lemma PressureFlaggedExactly(source: Source, payload: Payload, ctx: Context)
    requires ExplicitKind(source, payload) == "" && ctx.highRisk < 0.65
    ensures var flagged := Detect(source, payload, ctx).kind == CARD_PRESSURE;
            && (flagged <==> ctx.facts.cash != 0 && 2 * Due(ctx.facts) > ctx.facts.cash)
            && ((flagged <==> 2 * Due(ctx.facts) > ctx.facts.cash) <==> ctx.facts.cash != 0 || Due(ctx.facts) <= 0)
  {
    assert |CARD_PRESSURE| != |ROUTINE|;
  }

  /**
   * Whom the workflow leaves alone: an event that names no kind leads to an empty plan exactly
   * when the high-risk weight is below 65%, no cover is missing, and either there is no cash at
   * all or what is due for cards and loans is at most half of it.
   */
  lemma LeftAloneExactly(source: Source, payload: Payload, ctx: Context)
    requires ExplicitKind(source, payload) == ""
    ensures StubPlan(Detect(source, payload, ctx), ctx) == []
            <==> && ctx.highRisk < 0.65 && ctx.gap == None
                 && (ctx.facts.cash == 0 || 2 * Due(ctx.facts) <= ctx.facts.cash)
  {
    PortfolioLossIsAsset();
    CardPressureIsAsset();
    RoutineIsNeither();
    if ctx.highRisk < 0.65 {
      PressureFlaggedExactly(source, payload, ctx);
    }
  }

  /* ---------- the preview ---------- */

  lemma Floors(a: real, b: real)
    requires a >= b >= 0.0
    ensures Truncate(a) >= Truncate(b)
    ensures -1.0 < (Truncate(a) - Truncate(b)) as real - (a - b) < 1.0
  {
  }

  /** Every row's amount is its weight of the account's value, and none is negative. */
  predicate Consistent(hs: seq<Holding>, total: real) {
    forall h :: h in hs ==> h.amount >= 0.0 && h.amount == Scaled(total, h.weight)
  }

  lemma ScaledSum(total: real, a: real, b: real)
    ensures Scaled(total, a) + Scaled(total, b) == Scaled(total, a + b)
  {
  }

  lemma {:induction false} ConsistentSums(hs: seq<Holding>, total: real)
    requires Consistent(hs, total)
    ensures HighAmount(hs) == Scaled(total, HighWeight(hs))
    ensures Total(hs) == Scaled(total, Weight(hs))
    ensures 0.0 <= HighAmount(hs) <= Total(hs)
    ensures HighWeight(hs) != 0.0 ==> HighCount(hs) > 0
  {
    if hs != [] {
      ConsistentSums(hs[1..], total);
      ScaledSum(total, hs[0].weight, HighWeight(hs[1..]));
      ScaledSum(total, hs[0].weight, Weight(hs[1..]));
    }
  }

  lemma AtMostWhole(total: real, w: real)
    requires total > 0.0
    ensures Scaled(total, w) <= total ==> w <= 1.0
  {
    assert w > 1.0 ==> total * (w - 1.0) > 0.0;
  }

  /** The planner's own rebalance proposal reaches the executor with its target. */
  lemma PlannerTarget(ctx: Context)
    ensures TargetHigh(StoredParams(RebalanceItem(ctx))) == DEFAULT_TARGET
  {
    TargetSurvives(RebalanceItem(ctx));
  }

  /**
   * The preview is honest: when the holdings of a single account have weights that match their
   * amounts, the sell amount shown differs by less than two won from what the executor moves out
   * of the high-risk group, and clamping it at zero never changes it.
   */
  lemma PreviewBound(book: Book, customer: string, facts: Facts)
    requires |Keep(book.accounts, OfCustomer(customer))| == 1
    requires Finance.Applies(book, customer)
    requires var mine := CustomerHoldings(book, customer); Consistent(mine, Total(mine))
    requires ReadContext(book, customer, facts).highRisk >= 0.55
    ensures var ctx := ReadContext(book, customer, facts);
            var before := HighAmount(CustomerHoldings(book, customer));
            var executed := ApplyRebalance(book, customer, StoredParams(RebalanceItem(ctx)));
            var after := HighAmount(CustomerHoldings(executed, customer));
            var total := Truncate(ctx.totalValue) as real;
            && -2.0 < PreviewKrw(ctx) as real - (before - after) < 2.0
            && PreviewKrw(ctx) == Truncate(Scaled(total, ctx.highRisk)) - Truncate(Scaled(total, DEFAULT_TARGET))
  {
    var mine := CustomerHoldings(book, customer);
    var ctx := ReadContext(book, customer, facts);
    var after := ApplyRebalance(book, customer, StoredParams(RebalanceItem(ctx)));
    PlannerTarget(ctx);
    var id := Finance.Target(book, customer);
    SingleAccount(book, customer);
    SingleAccount(after, customer);
    ConsistentSums(mine, Total(mine));
    AtMostWhole(Total(mine), HighWeight(mine));
    Finance.RebalanceSums(book.holdings, id, DEFAULT_TARGET);
    PreviewArithmetic(Total(mine), HighWeight(mine));
  }

  lemma SingleAccount(book: Book, customer: string)
    requires |Keep(book.accounts, OfCustomer(customer))| == 1
    ensures CustomerHoldings(book, customer)
            == Keep(book.holdings, InAccount(Keep(book.accounts, OfCustomer(customer))[0].id))
  {
    var accounts := Keep(book.accounts, OfCustomer(customer));
    assert accounts[1..] == [];
    assert HoldingsOf(accounts[1..], book.holdings) == [];
  }

  lemma PreviewArithmetic(v: real, h: real)
    requires v > 0.0 && 0.55 <= h <= 1.0
    ensures var t := Truncate(v) as real;
            var shown := Truncate(Scaled(t, h)) - Truncate(Scaled(t, DEFAULT_TARGET));
            && shown >= 0
            && -2.0 < shown as real - (Scaled(v, h) - Scaled(v, DEFAULT_TARGET)) < 2.0
  {
    var t := Truncate(v) as real;
    Product(t, h, DEFAULT_TARGET);
    Floors(Scaled(t, h), Scaled(t, DEFAULT_TARGET));
    Small(v - t, h - DEFAULT_TARGET);
    Expanded(v, t, h, DEFAULT_TARGET);
  }

  lemma Expanded(v: real, t: real, h: real, d: real)
    ensures Scaled(v, h) - Scaled(v, d) == Scaled(t, h) - Scaled(t, d) + Scaled(v - t, h - d)
  {
  }

  lemma Product(t: real, a: real, b: real)
    requires t >= 0.0 && a >= b >= 0.0
    ensures Scaled(t, a) >= Scaled(t, b) >= 0.0
  {
  }

  lemma Small(a: real, b: real)
    requires 0.0 <= a < 1.0 && 0.0 <= b < 1.0
    ensures 0.0 <= Scaled(a, b) < 1.0
  {
    assert a * b <= b;
  }
}
