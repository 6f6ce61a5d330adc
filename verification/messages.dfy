/** From what is said or sent to what is planned: signals, plans and the rows the customer is asked about. */
module Messages {
  import opened Options
  import opened Seqs
  import opened Text
  import opened Policy
  import opened Book
  import opened Proposals
  import opened Planner
  import opened Store
  import opened Workflow
  import opened Service
  import opened Invariants
  import opened Planning
  import opened Stepping
  import opened Requests
  import opened Isolation
  import opened Lifecycle
  import opened Feedback
  import Finance

  /* ---------- texts ---------- */

  predicate OccursAt(text: string, part: string, i: int) {
    0 <= i && i + |part| <= |text| && forall k {:trigger part[k]} :: 0 <= k < |part| ==> text[i + k] == part[k]
  }

  /** `part` stands somewhere in `text`. */
  ghost predicate Occurs(text: string, part: string) { exists i :: OccursAt(text, part, i) }

  lemma OccursAtExactly(text: string, part: string, i: int)
    ensures OccursAt(text, part, i) <==> At(text, i, part)
  {
    if 0 <= i && i + |part| <= |text| {
      var there := text[i..i + |part|];
      assert forall k :: 0 <= k < |part| ==> there[k] == text[i + k];
      if OccursAt(text, part, i) {
        assert there == part;
      }
    }
  }

  lemma OccursExactly(text: string, part: string)
    ensures Occurs(text, part) <==> Contains(text, part)
  {
    hide OccursAt;
    forall i ensures OccursAt(text, part, i) <==> At(text, i, part) {
      OccursAtExactly(text, part, i);
    }
    if Occurs(text, part) {
      var i :| OccursAt(text, part, i);
      assert At(text, i, part) && 0 <= i <= |text|;
    }
  }

  ghost predicate OfInsurance(text: string) { Occurs(text, "보험") || Occurs(text, "보장") || Occurs(text, "특약") }

  ghost predicate OfInvestment(text: string) {
    Occurs(text, "투자") || Occurs(text, "손실") || Occurs(text, "리밸런싱") || Occurs(text, "포트폴리오")
  }

  ghost predicate OfPayment(text: string) {
    Occurs(text, "카드") || Occurs(text, "상환") || Occurs(text, "현금") || Occurs(text, "생활비")
  }

  lemma MarkersExactly(text: string)
    ensures OfInsurance(text) <==> Mentions(text, ["보험", "보장", "특약"])
    ensures OfInvestment(text) <==> Mentions(text, ["투자", "손실", "리밸런싱", "포트폴리오"])
    ensures OfPayment(text) <==> Mentions(text, ["카드", "상환", "현금", "생활비"])
  {
    hide Occurs, Contains;
    forall part ensures Occurs(text, part) <==> Contains(text, part) {
      OccursExactly(text, part);
    }
    MentionsThree(text, "보험", "보장", "특약");
    MentionsFour(text, "투자", "손실", "리밸런싱", "포트폴리오");
    MentionsFour(text, "카드", "상환", "현금", "생활비");
  }

  lemma MentionsThree(text: string, a: string, b: string, c: string)
    ensures Mentions(text, [a, b, c]) <==> Contains(text, a) || Contains(text, b) || Contains(text, c)
  {
    hide Contains;
    var ms := [a, b, c];
    assert ms[0] in ms && ms[1] in ms && ms[2] in ms;
  }

  lemma MentionsFour(text: string, a: string, b: string, c: string, d: string)
    ensures Mentions(text, [a, b, c, d])
            <==> Contains(text, a) || Contains(text, b) || Contains(text, c) || Contains(text, d)
  {
    hide Contains;
    var ms := [a, b, c, d];
    assert ms[0] in ms && ms[1] in ms && ms[2] in ms && ms[3] in ms;
  }

  lemma MentionsFive(text: string, a: string, b: string, c: string, d: string, e: string)
    ensures Mentions(text, [a, b, c, d, e])
            <==> Contains(text, a) || Contains(text, b) || Contains(text, c) || Contains(text, d) || Contains(text, e)
  {
    hide Contains;
    var ms := [a, b, c, d, e];
    assert ms[0] in ms && ms[1] in ms && ms[2] in ms && ms[3] in ms && ms[4] in ms;
  }

  /* ---------- signals ---------- */

  /** What the figures alone say. */
  function FiguresSay(highRisk: real, cash: int, due: int): Signal {
    if highRisk >= 0.65 then Signal(DetectorOrigin, "portfolio_loss")
    else if cash != 0 && 2 * due > cash then Signal(DetectorOrigin, "upcoming_card_payment_pressure")
    else Signal(DetectorOrigin, "routine_check")
  }

  lemma {:induction false} AllStripped(s: string)
    requires forall c :: c in s ==> PyBlank(c)
    ensures Trim(s, PyBlank) == ""
  {
    hide PyBlank;
    if s != "" {
      assert s[0] in s;
      AllStripped(s[1..]);
    }
  }

  /**
   * A signal without a named kind. A message is about insurance before it is about investments, and
   * about these before payments; what an event says in its text does not count.
   */
  lemma UnnamedSignal(source: Source, blanks: string, text: string, ctx: Context)
    requires forall c :: c in blanks ==> PyBlank(c)
    ensures Detect(source, Payload(blanks, text), ctx)
            == if source == FromUser && OfInsurance(text) then Signal(UserOrigin, "insurance_gap")
               else if source == FromUser && OfInvestment(text) then Signal(UserOrigin, "portfolio_loss")
               else if source == FromUser && OfPayment(text) then
                 Signal(UserOrigin, "upcoming_card_payment_pressure")
               else FiguresSay(ctx.highRisk, ctx.facts.cash, ctx.facts.card + ctx.facts.repayment)
  {
    hide OfInsurance, OfInvestment, OfPayment, Mentions, Trim, PyBlank;
    AllStripped(blanks);
    MarkersExactly(text);
  }

  /** Python's `strip`: blanks at both ends, up to the first and the last other character. */
  lemma {:induction false} Stripped(front: string, core: string, back: string)
    requires forall c :: c in front + back ==> PyBlank(c)
    requires core != "" && !PyBlank(core[0]) && !PyBlank(core[|core| - 1])
    ensures Trim(front + core + back, PyBlank) == core
  {
    hide PyBlank;
    StartStripped(front, core + back);
    assert front + core + back == front + (core + back);
    EndStripped(core, back);
  }

  lemma {:induction false} StartStripped(front: string, rest: string)
    requires forall c :: c in front ==> PyBlank(c)
    requires rest != "" && !PyBlank(rest[0])
    ensures TrimStart(front + rest, PyBlank) == rest
  {
    hide PyBlank;
    if front == "" {
      assert front + rest == rest;
    } else {
      assert (front + rest)[1..] == front[1..] + rest && front[0] in front;
      StartStripped(front[1..], rest);
    }
  }

  lemma {:induction false} EndStripped(core: string, back: string)
    requires forall c :: c in back ==> PyBlank(c)
    requires core != "" && !PyBlank(core[|core| - 1])
    ensures TrimEnd(core + back, PyBlank) == core
  {
    hide PyBlank;
    if back == "" {
      assert core + back == core;
    } else {
      var n := |back| - 1;
      assert (core + back)[..|core + back| - 1] == core + back[..n] && back[n] in back;
      EndStripped(core, back[..n]);
    }
  }

  /** A kind that is named is the signal's kind, whatever the figures are; blanks around it do not matter. */
  lemma NamedSignal(source: Source, front: string, kind: string, back: string, text: string, ctx: Context)
    requires forall c :: c in front + back ==> PyBlank(c)
    requires kind != "" && !PyBlank(kind[0]) && !PyBlank(kind[|kind| - 1])
    ensures Detect(source, Payload(front + kind + back, text), ctx)
            == Signal(if source == FromUser then UserOrigin else EventOrigin, kind)
  {
    hide PyBlank, Trim;
    Stripped(front, kind, back);
  }

  /* ---------- plans ---------- */

  /** `c` is the lower-case letter `m`, or its capital. */
  predicate SameLetter(c: char, m: char) { c == m || ('A' <= c <= 'Z' && c as int + 32 == m as int) }

  predicate SpelledAt(kind: string, marker: string, i: int) {
    && 0 <= i && i + |marker| <= |kind|
    && forall k {:trigger marker[k]} :: 0 <= k < |marker| ==> SameLetter(kind[i + k], marker[k])
  }

  /** The marker stands in the kind, in small letters or capitals. */
  ghost predicate Spelled(kind: string, marker: string) { exists i :: SpelledAt(kind, marker, i) }

  predicate Small(marker: string) { forall c :: c in marker ==> !('A' <= c <= 'Z') }

  lemma SpelledExactly(kind: string, marker: string)
    requires Small(marker)
    ensures Spelled(kind, marker) <==> Contains(Lower(kind), marker)
  {
    hide Contains, OccursAt, SpelledAt, Small;
    OccursExactly(Lower(kind), marker);
    forall i ensures SpelledAt(kind, marker, i) <==> OccursAt(Lower(kind), marker, i) {
      SpelledAtExactly(kind, marker, i);
    }
  }

  lemma SpelledAtExactly(kind: string, marker: string, i: int)
    requires Small(marker)
    ensures SpelledAt(kind, marker, i) <==> OccursAt(Lower(kind), marker, i)
  {
    if 0 <= i && i + |marker| <= |kind| {
      forall k | 0 <= k < |marker|
        ensures SameLetter(kind[i + k], marker[k]) <==> Lower(kind)[i + k] == marker[k]
      {
        assert marker[k] in marker;
      }
    }
  }

  ghost predicate OfAssets(kind: string) {
    || Spelled(kind, "portfolio_loss") || Spelled(kind, "repayment") || Spelled(kind, "spending")
    || Spelled(kind, "income_drop") || Spelled(kind, "card_payment_pressure")
  }

  lemma SmallMarkers()
    ensures Small("portfolio_loss") && Small("repayment") && Small("spending")
    ensures Small("income_drop") && Small("card_payment_pressure") && Small("insurance")
  {
    hide Small;
    SmallRisks();
    SmallPayments();
  }

  lemma SmallRisks()
    ensures Small("portfolio_loss") && Small("income_drop") && Small("insurance")
  {
  }

  lemma SmallPayments()
    ensures Small("repayment") && Small("spending") && Small("card_payment_pressure")
  {
  }

  lemma AssetsExactly(kind: string)
    ensures OfAssets(kind) <==> AssetSignal(kind)
    ensures Spelled(kind, "insurance") <==> Contains(Lower(kind), "insurance")
  {
    hide Spelled, Contains, Lower, Mentions, Small;
    SmallMarkers();
    SpelledExactly(kind, "portfolio_loss");
    SpelledExactly(kind, "repayment");
    SpelledExactly(kind, "spending");
    SpelledExactly(kind, "income_drop");
    SpelledExactly(kind, "card_payment_pressure");
    SpelledExactly(kind, "insurance");
    MentionsFive(Lower(kind), "portfolio_loss", "repayment", "spending", "income_drop", "card_payment_pressure");
  }

  /** What the local planner makes of a signal: which runs at once, and whether and what the customer is asked. */
  ghost predicate Leads(db: Db, db': Db, reply: Reply, t: Uid, draw: nat, assets: bool, insurance: bool,
                        highRisk: real, gap: bool)
  {
    if assets then
      && db'.desk.journal == db.desk.journal + [Ran(ProposalId(draw, 0), MockHandler(Report), true),
                                                Ran(ProposalId(draw, 1), MockHandler(CashflowPlan), true)]
      && if highRisk >= 0.55 then Asks(db'.desk, reply, t, ProposalId(draw, 2), RebalancePortfolio)
         else if gap then Asks(db'.desk, reply, t, ProposalId(draw, 2), ReviewInsurance)
         else Says(reply, t, Monitoring, None)
    else if gap || insurance then
      && db'.desk.journal == db.desk.journal + [Ran(ProposalId(draw, 0), MockHandler(Report), true)]
      && Asks(db'.desk, reply, t, ProposalId(draw, 1), ReviewInsurance)
    else
      && db'.desk.journal == db.desk.journal && db'.desk.proposals == db.desk.proposals
      && Says(reply, t, Monitoring, None)
  }

  /** The reply shows that `t` waits for the approval of `p`, which is of this kind. */
  predicate Asks(desk: Desk, reply: Reply, t: Uid, p: Uid, kind: Kind) {
    Says(reply, t, UserApproval, Some(p)) && p in desk.proposals && desk.proposals[p].kind == kind
  }

  lemma AssetLeads(cfg: Config, db: Db, t: Uid, env: Env, source: Source, payload: Payload)
    requires Local(cfg) && Inv(db.desk) && Undrawn(db.desk.proposals, env.draw)
    requires Resolve(cfg, db.desk, t, env.principal) == 0 && SessionOf(db.desk, t).state == Monitoring
    requires AssetSignal(SensedBy(db, t, source, payload).signal.value.kind)
    ensures var (db', reply) := TriggerEvent(cfg, db, t, env, source, payload);
            var ctx := SensedBy(db, t, source, payload).context.value;
            Leads(db, db', reply, t, env.draw, true, false, ctx.highRisk, ctx.gap.Some?)
  {
    hide Inv, Undrawn, TriggerEvent, AssetSignal, Resolve, Describe, StoredParams, Queue;
    InvCore(db.desk);
    AssetEvent(cfg, db, t, env, source, payload);
    AssetQueue(cfg, db, t, env, source, payload);
  }

  lemma InsuranceLeads(cfg: Config, db: Db, t: Uid, env: Env, source: Source, payload: Payload)
    requires Local(cfg) && Inv(db.desk) && Undrawn(db.desk.proposals, env.draw)
    requires Resolve(cfg, db.desk, t, env.principal) == 0 && SessionOf(db.desk, t).state == Monitoring
    requires var s := SensedBy(db, t, source, payload);
             cfg.Agent(s.signal.value, s.context.value, env.seed) == Some(InsurancePlan(s.context.value))
    ensures var (db', reply) := TriggerEvent(cfg, db, t, env, source, payload);
            Leads(db, db', reply, t, env.draw, false, true, 0.0, false)
  {
    hide Core, Undrawn, TriggerEvent, Drafts, Rows, NeedingIds, AutoRuns, InsurancePlan, StoredParams, ReadContext,
         Detect, Resolve, Describe, EventBook, AfterEvent, QueueShown, CopiesAgree;
    var ctx := SensedBy(db, t, source, payload).context.value;
    var drafts := Drafts(InsurancePlan(ctx));
    EventEffect(cfg, db, t, env, source, payload);
    InsurancePlanSplits(cfg, ctx, env.draw);
    assert drafts[..|drafts|] == drafts;
    StoredRow(cfg, db.desk.proposals, db.desk.threads[t].session, drafts, env.draw, 1);
  }

  lemma NothingLeads(cfg: Config, db: Db, t: Uid, env: Env, source: Source, payload: Payload)
    requires Local(cfg) && Inv(db.desk) && Undrawn(db.desk.proposals, env.draw)
    requires Resolve(cfg, db.desk, t, env.principal) == 0 && SessionOf(db.desk, t).state == Monitoring
    requires var s := SensedBy(db, t, source, payload);
             cfg.Agent(s.signal.value, s.context.value, env.seed) == Some([])
    ensures var (db', reply) := TriggerEvent(cfg, db, t, env, source, payload);
            Leads(db, db', reply, t, env.draw, false, false, 0.0, false)
  {
    hide Core, Undrawn, TriggerEvent, ReadContext, Detect, Resolve, Describe, EventBook, AfterEvent, QueueShown,
         CopiesAgree;
    EventEffect(cfg, db, t, env, source, payload);
    NothingPlanned(cfg, db.desk, db.desk.threads[t].session, env.draw);
  }

  lemma NothingPlanned(cfg: Config, desk: Desk, session: Uid, draw: nat)
    requires session in desk.sessions
    ensures Drafts([]) == [] && NeedingIds([], draw) == []
    ensures var planned := PlannedDesk(cfg, desk, session, [], draw);
            planned.journal == desk.journal && planned.proposals == desk.proposals
  {
    assert desk.journal + [] == desk.journal;
  }

  /**
   * What an accepted signal leads to with the local planner, for every kind and all figures. A kind
   * of losses, repayments, spending, income or card payments: two automatic runs, and a rebalance
   * to approve from 55% on, else a review if a gap is reported. Otherwise, with a gap or a kind of
   * insurance: one automatic run and a review to approve. Otherwise nothing.
   */
  lemma SignalLeads(cfg: Config, db: Db, t: Uid, env: Env, source: Source, payload: Payload)
    requires Local(cfg) && Inv(db.desk) && Undrawn(db.desk.proposals, env.draw)
    requires Resolve(cfg, db.desk, t, env.principal) == 0 && SessionOf(db.desk, t).state == Monitoring
    ensures var (db', reply) := TriggerEvent(cfg, db, t, env, source, payload);
            var c, kind := db.desk.threads[t].customer, SensedBy(db, t, source, payload).signal.value.kind;
            Leads(db, db', reply, t, env.draw, OfAssets(kind), Spelled(kind, "insurance"),
                  HighWeight(CustomerHoldings(db.book, c)), HasGap(db.book, c))
  {
    hide Inv, Undrawn, TriggerEvent, AssetSignal, Resolve, OfAssets, Spelled, Contains, Lower, HasGap, HighWeight,
         CustomerHoldings, AssetPlan, InsurancePlan, Detect, Asks;
    var s := SensedBy(db, t, source, payload);
    InvCore(db.desk);
    SensedContext(db, t, source, payload);
    AssetsExactly(s.signal.value.kind);
    assert cfg.Agent(s.signal.value, s.context.value, env.seed) == Some(StubPlan(s.signal.value, s.context.value));
    if AssetSignal(s.signal.value.kind) {
      AssetLeads(cfg, db, t, env, source, payload);
    } else if s.context.value.gap.Some? || Contains(Lower(s.signal.value.kind), "insurance") {
      InsuranceLeads(cfg, db, t, env, source, payload);
    } else {
      NothingLeads(cfg, db, t, env, source, payload);
    }
  }

  /** The same for the event an operator sends, by the kind named in it. */
  lemma EventLeads(cfg: Config, db: Db, t: Uid, env: Env, source: Source, front: string, kind: string, back: string,
                   text: string)
    requires Local(cfg) && Inv(db.desk) && Undrawn(db.desk.proposals, env.draw) && env.principal.role.Operator?
    requires Resolve(cfg, db.desk, t, env.principal) == 0 && SessionOf(db.desk, t).state == Monitoring
    requires forall c :: c in front + back ==> PyBlank(c)
    requires kind != "" && !PyBlank(kind[0]) && !PyBlank(kind[|kind| - 1])
    ensures var (db', reply) := Serve(cfg, db, Event(env, t, source, Payload(front + kind + back, text)));
            var c := db.desk.threads[t].customer;
            Leads(db, db', reply, t, env.draw, OfAssets(kind), Spelled(kind, "insurance"),
                  HighWeight(CustomerHoldings(db.book, c)), HasGap(db.book, c))
  {
    hide Inv, Undrawn, TriggerEvent, OfAssets, Spelled, HasGap, HighWeight, CustomerHoldings, Leads, Local, PyBlank,
         Detect, Resolve;
    var payload := Payload(front + kind + back, text);
    SignalLeads(cfg, db, t, env, source, payload);
    NamedSignal(source, front, kind, back, text, SensedBy(db, t, source, payload).context.value);
  }

  /** An event that names no kind leads to what the figures alone say, whatever its text is. */
  lemma UnnamedEventLeads(cfg: Config, db: Db, t: Uid, env: Env, blanks: string, text: string)
    requires Local(cfg) && Inv(db.desk) && Undrawn(db.desk.proposals, env.draw) && env.principal.role.Operator?
    requires Resolve(cfg, db.desk, t, env.principal) == 0 && SessionOf(db.desk, t).state == Monitoring
    requires forall c :: c in blanks ==> PyBlank(c)
    ensures var (db', reply) := Serve(cfg, db, Event(env, t, FromEvent, Payload(blanks, text)));
            var c := db.desk.threads[t].customer;
            var highRisk, gap := HighWeight(CustomerHoldings(db.book, c)), HasGap(db.book, c);
            var facts := FactsOf(db.desk, c);
            Leads(db, db', reply, t, env.draw,
                  highRisk >= 0.65 || (facts.cash != 0 && 2 * (facts.card + facts.repayment) > facts.cash),
                  false, highRisk, gap)
  {
    hide Inv, Undrawn, TriggerEvent, OfAssets, Spelled, HasGap, HighWeight, CustomerHoldings, Asks, Local, PyBlank,
         Detect, Resolve, FactsOf;
    var payload := Payload(blanks, text);
    InvCore(db.desk);
    SensedContext(db, t, FromEvent, payload);
    SignalLeads(cfg, db, t, env, FromEvent, payload);
    UnnamedSignal(FromEvent, blanks, text, SensedBy(db, t, FromEvent, payload).context.value);
    NamedKinds();
  }

  lemma NamedKinds()
    ensures OfAssets("portfolio_loss") && OfAssets("upcoming_card_payment_pressure")
    ensures !OfAssets("insurance_gap") && Spelled("insurance_gap", "insurance")
    ensures !OfAssets("routine_check") && !Spelled("routine_check", "insurance")
  {
    hide OfAssets, Spelled, AssetSignal, Contains, Lower;
    AssetsExactly("portfolio_loss");
    AssetsExactly("upcoming_card_payment_pressure");
    AssetsExactly("insurance_gap");
    AssetsExactly("routine_check");
    PortfolioLossIsAsset();
    CardPressureIsAsset();
    GapIsInsurance();
    RoutineIsNeither();
  }

  /**
   * A chat message sent while nothing waits. About insurance: a report at once and a review to
   * approve. Else about investments or payments: two automatic runs, and an approval exactly when
   * at least 55% are at risk or a gap is reported. Else what the figures alone lead to.
   */
  lemma MessageLeads(cfg: Config, db: Db, t: Uid, env: Env, text: string)
    requires Local(cfg) && Inv(db.desk) && Undrawn(db.desk.proposals, env.draw)
    requires Resolve(cfg, db.desk, t, env.principal) == 0 && SessionOf(db.desk, t).state == Monitoring
    ensures var (db', reply) := Serve(cfg, db, Message(env, t, text));
            var c := db.desk.threads[t].customer;
            var highRisk, gap := HighWeight(CustomerHoldings(db.book, c)), HasGap(db.book, c);
            var facts := FactsOf(db.desk, c);
            if OfInsurance(text) then Leads(db, db', reply, t, env.draw, false, true, highRisk, gap)
            else if OfInvestment(text) || OfPayment(text) then
              Leads(db, db', reply, t, env.draw, true, false, highRisk, gap)
            else
              Leads(db, db', reply, t, env.draw,
                    highRisk >= 0.65 || (facts.cash != 0 && 2 * (facts.card + facts.repayment) > facts.cash),
                    false, highRisk, gap)
  {
    hide Inv, Undrawn, TriggerEvent, PostMessage, OfAssets, Spelled, HasGap, HighWeight, CustomerHoldings, Asks, Local,
         Detect, Resolve, OfInsurance, OfInvestment, OfPayment, FactsOf;
    InvCore(db.desk);
    SensedContext(db, t, FromUser, Payload("", text));
    MessageReply(cfg, db, t, env, text);
    SignalLeads(cfg, db, t, env, FromUser, Payload("", text));
    UnnamedSignal(FromUser, "", text, SensedBy(db, t, FromUser, Payload("", text)).context.value);
    NamedKinds();
  }

  /* ---------- what the customer is shown ---------- */

  /** A step as it is stored: its action, its amount, and that the customer has to approve it. */
  predicate StepOf(v: Value, action: string, amount: Value, asked: bool) {
    && v.Obj?
    && Lookup(v.fields, "action") == Text(action) && Lookup(v.fields, "amount_krw") == amount
    && Lookup(v.fields, "requires_customer_approval") == Truth(asked)
  }

  /** The stored steps of a rebalance: sell, then move to cash, both for the same amount. */
  predicate SellsAndMoves(params: Params, n: int) {
    var steps := Lookup(params, "execution_steps");
    && steps.Items? && |steps.items| == 2
    && StepOf(steps.items[0], "sell", Num(n as real), true)
    && StepOf(steps.items[1], "move_to_cash", Num(n as real), true)
  }

  lemma RebalanceShows(ctx: Context)
    ensures SellsAndMoves(StoredParams(RebalanceItem(ctx)), PreviewKrw(ctx)) && PreviewKrw(ctx) >= 0
  {
    hide StoredParams, FieldStored, Truncate;
    ParamsAreStored(RebalanceItem(ctx));
  }

  predicate OneStep(params: Params, action: string, amount: Value, asked: bool) {
    var steps := Lookup(params, "execution_steps");
    steps.Items? && |steps.items| == 1 && StepOf(steps.items[0], action, amount, asked)
  }

  /** The automatic report on an asset signal carries the figures it is about. */
  lemma ReportShows(ctx: Context)
    ensures var params := StoredParams(ReportItem(ctx));
            && Lookup(params, "available_cash_krw") == Num(ctx.facts.cash as real)
            && Lookup(params, "upcoming_card_payment_krw") == Num(ctx.facts.card as real)
            && Lookup(params, "liquidity_buffer_krw") == Num(ctx.facts.cash as real)
            && Lookup(params, "report_focus") == Text("cashflow_asset_defense")
            && OneStep(params, "create_report", Null, false)
  {
    hide StoredParams;
    ParamsAreStored(ReportItem(ctx));
  }

  lemma CashflowShows(ctx: Context)
    ensures var params := StoredParams(CashflowItem(ctx));
            && Lookup(params, "available_cash_krw") == Num(ctx.facts.cash as real)
            && Lookup(params, "liquidity_buffer_krw") == Num(ctx.facts.cash as real)
            && Lookup(params, "report_focus") == Text("three_month_cashflow")
            && OneStep(params, "create_report", Num(ctx.facts.cash as real), false)
  {
    hide StoredParams;
    ParamsAreStored(CashflowItem(ctx));
  }

  /** A rebalance is proposed with its two targets and the cash it is to defend. */
  lemma TargetsShown(ctx: Context)
    ensures var params := StoredParams(RebalanceItem(ctx));
            && Lookup(params, "target_high_risk_weight") == Num(0.45)
            && Lookup(params, "target_low_risk_weight") == Num(0.55)
            && Lookup(params, "liquidity_buffer_krw") == Num(ctx.facts.cash as real)
  {
    hide StoredParams, StepShown;
    ParamsAreStored(RebalanceItem(ctx));
  }

  /** An insurance review is proposed for the reported gap. */
  lemma ReviewShows(gap: string)
    ensures var params := StoredParams(ReviewItem(gap));
            && Lookup(params, "reason") == Text(gap) && Lookup(params, "insurance_review_reason") == Text(gap)
            && OneStep(params, "review", Null, true)
  {
    hide StoredParams;
    ParamsAreStored(ReviewItem(gap));
  }

  /** A plan for insurance is about the reported gap; without one it names a gap in general. */
  lemma InsurancePlanShows(ctx: Context)
    ensures var items := InsurancePlan(ctx);
            var gap := if ctx.gap.Some? then ctx.gap.value else "보험 보장 공백";
            && |items| == 2
            && Lookup(StoredParams(items[0]), "insurance_review_reason") == Text(gap)
            && Lookup(StoredParams(items[0]), "report_focus") == Text("insurance_gap")
            && OneStep(StoredParams(items[0]), "create_report", Null, false)
            && Lookup(StoredParams(items[1]), "reason") == Text(gap)
            && OneStep(StoredParams(items[1]), "review", Null, true)
  {
    hide StoredParams;
    ParamsAreStored(InsurancePlan(ctx)[0]);
    ReviewShows(if ctx.gap.Some? then ctx.gap.value else "보험 보장 공백");
  }

  /** The tables behind the readers are as they were after an asset signal: its automatic runs touch none. */
  lemma AssetBook(cfg: Config, db: Db, t: Uid, env: Env, source: Source, payload: Payload)
    requires Local(cfg) && Core(db.desk) && Undrawn(db.desk.proposals, env.draw)
    requires Resolve(cfg, db.desk, t, env.principal) == 0 && SessionOf(db.desk, t).state == Monitoring
    ensures TriggerEvent(cfg, db, t, env, source, payload).0.book == db.book
  {
    hide Core, Undrawn, TriggerEvent, Planned, StubPlan, NeedingIds, PlannedSaved, Describe;
    var s := SensedBy(db, t, source, payload);
    var items := StubPlan(s.signal.value, s.context.value);
    assert cfg.Agent(s.signal.value, s.context.value, env.seed) == Some(items);
    EventEffect(cfg, db, t, env, source, payload);
    StubPlans(s.signal.value, s.context.value);
    StubSweep(cfg, db.book, db.desk.sessions[db.desk.threads[t].session].customer, items, env.draw, |items|);
  }

  lemma EventSessions(cfg: Config, db: Db, t: Uid, env: Env, source: Source, payload: Payload)
    requires Local(cfg) && Core(db.desk) && Undrawn(db.desk.proposals, env.draw)
    requires Resolve(cfg, db.desk, t, env.principal) == 0 && SessionOf(db.desk, t).state == Monitoring
    ensures var desk' := TriggerEvent(cfg, db, t, env, source, payload).0.desk;
            var sid := db.desk.threads[t].session;
            sid in desk'.sessions && desk'.sessions[sid].customer == db.desk.sessions[sid].customer
  {
    hide Core, Undrawn, TriggerEvent, StubPlan, NeedingIds, Describe, Rows, AutoRuns;
    var s := SensedBy(db, t, source, payload);
    assert cfg.Agent(s.signal.value, s.context.value, env.seed).Some?;
    EventEffect(cfg, db, t, env, source, payload);
  }

  /**
   * The preview is honest. An asset signal for a customer whose single account is at least 55%
   * high-risk, with weights that match the amounts, stores a rebalance proposal for approval. Its
   * steps show one whole amount, and executing that very row moves this amount out of the
   * high-risk group, up to less than two won.
   */
  lemma ShownAmountMoves(cfg: Config, db: Db, t: Uid, env: Env, source: Source, payload: Payload, newId: Uid)
    requires Local(cfg) && Core(db.desk) && Undrawn(db.desk.proposals, env.draw)
    requires Resolve(cfg, db.desk, t, env.principal) == 0 && SessionOf(db.desk, t).state == Monitoring
    requires AssetSignal(SensedBy(db, t, source, payload).signal.value.kind)
    requires var c := db.desk.threads[t].customer;
             var mine := CustomerHoldings(db.book, c);
             && |Keep(db.book.accounts, OfCustomer(c))| == 1 && Finance.Applies(db.book, c)
             && Consistent(mine, Total(mine)) && HighWeight(mine) >= 0.55
    ensures var db' := TriggerEvent(cfg, db, t, env, source, payload).0;
            var c, p := db.desk.threads[t].customer, ProposalId(env.draw, 2);
            && p in db'.desk.proposals && db'.desk.proposals[p].session in db'.desk.sessions
            && var row := db'.desk.proposals[p];
               var after := Execute(cfg, db', p, newId).book;
               var moved := HighAmount(CustomerHoldings(db'.book, c)) - HighAmount(CustomerHoldings(after, c));
               && row.kind == RebalancePortfolio && row.external && row.status == Proposed
               && exists n: nat :: SellsAndMoves(row.params, n) && -2.0 < n as real - moved < 2.0
  {
    hide Undrawn, TriggerEvent, LinkedProposals, Recorded, StoredParams, AssetSignal, Detect, Describe, PreviewKrw,
         SellsAndMoves, HighWeight, HighAmount, Total, Consistent, CustomerHoldings, HasGap, Finance.Applies, Keep;
    var c := db.desk.threads[t].customer;
    var ctx := ReadContext(db.book, c, FactsOf(db.desk, c));
    SensedContext(db, t, source, payload);
    AssetEvent(cfg, db, t, env, source, payload);
    AssetBook(cfg, db, t, env, source, payload);
    EventSessions(cfg, db, t, env, source, payload);
    PreviewBound(db.book, c, FactsOf(db.desk, c));
    RebalanceShows(ctx);
    var n: nat := PreviewKrw(ctx);
    assert SellsAndMoves(StoredParams(RebalanceItem(ctx)), n);
  }
}
