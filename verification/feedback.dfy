/** The loop from readers over detector and planner to executors, and back: it settles. */
module Feedback {
  import opened Options
  import opened Seqs
  import opened Policy
  import opened Book
  import opened Proposals
  import opened Planner
  import opened Store
  import opened Workflow
  import opened Service
  import opened Invariants
  import opened Planning
  import opened Stepping
  import opened Requests
  import opened Safety
  import opened OwnBooks
  import opened OwnDesks
  import opened Isolation
  import opened Lifecycle
  import Finance

  /** The local planner instead of a foreign worker, and handlers that act on the mock tables. */
  predicate Local(cfg: Config) { cfg.mode.MockApply? && cfg.worker.LocalStub? }

  /* ---------- what an asset signal leads to ---------- */

  function AssetRuns(cfg: Config, draw: nat): seq<Entry> {
    [RunRow(cfg, ProposalId(draw, 0), Report), RunRow(cfg, ProposalId(draw, 1), CashflowPlan)]
  }

  function AssetNeeds(ctx: Context, draw: nat): seq<Uid> {
    if ctx.highRisk >= 0.55 then
      if ctx.gap.Some? then [ProposalId(draw, 2), ProposalId(draw, 3)] else [ProposalId(draw, 2)]
    else if ctx.gap.Some? then [ProposalId(draw, 2)]
    else []
  }

  lemma NeedsLast(cfg: Config, drafts: seq<Draft>, last: Draft, draw: nat)
    ensures NeedingIds(drafts + [last], draw)
            == NeedingIds(drafts, draw) + if NeedsDraft(last) then [ProposalId(draw, |drafts|)] else []
    ensures AutoRuns(cfg, drafts + [last], draw)
            == AutoRuns(cfg, drafts, draw)
               + if NeedsDraft(last) then [] else [RunRow(cfg, ProposalId(draw, |drafts|), last.kind)]
  {
    assert (drafts + [last])[..|drafts|] == drafts;
  }

  lemma DraftsLast(items: seq<Item>, item: Item)
    ensures Drafts(items + [item]) == Drafts(items) + [DraftOf(item)]
  {
  }

  lemma AssetStart(cfg: Config, ctx: Context, draw: nat)
    ensures var two := Drafts([ReportItem(ctx), CashflowItem(ctx)]);
            NeedingIds(two, draw) == [] && AutoRuns(cfg, two, draw) == AssetRuns(cfg, draw)
  {
    DraftsLast([], ReportItem(ctx));
    DraftsLast([ReportItem(ctx)], CashflowItem(ctx));
    NeedsLast(cfg, [], DraftOf(ReportItem(ctx)), draw);
    NeedsLast(cfg, [DraftOf(ReportItem(ctx))], DraftOf(CashflowItem(ctx)), draw);
    assert [] + [ReportItem(ctx)] == [ReportItem(ctx)];
    assert [ReportItem(ctx)] + [CashflowItem(ctx)] == [ReportItem(ctx), CashflowItem(ctx)];
  }

  /** The plan for an asset signal: two automatic items, then what the customer has to approve. */
  lemma AssetPlanSplits(cfg: Config, ctx: Context, draw: nat)
    ensures NeedingIds(Drafts(AssetPlan(ctx)), draw) == AssetNeeds(ctx, draw)
    ensures AutoRuns(cfg, Drafts(AssetPlan(ctx)), draw) == AssetRuns(cfg, draw)
  {
    var two := [ReportItem(ctx), CashflowItem(ctx)];
    var three := two + if ctx.highRisk >= 0.55 then [RebalanceItem(ctx)] else [];
    AssetStart(cfg, ctx, draw);
    if ctx.highRisk >= 0.55 {
      DraftsLast(two, RebalanceItem(ctx));
      NeedsLast(cfg, Drafts(two), DraftOf(RebalanceItem(ctx)), draw);
    } else {
      assert three == two;
    }
    match ctx.gap
    case None => assert AssetPlan(ctx) == three;
    case Some(gap) =>
      DraftsLast(three, ReviewItem(gap));
      NeedsLast(cfg, Drafts(three), DraftOf(ReviewItem(gap)), draw);
      assert AssetPlan(ctx) == three + [ReviewItem(gap)];
  }

  lemma AssetHead(ctx: Context)
    requires ctx.highRisk >= 0.55
    ensures var plan := AssetPlan(ctx);
            |plan| > 2 && Drafts(plan)[2] == DraftOf(RebalanceItem(ctx)) && NeedsDraft(Drafts(plan)[2])
  {
    var two := [ReportItem(ctx), CashflowItem(ctx)];
    assert AssetPlan(ctx)[2] == RebalanceItem(ctx);
  }

  lemma AssetIsPlanned(cfg: Config, signal: Signal, ctx: Context, seed: nat)
    requires Local(cfg) && AssetSignal(signal.kind)
    ensures cfg.Agent(signal, ctx, seed) == Some(AssetPlan(ctx))
  {
    assert cfg.Agent(signal, ctx, seed) == Some(StubPlan(signal, ctx));
  }

  /** An accepted asset signal: two automatic runs and, exactly when something is amiss, an approval. */
  lemma AssetEvent(cfg: Config, db: Db, t: Uid, env: Env, source: Source, payload: Payload)
    requires Local(cfg) && Core(db.desk) && Undrawn(db.desk.proposals, env.draw)
    requires Resolve(cfg, db.desk, t, env.principal) == 0 && SessionOf(db.desk, t).state == Monitoring
    requires AssetSignal(SensedBy(db, t, source, payload).signal.value.kind)
    ensures var (db', reply) := TriggerEvent(cfg, db, t, env, source, payload);
            var ctx := SensedBy(db, t, source, payload).context.value;
            var next := Head(AssetNeeds(ctx, env.draw));
            && Says(reply, t, StateFor(next), next)
            && db'.desk.journal == db.desk.journal + AssetRuns(cfg, env.draw)
            && (ctx.highRisk >= 0.55 ==>
                  ProposalId(env.draw, 2) in db'.desk.proposals
                  && db'.desk.proposals[ProposalId(env.draw, 2)]
                     == NewRow(db.desk.threads[t].session, DraftOf(RebalanceItem(ctx))))
  {
    hide Core, Undrawn, TriggerEvent, Drafts, Rows, NeedingIds, AutoRuns, AssetPlan, StoredParams, ReadContext, Detect,
         Resolve, Describe, EventBook, Local, AfterEvent;
    var s := SensedBy(db, t, source, payload);
    var ctx := s.context.value;
    var drafts := Drafts(AssetPlan(ctx));
    EventEffect(cfg, db, t, env, source, payload);
    AssetIsPlanned(cfg, s.signal.value, ctx, env.seed);
    AssetPlanSplits(cfg, ctx, env.draw);
    assert drafts[..|drafts|] == drafts;
    if ctx.highRisk >= 0.55 {
      AssetHead(ctx);
      StoredRow(cfg, db.desk.proposals, db.desk.threads[t].session, drafts, env.draw, 2);
    }
  }

  lemma DetectedLoss(source: Source, payload: Payload, ctx: Context)
    requires ExplicitKind(source, payload) == "" && ctx.highRisk >= 0.65
    ensures AssetSignal(Detect(source, payload, ctx).kind)
  {
    PortfolioLossIsAsset();
  }

  /**
   * Detection reaches approval: an event that names no kind, for a customer whose holdings are at
   * least 65% high-risk, stops at the customer's approval of a rebalance after exactly two
   * automatic executions, whatever the other data are.
   */
  lemma DetectionReachesApproval(cfg: Config, db: Db, t: Uid, env: Env, source: Source, payload: Payload)
    requires Local(cfg) && Core(db.desk) && Undrawn(db.desk.proposals, env.draw)
    requires Resolve(cfg, db.desk, t, env.principal) == 0 && SessionOf(db.desk, t).state == Monitoring
    requires ExplicitKind(source, payload) == ""
    requires HighWeight(CustomerHoldings(db.book, db.desk.threads[t].customer)) >= 0.65
    ensures var (db', reply) := TriggerEvent(cfg, db, t, env, source, payload);
            var p := ProposalId(env.draw, 2);
            && Says(reply, t, UserApproval, Some(p))
            && db'.desk.journal == db.desk.journal + AssetRuns(cfg, env.draw)
            && p in db'.desk.proposals && db'.desk.proposals[p].kind == RebalancePortfolio
            && db'.desk.proposals[p].status == Proposed && Needs(db'.desk.proposals[p])
            && db'.desk.proposals[p].session == db.desk.threads[t].session
  {
    hide Undrawn, TriggerEvent, LinkedProposals, Recorded, StoredParams;
    SessionCustomer(db.desk, t);
    DetectedLoss(source, payload, SensedBy(db, t, source, payload).context.value);
    AssetEvent(cfg, db, t, env, source, payload);
  }

  /** A plan for insurance: a report at once, a review for approval. */
  lemma InsurancePlanSplits(cfg: Config, ctx: Context, draw: nat)
    ensures var drafts := Drafts(InsurancePlan(ctx));
            && |drafts| == 2 && drafts[1].kind == ReviewInsurance && NeedsDraft(drafts[1])
            && NeedingIds(drafts, draw) == [ProposalId(draw, 1)]
            && AutoRuns(cfg, drafts, draw) == [RunRow(cfg, ProposalId(draw, 0), Report)]
  {
    hide StoredParams;
    var drafts := Drafts(InsurancePlan(ctx));
    NeedsLast(cfg, [], drafts[0], draw);
    NeedsLast(cfg, [drafts[0]], drafts[1], draw);
    assert [] + [drafts[0]] == [drafts[0]] && drafts == [drafts[0]] + [drafts[1]];
  }

  lemma InsuranceIsPlanned(cfg: Config, payload: Payload, ctx: Context, seed: nat)
    requires Local(cfg) && payload.kind == "" && Mentions(payload.text, ["보험", "보장", "특약"])
    ensures cfg.Agent(Detect(FromUser, payload, ctx), ctx, seed) == Some(InsurancePlan(ctx))
  {
    GapIsInsurance();
    var signal := Detect(FromUser, payload, ctx);
    assert signal.kind == INSURANCE_GAP;
    assert cfg.Agent(signal, ctx, seed) == Some(StubPlan(signal, ctx));
  }

  /**
   * A chat message that mentions insurance, sent while nothing waits, stops at the customer's
   * approval of an insurance review after exactly one automatic execution, whatever the data are.
   */
  lemma MessageReachesReview(cfg: Config, db: Db, t: Uid, env: Env, text: string)
    requires Local(cfg) && Core(db.desk) && Undrawn(db.desk.proposals, env.draw)
    requires Resolve(cfg, db.desk, t, env.principal) == 0 && SessionOf(db.desk, t).state == Monitoring
    requires Mentions(text, ["보험", "보장", "특약"])
    ensures var (db', reply) := PostMessage(cfg, db, t, env, text);
            var p := ProposalId(env.draw, 1);
            && Says(reply, t, UserApproval, Some(p))
            && db'.desk.journal == db.desk.journal + [RunRow(cfg, ProposalId(env.draw, 0), Report)]
            && p in db'.desk.proposals && db'.desk.proposals[p].kind == ReviewInsurance
            && db'.desk.proposals[p].status == Proposed && Needs(db'.desk.proposals[p])
            && db'.desk.proposals[p].session == db.desk.threads[t].session
  {
    hide Core, Undrawn, TriggerEvent, PostMessage, Drafts, Rows, NeedingIds, AutoRuns, InsurancePlan, StoredParams,
         ReadContext, Detect, Resolve, Describe, EventBook, Mentions, Local, AfterEvent;
    var payload := Payload("", text);
    var s := SensedBy(db, t, FromUser, payload);
    var ctx := s.context.value;
    var drafts := Drafts(InsurancePlan(ctx));
    MessageReply(cfg, db, t, env, text);
    EventEffect(cfg, db, t, env, FromUser, payload);
    InsuranceIsPlanned(cfg, payload, ctx, env.seed);
    InsurancePlanSplits(cfg, ctx, env.draw);
    assert drafts[..|drafts|] == drafts;
    StoredRow(cfg, db.desk.proposals, db.desk.threads[t].session, drafts, env.draw, 1);
  }

  /* ---------- what the executors keep ---------- */

  function FirstRows(book: Book, c: string): seq<Holding> {
    var accounts := Keep(book.accounts, OfCustomer(c));
    if accounts == [] then [] else Keep(book.holdings, InAccount(accounts[0].id))
  }

  /** The high-risk weight in all accounts but the one that rebalancing works on. */
  function RestWeight(book: Book, c: string): real {
    var accounts := Keep(book.accounts, OfCustomer(c));
    if accounts == [] then 0.0 else HighWeight(HoldingsOf(accounts[1..], book.holdings))
  }

  /**
   * Where a customer's books start from: whether the first account has a value to rebalance, its
   * number of high-risk rows and their weight, and the high-risk weight in the other accounts.
   */
  datatype Shape = Shape(works: bool, high: nat, start: real, rest: real)

  function ShapeOf(book: Book, c: string): Shape {
    Shape(Finance.Applies(book, c), HighCount(FirstRows(book, c)), HighWeight(FirstRows(book, c)), RestWeight(book, c))
  }

  /** The high-risk weight of the first account once it has been rebalanced; without a value nothing is written. */
  function FirstMended(shape: Shape): real {
    if shape.works then Finance.Portion(shape.high, DEFAULT_TARGET) else shape.start
  }

  /** The high-risk weight the reader then reports. */
  function MendedWeight(shape: Shape): real { FirstMended(shape) + shape.rest }

  lemma ReaderSplits(book: Book, c: string)
    ensures HighWeight(CustomerHoldings(book, c)) == HighWeight(FirstRows(book, c)) + RestWeight(book, c)
  {
    var accounts := Keep(book.accounts, OfCustomer(c));
    if accounts != [] {
      Finance.HighWeightAppend(Keep(book.holdings, InAccount(accounts[0].id)),
                               HoldingsOf(accounts[1..], book.holdings));
    }
  }

  /**
   * What is known of a customer's books: the first account's high-risk weight is the mended one or,
   * unless that is known to be mended, still the first one; the other accounts; and the cover.
   */
  ghost predicate Mended(book: Book, c: string, shape: Shape, risk: bool, cover: bool) {
    && Finance.UniqueAccounts(book.accounts) && Unshared(book)
    && Finance.Applies(book, c) == shape.works
    && HighCount(FirstRows(book, c)) == shape.high && RestWeight(book, c) == shape.rest
    && (|| HighWeight(FirstRows(book, c)) == FirstMended(shape)
        || (!risk && HighWeight(FirstRows(book, c)) == shape.start))
    && (cover ==> !HasGap(book, c))
  }

  lemma OwnFirstRows(book: Book, c: string)
    ensures FirstRows(OwnBook(book, c), c) == FirstRows(book, c)
    ensures RestWeight(OwnBook(book, c), c) == RestWeight(book, c)
    ensures Finance.Applies(OwnBook(book, c), c) == Finance.Applies(book, c)
    ensures HasGap(OwnBook(book, c), c) == HasGap(book, c)
  {
    var accounts := Keep(book.accounts, OfCustomer(c));
    KeepNarrower(book.accounts, OfCustomer(c), OfCustomer(c));
    if accounts != [] {
      assert accounts[0] in accounts;
      KeepNarrower(book.holdings, HeldBy(book.accounts, c), InAccount(accounts[0].id));
      OwnHoldingsOf(accounts[1..], book.accounts, book.holdings, c);
    }
    OwnContext(book, c, Facts(0, 0, 0));
  }

  lemma OthersKeepMended(book: Book, other: string, kind: Kind, params: Params, newId: Uid,
                         before: (string, string) -> bool, c: string, shape: Shape, risk: bool, cover: bool)
    requires Mended(book, c, shape, risk, cover) && Unused(book, newId) && other != c
    ensures Mended(Handle(book, other, kind, params, newId, before), c, shape, risk, cover)
  {
    hide OwnBook, HasGap, RestWeight, FirstRows, Finance.Applies, ApplyInsuranceReview, ApplyRebalance;
    var after := Handle(book, other, kind, params, newId, before);
    HandleOwn(book, other, kind, params, newId, before, c);
    HandleKeepsBook(book, other, kind, params, newId, before, newId);
    HandleAccounts(book, other, kind, params, newId, before);
    OwnFirstRows(book, c);
    OwnFirstRows(after, c);
  }

  lemma HandleAccounts(book: Book, other: string, kind: Kind, params: Params, newId: Uid,
                       before: (string, string) -> bool)
    ensures Handle(book, other, kind, params, newId, before).accounts == book.accounts
  {
  }

  lemma SameGap(book: Book, after: Book, c: string)
    requires after.policies == book.policies && after.coverages == book.coverages
    ensures HasGap(after, c) == HasGap(book, c)
  {
  }

  lemma RebalancedFirst(book: Book, c: string, params: Params)
    requires Finance.Applies(book, c) && TargetHigh(params) == DEFAULT_TARGET
    ensures var after := ApplyRebalance(book, c, params);
            && after == book.(holdings := after.holdings)
            && Finance.Applies(after, c)
            && HighCount(FirstRows(after, c)) == HighCount(FirstRows(book, c))
            && HighWeight(FirstRows(after, c)) == Finance.Portion(HighCount(FirstRows(book, c)), DEFAULT_TARGET)
  {
    hide Rebalanced, Each, Scaled;
    var mine := FirstRows(book, c);
    Finance.RebalanceSums(book.holdings, Finance.Target(book, c), DEFAULT_TARGET);
    Finance.ValueKept(Total(mine), HighCount(mine), |mine| - HighCount(mine), DEFAULT_TARGET);
  }

  lemma RebalancedRest(book: Book, c: string, params: Params)
    requires Finance.Applies(book, c) && Finance.UniqueAccounts(book.accounts)
    ensures RestWeight(ApplyRebalance(book, c, params), c) == RestWeight(book, c)
  {
    hide Rebalanced;
    var accounts := Keep(book.accounts, OfCustomer(c));
    Finance.KeepUniqueAccounts(book.accounts, OfCustomer(c));
    Finance.OtherAccountsUntouched(accounts[1..], book.holdings, accounts[0].id, TargetHigh(params));
  }

  lemma NothingToRebalance(book: Book, c: string, params: Params)
    requires !Finance.Applies(book, c)
    ensures ApplyRebalance(book, c, params) == book
  {
  }

  /** A rebalance to the default target mends the risk and leaves the rest alone. */
  lemma RebalanceMends(book: Book, c: string, params: Params, shape: Shape, risk: bool, cover: bool)
    requires Mended(book, c, shape, risk, cover) && TargetHigh(params) == DEFAULT_TARGET
    ensures Mended(ApplyRebalance(book, c, params), c, shape, true, cover)
  {
    hide HasGap, ApplyRebalance, FirstRows, RestWeight, Finance.Applies;
    if shape.works {
      RebalancedFirst(book, c, params);
      RebalancedRest(book, c, params);
    } else {
      NothingToRebalance(book, c, params);
    }
    SameGap(book, ApplyRebalance(book, c, params), c);
  }

  /** A review mends the cover and leaves the holdings alone. */
  lemma ReviewMends(book: Book, c: string, newId: Uid, before: (string, string) -> bool,
                    shape: Shape, risk: bool, cover: bool)
    requires Mended(book, c, shape, risk, cover) && Unused(book, newId)
    ensures Mended(ApplyInsuranceReview(book, c, newId, before), c, shape, risk, true)
  {
    hide HasGap;
    var after := ApplyInsuranceReview(book, c, newId, before);
    Finance.ReviewClosesGap(book, c, newId, before);
    HandleKeepsBook(book, c, ReviewInsurance, map[], newId, before, newId);
    assert after.accounts == book.accounts && after.holdings == book.holdings;
  }

  /** Handlers of tame proposals never undo what has been mended, and an own one mends its part. */
  lemma HandleMends(book: Book, other: string, kind: Kind, params: Params, newId: Uid,
                    before: (string, string) -> bool, c: string, shape: Shape, risk: bool, cover: bool)
    requires Mended(book, c, shape, risk, cover) && Unused(book, newId)
    requires other == c && kind.RebalancePortfolio? ==> TargetHigh(params) == DEFAULT_TARGET
    ensures Mended(Handle(book, other, kind, params, newId, before), c, shape,
                   risk || (other == c && kind.RebalancePortfolio?), cover || (other == c && kind.ReviewInsurance?))
  {
    hide Mended, ApplyInsuranceReview, ApplyRebalance;
    if other != c {
      OthersKeepMended(book, other, kind, params, newId, before, c, shape, risk, cover);
    } else {
      match kind
      case RebalancePortfolio => RebalanceMends(book, c, params, shape, risk, cover);
      case ReviewInsurance => ReviewMends(book, c, newId, before, shape, risk, cover);
      case _ =>
    }
  }

  /* ---------- requests ---------- */

  /** A rebalance that may still run for `c`. */
  predicate WaitsToRebalance(row: Proposal, sessions: map<Uid, Session>, c: string) {
    row.kind.RebalancePortfolio? && row.status == Proposed && OwnsSession(sessions, c, row.session)
  }

  /** Every rebalance that waits for `c` goes to the default target. */
  ghost predicate TameRows(proposals: map<Uid, Proposal>, sessions: map<Uid, Session>, c: string) {
    forall p {:trigger TargetHigh(proposals[p].params)} ::
      p in proposals && WaitsToRebalance(proposals[p], sessions, c) ==>
        TargetHigh(proposals[p].params) == DEFAULT_TARGET
  }

  ghost predicate Tame(desk: Desk, c: string) { TameRows(desk.proposals, desk.sessions, c) }

  /** Sessions never change hands, so only the proposal rows decide. */
  lemma TameAlike(desk: Desk, desk': Desk, c: string)
    requires Tame(desk, c)
    requires forall p :: p in desk'.proposals && WaitsToRebalance(desk'.proposals[p], desk'.sessions, c) ==>
               p in desk.proposals && WaitsToRebalance(desk.proposals[p], desk.sessions, c)
               && desk'.proposals[p].params == desk.proposals[p].params
    ensures Tame(desk', c)
  {
    forall p | p in desk'.proposals && WaitsToRebalance(desk'.proposals[p], desk'.sessions, c)
      ensures TargetHigh(desk'.proposals[p].params) == DEFAULT_TARGET
    {
      assert TargetHigh(desk.proposals[p].params) == DEFAULT_TARGET;
    }
  }

  /** What the local planner proposes: reports on its own, rebalances and reviews for approval. */
  predicate Planned(item: Item) {
    || (!item.external && (item.kind.Report? || item.kind.CashflowPlan?))
    || (item.external && item.kind.ReviewInsurance?)
    || (item.external && item.kind.RebalancePortfolio? && TargetHigh(StoredParams(item)) == DEFAULT_TARGET)
  }

  lemma StubPlans(signal: Signal, ctx: Context)
    ensures forall item :: item in StubPlan(signal, ctx) ==> Planned(item)
  {
    hide StoredParams;
    PlannerTarget(ctx);
    if AssetSignal(signal.kind) {
      forall item | item in AssetPlan(ctx) ensures Planned(item) {
      }
    }
  }

  /** The automatic part of a local plan touches no finance table. */
  lemma {:induction false} StubSweep(cfg: Config, book: Book, customer: string, items: seq<Item>, draw: nat, n: nat)
    requires n <= |items| && forall item :: item in items ==> Planned(item)
    ensures SweptBook(cfg, book, customer, Drafts(items), draw, n) == book
  {
    hide StoredParams;
    if n > 0 {
      StubSweep(cfg, book, customer, items, draw, n - 1);
      assert items[n - 1] in items;
    }
  }

  lemma PlannedTame(cfg: Config, proposals: map<Uid, Proposal>, sessions: map<Uid, Session>, session: Uid,
                    items: seq<Item>, draw: nat, c: string)
    requires TameRows(proposals, sessions, c) && forall item :: item in items ==> Planned(item)
    ensures TameRows(proposals + Rows(cfg, session, Drafts(items), draw, |items|), sessions, c)
  {
    hide StoredParams;
    var rows := Rows(cfg, session, Drafts(items), draw, |items|);
    forall p | p in rows && rows[p].kind.RebalancePortfolio?
      ensures TargetHigh(rows[p].params) == DEFAULT_TARGET
    {
      assert rows[p] == PlannedRow(cfg, session, Drafts(items)[p.n]);
      assert items[p.n] in items;
    }
  }

  lemma ParkedTame(proposals: map<Uid, Proposal>, sessions: map<Uid, Session>, s: Uid, row: Session, c: string)
    requires TameRows(proposals, sessions, c) && s in sessions && row.customer == sessions[s].customer
    ensures TameRows(proposals, sessions[s := row], c)
  {
  }

  lemma EventTame(cfg: Config, db: Db, t: Uid, env: Env, source: Source, payload: Payload, c: string)
    requires Local(cfg) && Core(db.desk) && Undrawn(db.desk.proposals, env.draw) && Tame(db.desk, c)
    requires Resolve(cfg, db.desk, t, env.principal) == 0 && SessionOf(db.desk, t).state == Monitoring
    ensures var db' := TriggerEvent(cfg, db, t, env, source, payload).0;
            Tame(db'.desk, c) && db'.book == db.book
  {
    hide Core, Undrawn, TriggerEvent, TameRows, Rows, Planned, StubPlan, NeedingIds;
    var s := SensedBy(db, t, source, payload);
    var items := StubPlan(s.signal.value, s.context.value);
    var sid := db.desk.threads[t].session;
    var next := Head(NeedingIds(Drafts(items), env.draw));
    assert cfg.Agent(s.signal.value, s.context.value, env.seed) == Some(items);
    EventEffect(cfg, db, t, env, source, payload);
    StubPlans(s.signal.value, s.context.value);
    PlannedTame(cfg, db.desk.proposals, db.desk.sessions, sid, items, env.draw, c);
    ParkedTame(db.desk.proposals + Rows(cfg, sid, Drafts(items), env.draw, |items|), db.desk.sessions, sid,
               db.desk.sessions[sid].(pending := next, state := StateFor(next)), c);
    StubSweep(cfg, db.book, db.desk.sessions[sid].customer, items, env.draw, |items|);
  }

  lemma DecidedTame(cfg: Config, desk: Desk, t: Uid, p: Uid, d: Decision, subject: string, g: Graph, c: string)
    requires Tame(desk, c) && t in desk.threads && desk.threads[t].session in desk.sessions && p in desk.proposals
    ensures Tame(DecidedSaved(cfg, desk, t, p, d, subject, g), c)
  {
    hide Queue;
    TameAlike(desk, DecidedSaved(cfg, desk, t, p, d, subject, g), c);
  }

  /** A new session has no proposals. */
  lemma OpenTame(cfg: Config, desk: Desk, customer: string, draw: nat, c: string)
    requires Core(desk) && Tame(desk, c) && Uid(draw, ForSession, 0) !in desk.sessions
    ensures Tame(Open(cfg, desk, customer, draw), c)
  {
    hide LinkedThreads, Recorded;
    TameAlike(desk, Open(cfg, desk, customer, draw), c);
  }

  lemma CreateTame(cfg: Config, db: Db, r: Request, c: string)
    requires r.Create? && Core(db.desk) && Tame(db.desk, c) && Uid(r.env.draw, ForSession, 0) !in db.desk.sessions
    ensures var db' := CreateOrReuse(cfg, db, r.customer, r.env.principal, r.forceNew, r.env.draw).0;
            Tame(db'.desk, c)
  {
    hide LinkedThreads, LinkedProposals, Recorded, PickReusable, Describe, Open, TameRows;
    match (if r.forceNew then None else PickReusable(db.desk, r.customer))
    case None => OpenTame(cfg, db.desk, r.customer, r.env.draw, c);
    case Some(t) =>
      if t in db.desk.threads {
        StaleKeepsCore(db.desk, t);
        OpenTame(cfg, Stale(db.desk, t), r.customer, r.env.draw, c);
      }
  }

  lemma CreateKeepsBook(cfg: Config, db: Db, r: Request)
    requires r.Create?
    ensures CreateOrReuse(cfg, db, r.customer, r.env.principal, r.forceNew, r.env.draw).0.book == db.book
  {
  }

  lemma SignalTame(cfg: Config, db: Db, t: Uid, env: Env, source: Source, payload: Payload, c: string)
    requires Local(cfg) && Core(db.desk) && Undrawn(db.desk.proposals, env.draw) && Tame(db.desk, c)
    ensures Tame(TriggerEvent(cfg, db, t, env, source, payload).0.desk, c)
  {
    hide Core, Undrawn, TameRows, Drive;
    if Resolve(cfg, db.desk, t, env.principal) == 0 && SessionOf(db.desk, t).state == Monitoring {
      EventTame(cfg, db, t, env, source, payload, c);
    }
  }

  lemma DecisionTame(cfg: Config, db: Db, r: Request, c: string)
    requires Inv(db.desk) && Tame(db.desk, c) && r.Decide? && Accepts(cfg, db.desk, r, r.thread)
    ensures Tame(SubmitDecision(cfg, db, r.thread, r.env, r.decision, r.target).0.desk, c)
  {
    hide Inv, SubmitDecision, TameRows, DecidedSaved, Queue, Describe;
    DecisionEffect(cfg, db, r.thread, r.env, r.decision, r.target);
    var p := QueueOf(db.desk, r.thread)[0];
    var g := AfterDecision(cfg, db.desk.checkpoints[r.thread], r.decision, p, db.desk.proposals[p].kind,
                           Head(QueueOf(db.desk, r.thread)[1..]));
    DecidedTame(cfg, db.desk, r.thread, p, r.decision, r.env.principal.subject, g, c);
  }

  /** In local mode no request brings in a rebalance to another target. */
  lemma StepKeepsTame(cfg: Config, db: Db, r: Request, c: string)
    requires Local(cfg) && Inv(db.desk) && Fresh(db, r.env.draw) && Tame(db.desk, c)
    ensures Tame(Serve(cfg, db, r).0.desk, c)
  {
    hide Inv, Fresh, Undrawn, Tame, TriggerEvent, PostMessage, SubmitDecision, CreateOrReuse, Accepts;
    FreshUndrawn(db, r.env.draw);
    InvCore(db.desk);
    match r
    case Create(_, _, _) => CreateTame(cfg, db, r, c);
    case Event(env, t, source, payload) => SignalTame(cfg, db, t, env, source, payload, c);
    case Message(env, t, text) =>
      MessageIsEvent(cfg, db, t, env, text);
      SignalTame(cfg, db, t, env, FromUser, Payload("", text), c);
    case Decide(_, t, _, _) =>
      if Accepts(cfg, db.desk, r, t) {
        DecisionTame(cfg, db, r, c);
      } else {
        RefusedDecision(cfg, db, r);
      }
    case Read(_, _) =>
    case Restart(_) => RestartTame(db.desk, c);
  }

  lemma RestartTame(desk: Desk, c: string)
    requires Tame(desk, c)
    ensures Tame(Restarted(desk), c)
  {
  }

  lemma {:induction false} RunKeepsTame(cfg: Config, db: Db, rs: seq<Request>, c: string)
    requires Local(cfg) && Inv(db.desk) && Admissible(cfg, db, rs) && Tame(db.desk, c)
    ensures Tame(Run(cfg, db, rs).desk, c)
    decreases |rs|
  {
    hide Inv, Fresh, Tame, Serve;
    if rs != [] {
      StepKeepsInv(cfg, db, rs[0]);
      StepKeepsTame(cfg, db, rs[0], c);
      RunKeepsTame(cfg, Serve(cfg, db, rs[0]).0, rs[1..], c);
    }
  }

  /** In local mode, from a desk without proposals on, every waiting rebalance goes to the default target. */
  lemma LocalIsTame(cfg: Config, db: Db, rs: seq<Request>, c: string)
    requires Local(cfg) && Inv(db.desk) && Admissible(cfg, db, rs) && db.desk.proposals == map[]
    ensures Tame(Run(cfg, db, rs).desk, c)
  {
    hide Inv, Admissible;
    RunKeepsTame(cfg, db, rs, c);
  }

  /** What a request mends for `c`: an approval of an own proposal mends what the proposal is about. */
  predicate Mends(cfg: Config, desk: Desk, r: Request, c: string, kind: Kind) {
    && r.Decide? && r.decision.Approve? && Accepts(cfg, desk, r, r.thread)
    && desk.threads[r.thread].customer == c
    && QueueOf(desk, r.thread) != [] && QueueOf(desk, r.thread)[0] in desk.proposals
    && desk.proposals[QueueOf(desk, r.thread)[0]].kind == kind
  }

  lemma DecisionMends(cfg: Config, db: Db, r: Request, c: string, shape: Shape, risk: bool, cover: bool)
    requires Local(cfg) && Good(db) && Tame(db.desk, c) && BookUndrawn(db.book, r.env.draw)
    requires r.Decide? && Accepts(cfg, db.desk, r, r.thread)
    requires Mended(db.book, c, shape, risk, cover)
    ensures var db' := SubmitDecision(cfg, db, r.thread, r.env, r.decision, r.target).0;
            Mended(db'.book, c, shape, risk || Mends(cfg, db.desk, r, c, RebalancePortfolio),
                   cover || Mends(cfg, db.desk, r, c, ReviewInsurance))
  {
    hide LinkedProposals, LinkedThreads, Recorded, QueueShown, CopiesAgree, Unshared, BookUndrawn, SubmitDecision,
         Handle, Mended, Queue, DecidedSaved, TameRows, Describe;
    var t := r.thread;
    DecisionEffect(cfg, db, t, r.env, r.decision, r.target);
    SessionCustomer(db.desk, t);
    UndrawnUnused(db.book, r.env.draw);
    var p := QueueOf(db.desk, t)[0];
    var row := db.desk.proposals[p];
    if WaitsToRebalance(row, db.desk.sessions, c) {
      TameRow(db.desk, p, c);
    }
    HandleMends(db.book, db.desk.sessions[row.session].customer, row.kind, row.params, PolicyId(r.env.draw, 0),
                cfg.before, c, shape, risk, cover);
  }

  lemma TameRow(desk: Desk, p: Uid, c: string)
    requires Tame(desk, c) && p in desk.proposals && WaitsToRebalance(desk.proposals[p], desk.sessions, c)
    ensures TargetHigh(desk.proposals[p].params) == DEFAULT_TARGET
  {
  }

  lemma EventMends(cfg: Config, db: Db, t: Uid, env: Env, source: Source, payload: Payload,
                   c: string, shape: Shape, risk: bool, cover: bool)
    requires Local(cfg) && Core(db.desk) && Undrawn(db.desk.proposals, env.draw) && Tame(db.desk, c)
    requires Mended(db.book, c, shape, risk, cover)
    ensures Mended(TriggerEvent(cfg, db, t, env, source, payload).0.book, c, shape, risk, cover)
  {
    hide Core, Undrawn, TameRows, Mended, Drive;
    if Resolve(cfg, db.desk, t, env.principal) == 0 && SessionOf(db.desk, t).state == Monitoring {
      EventTame(cfg, db, t, env, source, payload, c);
    }
  }

  /** No request undoes what has been mended for `c`; approvals of its own proposals mend more. */
  lemma StepMends(cfg: Config, db: Db, r: Request, c: string, shape: Shape, risk: bool, cover: bool)
    requires Local(cfg) && Good(db) && Fresh(db, r.env.draw) && Tame(db.desk, c)
    requires Mended(db.book, c, shape, risk, cover)
    ensures var db' := Serve(cfg, db, r).0;
            Mended(db'.book, c, shape, risk || Mends(cfg, db.desk, r, c, RebalancePortfolio),
                   cover || Mends(cfg, db.desk, r, c, ReviewInsurance))
  {
    hide Inv, Unshared, Fresh, Undrawn, BookUndrawn, TameRows, Mended, TriggerEvent, PostMessage, SubmitDecision,
         CreateOrReuse, Accepts;
    FreshBook(db, r.env.draw);
    FreshIds(db, r.env.draw);
    InvCore(db.desk);
    match r
    case Create(_, _, _) => CreateKeepsBook(cfg, db, r);
    case Event(env, t, source, payload) => EventMends(cfg, db, t, env, source, payload, c, shape, risk, cover);
    case Message(env, t, text) =>
      MessageReply(cfg, db, t, env, text);
      EventMends(cfg, db, t, env, FromUser, Payload("", text), c, shape, risk, cover);
    case Decide(_, t, _, _) =>
      if Accepts(cfg, db.desk, r, t) {
        DecisionMends(cfg, db, r, c, shape, risk, cover);
      } else {
        RefusedDecision(cfg, db, r);
      }
    case Read(_, _) =>
    case Restart(_) =>
  }

  lemma MendedLess(book: Book, c: string, shape: Shape, risk: bool, cover: bool, risk': bool, cover': bool)
    requires Mended(book, c, shape, risk, cover) && (risk' ==> risk) && (cover' ==> cover)
    ensures Mended(book, c, shape, risk', cover')
  {
  }

  lemma {:induction false} RunMends(cfg: Config, db: Db, rs: seq<Request>, c: string, shape: Shape, risk: bool,
                                    cover: bool)
    requires Local(cfg) && Good(db) && Admissible(cfg, db, rs) && Tame(db.desk, c)
    requires Mended(db.book, c, shape, risk, cover)
    ensures var end := Run(cfg, db, rs);
            Good(end) && Mended(end.book, c, shape, risk, cover)
    decreases |rs|
  {
    hide Inv, Unshared, Fresh, Tame, Mended, Serve, Mends;
    if rs != [] {
      var r, next := rs[0], Serve(cfg, db, rs[0]).0;
      StepKeepsGood(cfg, db, r);
      StepKeepsTame(cfg, db, r, c);
      StepMends(cfg, db, r, c, shape, risk, cover);
      MendedLess(next.book, c, shape, risk || Mends(cfg, db.desk, r, c, RebalancePortfolio),
                 cover || Mends(cfg, db.desk, r, c, ReviewInsurance), risk, cover);
      RunMends(cfg, next, rs[1..], c, shape, risk, cover);
    }
  }

  /** The j-th decision on `t` was an approval of a proposal of this kind. */
  predicate ApprovedKind(desk: Desk, t: Uid, ds: seq<Decision>, j: nat, kind: Kind) {
    && t in desk.threads && j < |ds| && ds[j].Approve? && j < |QueueOf(desk, t)|
    && QueueOf(desk, t)[j] in desk.proposals && desk.proposals[QueueOf(desk, t)[j]].kind == kind
  }

  lemma ApprovedFirst(cfg: Config, desk: Desk, r: Request, t: Uid, ds: seq<Decision>, kind: Kind)
    requires Accepts(cfg, desk, r, t) && ApprovedKind(desk, t, [r.decision] + ds, 0, kind)
    ensures Mends(cfg, desk, r, desk.threads[t].customer, kind)
  {
  }

  lemma ApprovedLater(cfg: Config, desk: Desk, next: Desk, t: Uid, d: Decision, ds: seq<Decision>, j: nat, kind: Kind)
    requires Linked(desk, t) && t in desk.checkpoints && QueueOf(desk, t) != []
    requires MovedOn(cfg, desk, next, t, d) && Extends(desk, next)
    requires j > 0 && ApprovedKind(desk, t, [d] + ds, j, kind)
    ensures ApprovedKind(next, t, ds, j - 1, kind)
  {
    hide Queue;
    assert QueueOf(next, t)[j - 1] == QueueOf(desk, t)[j];
    assert ([d] + ds)[j] == ds[j - 1];
  }

  lemma ApprovedSteady(desk: Desk, next: Desk, t: Uid, ds: seq<Decision>, j: nat, kind: Kind)
    requires Linked(desk, t) && Steady(desk, next, t) && Extends(desk, next) && ApprovedKind(desk, t, ds, j, kind)
    ensures ApprovedKind(next, t, ds, j, kind)
  {
    hide Queue;
  }

  /** What was approved before the loop was closed is mended at the end of the run. */
  lemma {:induction false} ApprovedMends(
      cfg: Config, db: Db, rs: seq<Request>, t: Uid, j: nat, kind: Kind, shape: Shape, risk: bool, cover: bool)
    requires Local(cfg) && Good(db) && Admissible(cfg, db, rs)
    requires Linked(db.desk, t) && t in db.desk.checkpoints
    requires Tame(db.desk, db.desk.threads[t].customer)
    requires Mended(db.book, db.desk.threads[t].customer, shape, risk, cover)
    requires ApprovedKind(db.desk, t, Taken(cfg, db, rs, t), j, kind)
    ensures Mended(Run(cfg, db, rs).book, db.desk.threads[t].customer, shape,
                   risk || kind == RebalancePortfolio, cover || kind == ReviewInsurance)
    decreases |rs|
  {
    hide Inv, Unshared, Fresh, Tame, Mended, Serve, Mends, Steady, MovedOn, Extends, ApprovedKind;
    assert Taken(cfg, db, rs, t) != [] by { NothingApproved(db.desk, t, j, kind); }
    var r, next, c := rs[0], Serve(cfg, db, rs[0]).0, db.desk.threads[t].customer;
    var ds := Taken(cfg, next, rs[1..], t);
    var risk', cover' := risk || Mends(cfg, db.desk, r, c, RebalancePortfolio),
                         cover || Mends(cfg, db.desk, r, c, ReviewInsurance);
    StepKeepsGood(cfg, db, r);
    StepKeepsTame(cfg, db, r, c);
    StepMends(cfg, db, r, c, shape, risk, cover);
    ServeExtends(cfg, db, r);
    if r.Restart? {
      RestartTakesNone(cfg, db, rs, t);
    }
    LoopStep(cfg, db, r, t);
    if Accepts(cfg, db.desk, r, t) {
      MovedCustomer(cfg, db.desk, next.desk, t, r.decision);
      if j == 0 {
        ApprovedFirst(cfg, db.desk, r, t, ds, kind);
        RunMends(cfg, next, rs[1..], c, shape, risk', cover');
        MendedKind(Run(cfg, next, rs[1..]).book, c, shape, risk', cover', risk, cover, kind);
      } else {
        ApprovedLater(cfg, db.desk, next.desk, t, r.decision, ds, j, kind);
        MendedLess(next.book, c, shape, risk', cover', risk, cover);
        ApprovedMends(cfg, next, rs[1..], t, j - 1, kind, shape, risk, cover);
      }
    } else {
      SteadyLinked(db.desk, next.desk, t);
      assert [] + ds == ds;
      ApprovedSteady(db.desk, next.desk, t, ds, j, kind);
      MendedLess(next.book, c, shape, risk', cover', risk, cover);
      ApprovedMends(cfg, next, rs[1..], t, j, kind, shape, risk, cover);
    }
  }

  lemma MendedKind(book: Book, c: string, shape: Shape, risk': bool, cover': bool, risk: bool, cover: bool, kind: Kind)
    requires Mended(book, c, shape, risk', cover') && (risk ==> risk') && (cover ==> cover')
    requires kind == RebalancePortfolio ==> risk'
    requires kind == ReviewInsurance ==> cover'
    ensures Mended(book, c, shape, risk || kind == RebalancePortfolio, cover || kind == ReviewInsurance)
  {
  }

  lemma NothingApproved(desk: Desk, t: Uid, j: nat, kind: Kind)
    ensures !ApprovedKind(desk, t, [], j, kind)
  {
  }

  lemma MovedCustomer(cfg: Config, desk: Desk, next: Desk, t: Uid, d: Decision)
    requires Linked(desk, t) && t in desk.checkpoints && QueueOf(desk, t) != [] && MovedOn(cfg, desk, next, t, d)
    ensures t in next.threads && next.threads[t] == desk.threads[t]
  {
  }

  /* ---------- the loop closes ---------- */

  /** What detector and planner are told about the customer of `t`. */
  lemma SensedContext(db: Db, t: Uid, source: Source, payload: Payload)
    requires Core(db.desk) && t in db.desk.threads
    ensures var c := db.desk.threads[t].customer;
            db.desk.threads[t].session in db.desk.sessions
            && SensedBy(db, t, source, payload).context == Some(ReadContext(db.book, c, FactsOf(db.desk, c)))
  {
    hide LinkedProposals, Recorded, ReadContext;
    SessionCustomer(db.desk, t);
  }

  /** Where the review stands in an asset plan. */
  function ReviewAt(ctx: Context): nat { if ctx.highRisk >= 0.55 then 3 else 2 }

  /** The kinds of the proposals an asset plan leaves to the customer. */
  ghost predicate AssetStored(proposals: map<Uid, Proposal>, ctx: Context, draw: nat) {
    && (ctx.highRisk >= 0.55 ==>
          ProposalId(draw, 2) in proposals && proposals[ProposalId(draw, 2)].kind == RebalancePortfolio)
    && (ctx.gap.Some? ==>
          var p := ProposalId(draw, ReviewAt(ctx)); p in proposals && proposals[p].kind == ReviewInsurance)
  }

  lemma AssetQueue(cfg: Config, db: Db, t: Uid, env: Env, source: Source, payload: Payload)
    requires Local(cfg) && Inv(db.desk) && Undrawn(db.desk.proposals, env.draw)
    requires Resolve(cfg, db.desk, t, env.principal) == 0 && SessionOf(db.desk, t).state == Monitoring
    requires AssetSignal(SensedBy(db, t, source, payload).signal.value.kind)
    ensures var next := TriggerEvent(cfg, db, t, env, source, payload).0.desk;
            var ctx := SensedBy(db, t, source, payload).context.value;
            && Linked(next, t) && next.threads[t] == db.desk.threads[t] && t in next.checkpoints
            && QueueOf(next, t) == AssetNeeds(ctx, env.draw)
            && AssetStored(next.proposals, ctx, env.draw)
  {
    hide Core, CopiesAgree, QueueShown, Undrawn, TriggerEvent, NeedingIds, StoredParams;
    var s := SensedBy(db, t, source, payload);
    var ctx := s.context.value;
    var items := AssetPlan(ctx);
    AssetIsPlanned(cfg, s.signal.value, ctx, env.seed);
    EventStores(cfg, db, t, env, source, payload, items);
    AssetPlanSplits(cfg, ctx, env.draw);
    AssetKinds(ctx);
  }

  lemma AssetKinds(ctx: Context)
    ensures var drafts := Drafts(AssetPlan(ctx));
            && (ctx.highRisk >= 0.55 ==> |drafts| > 2 && drafts[2].kind == RebalancePortfolio)
            && (ctx.gap.Some? ==> |drafts| > ReviewAt(ctx) && drafts[ReviewAt(ctx)].kind == ReviewInsurance)
  {
    hide StoredParams;
    var items := AssetPlan(ctx);
    if ctx.highRisk >= 0.55 {
      assert items[2] == RebalanceItem(ctx);
    }
    if ctx.gap.Some? {
      assert items[ReviewAt(ctx)] == ReviewItem(ctx.gap.value);
    }
  }

  lemma MendedBoth(book: Book, c: string, shape: Shape, risk: bool, cover: bool)
    requires Mended(book, c, shape, true, cover) && Mended(book, c, shape, risk, true)
    ensures Mended(book, c, shape, true, true)
  {
  }

  predicate AllApproved(ds: seq<Decision>) { forall d :: d in ds ==> d.Approve? }

  lemma AssetApproved(desk: Desk, t: Uid, ctx: Context, draw: nat, ds: seq<Decision>)
    requires t in desk.threads && QueueOf(desk, t) == AssetNeeds(ctx, draw) && AssetStored(desk.proposals, ctx, draw)
    requires AllApproved(ds) && |ds| == |AssetNeeds(ctx, draw)|
    ensures ctx.highRisk >= 0.55 ==> ApprovedKind(desk, t, ds, 0, RebalancePortfolio)
    ensures ctx.gap.Some? ==> |ds| > 0 && ApprovedKind(desk, t, ds, |ds| - 1, ReviewInsurance)
  {
    hide Queue;
    if ctx.highRisk >= 0.55 {
      assert ds[0] in ds;
    }
    if ctx.gap.Some? {
      assert ds[|ds| - 1] in ds;
    }
  }

  /**
   * The approved plan mends what was amiss: the cover in any case, and the risk of the first
   * account when the plan was to rebalance it.
   */
  lemma LoopMends(cfg: Config, db: Db, t: Uid, env: Env, source: Source, payload: Payload, rs: seq<Request>)
    requires Local(cfg) && Good(db) && Fresh(db, env.draw)
    requires Resolve(cfg, db.desk, t, env.principal) == 0 && SessionOf(db.desk, t).state == Monitoring
    requires Tame(db.desk, db.desk.threads[t].customer)
    requires AssetSignal(SensedBy(db, t, source, payload).signal.value.kind)
    requires Finance.UniqueAccounts(db.book.accounts)
    requires var next := TriggerEvent(cfg, db, t, env, source, payload).0;
             && Admissible(cfg, next, rs) && AllApproved(Taken(cfg, next, rs, t))
             && |Taken(cfg, next, rs, t)| == |AssetNeeds(SensedBy(db, t, source, payload).context.value, env.draw)|
    ensures var end := Run(cfg, TriggerEvent(cfg, db, t, env, source, payload).0, rs);
            var c := db.desk.threads[t].customer;
            var risk := SensedBy(db, t, source, payload).context.value.highRisk >= 0.55;
            Good(end) && Mended(end.book, c, ShapeOf(db.book, c), risk, true)
  {
    hide LinkedThreads, LinkedProposals, Recorded, CopiesAgree, QueueShown, Unshared, Fresh, BookUndrawn, Undrawn,
         Mended, Tame, TriggerEvent, Resolve, AssetSignal, HasGap, Queue, ShapeOf, ApprovedKind, Taken, AssetStored;
    var c, ctx := db.desk.threads[t].customer, SensedBy(db, t, source, payload).context.value;
    var shape, covered := ShapeOf(db.book, c), !HasGap(db.book, c);
    var next := TriggerEvent(cfg, db, t, env, source, payload).0;
    var ds := Taken(cfg, next, rs, t);
    FreshBook(db, env.draw);
    SensedContext(db, t, source, payload);
    AssetQueue(cfg, db, t, env, source, payload);
    EventKeepsInv(cfg, db, t, env, source, payload);
    EventKeepsBook(cfg, db, t, env, source, payload);
    MendedStart(db.book, c);
    EventMends(cfg, db, t, env, source, payload, c, shape, false, covered);
    SignalTame(cfg, db, t, env, source, payload, c);
    AssetApproved(next.desk, t, ctx, env.draw, ds);
    RunMends(cfg, next, rs, c, shape, false, covered);
    if ctx.highRisk >= 0.55 {
      ApprovedMends(cfg, next, rs, t, 0, RebalancePortfolio, shape, false, covered);
    }
    if !covered {
      ApprovedMends(cfg, next, rs, t, |ds| - 1, ReviewInsurance, shape, false, covered);
      if ctx.highRisk >= 0.55 {
        MendedBoth(Run(cfg, next, rs).book, c, shape, false, false);
      }
    }
  }

  lemma MendedStart(book: Book, c: string)
    requires Finance.UniqueAccounts(book.accounts) && Unshared(book)
    ensures Mended(book, c, ShapeOf(book, c), false, !HasGap(book, c))
  {
  }

  /** With the cover mended, an asset signal ends without an approval exactly below the planner's threshold. */
  lemma MendedAssetEvent(
      cfg: Config, db: Db, t: Uid, env: Env, source: Source, payload: Payload, shape: Shape, risk: bool)
    requires Local(cfg) && Core(db.desk) && Undrawn(db.desk.proposals, env.draw)
    requires Resolve(cfg, db.desk, t, env.principal) == 0 && SessionOf(db.desk, t).state == Monitoring
    requires AssetSignal(SensedBy(db, t, source, payload).signal.value.kind)
    requires Mended(db.book, db.desk.threads[t].customer, shape, risk, true)
    ensures var (db', reply) := TriggerEvent(cfg, db, t, env, source, payload);
            var ctx := SensedBy(db, t, source, payload).context.value;
            && (ctx.highRisk == MendedWeight(shape) || (!risk && ctx.highRisk == shape.start + shape.rest))
            && ctx.gap == None
            && (Says(reply, t, Monitoring, None) <==> ctx.highRisk < 0.55)
            && db'.desk.journal == db.desk.journal + AssetRuns(cfg, env.draw)
  {
    hide Core, Undrawn, TriggerEvent, HasGap, FirstRows, RestWeight, Finance.Applies, AssetSignal;
    SensedContext(db, t, source, payload);
    ReaderSplits(db.book, db.desk.threads[t].customer);
    AssetEvent(cfg, db, t, env, source, payload);
  }

  /** The weight the reader reports before anything is mended. */
  lemma StartIsRead(db: Db, t: Uid, source: Source, payload: Payload)
    requires Core(db.desk) && t in db.desk.threads
    ensures db.desk.threads[t].session in db.desk.sessions
    ensures var shape := ShapeOf(db.book, db.desk.threads[t].customer);
            SensedBy(db, t, source, payload).context.value.highRisk == shape.start + shape.rest
  {
    hide LinkedThreads, LinkedProposals, Recorded, FirstRows, RestWeight, HasGap;
    SensedContext(db, t, source, payload);
    ReaderSplits(db.book, db.desk.threads[t].customer);
  }

  /**
   * The feedback loop settles. An asset signal finds too much risk, or a missing cover, or both;
   * in the course of any run the customer approves all that the planner proposes. At its end the
   * readers report no gap, and the mended weight, or still the first one if that was below the
   * threshold; every asset signal for that customer plans only a report and a cash-flow plan and
   * ends in monitoring exactly when the reported weight is below the planner's threshold. If too
   * much was at risk, that is decided by the first account's 45% and the untouched other accounts;
   * with a single account of positive value it always is, and without a value to rebalance never.
   */
  lemma FeedbackSettles(
      cfg: Config, db: Db, t: Uid, env: Env, source: Source, payload: Payload, rs: seq<Request>,
      u: Uid, env': Env, source': Source, payload': Payload)
    requires Local(cfg) && Good(db) && Fresh(db, env.draw)
    requires Resolve(cfg, db.desk, t, env.principal) == 0 && SessionOf(db.desk, t).state == Monitoring
    requires Tame(db.desk, db.desk.threads[t].customer)
    requires AssetSignal(SensedBy(db, t, source, payload).signal.value.kind)
    requires Finance.UniqueAccounts(db.book.accounts)
    requires var next := TriggerEvent(cfg, db, t, env, source, payload).0;
             && Admissible(cfg, next, rs) && AllApproved(Taken(cfg, next, rs, t))
             && |Taken(cfg, next, rs, t)| == |AssetNeeds(SensedBy(db, t, source, payload).context.value, env.draw)|
    requires var end := Run(cfg, TriggerEvent(cfg, db, t, env, source, payload).0, rs);
             && u in end.desk.threads && end.desk.threads[u].customer == db.desk.threads[t].customer
             && Fresh(end, env'.draw) && Resolve(cfg, end.desk, u, env'.principal) == 0
             && SessionOf(end.desk, u).state == Monitoring
             && AssetSignal(SensedBy(end, u, source', payload').signal.value.kind)
    ensures var end := Run(cfg, TriggerEvent(cfg, db, t, env, source, payload).0, rs);
            var (after, reply) := TriggerEvent(cfg, end, u, env', source', payload');
            var first := SensedBy(db, t, source, payload).context.value.highRisk;
            var ctx := SensedBy(end, u, source', payload').context.value;
            var c := db.desk.threads[t].customer;
            var mended := MendedWeight(ShapeOf(db.book, c));
            && ctx.gap == None && (ctx.highRisk == mended || (first < 0.55 && ctx.highRisk == first))
            && after.desk.journal == end.desk.journal + AssetRuns(cfg, env'.draw)
            && (Says(reply, u, Monitoring, None) <==> ctx.highRisk < 0.55)
            && (first >= 0.55 ==> (Says(reply, u, Monitoring, None) <==> mended < 0.55))
            && (Finance.Applies(db.book, c) && |Keep(db.book.accounts, OfCustomer(c))| == 1
                ==> Says(reply, u, Monitoring, None))
            && (!Finance.Applies(db.book, c) ==> mended == first)
  {
    hide LinkedThreads, LinkedProposals, Recorded, CopiesAgree, QueueShown, Unshared, BookUndrawn, Undrawn,
         Mended, Tame, TriggerEvent, Resolve, AssetSignal, Fresh, ShapeOf, ReadContext, Finance.Applies;
    var c := db.desk.threads[t].customer;
    var shape, risk := ShapeOf(db.book, c), SensedBy(db, t, source, payload).context.value.highRisk >= 0.55;
    StartIsRead(db, t, source, payload);
    LoopMends(cfg, db, t, env, source, payload, rs);
    var end := Run(cfg, TriggerEvent(cfg, db, t, env, source, payload).0, rs);
    FreshBook(end, env'.draw);
    MendedAssetEvent(cfg, end, u, env', source', payload', shape, risk);
    SingleShape(db.book, c);
  }

  lemma SingleShape(book: Book, c: string)
    ensures Finance.Applies(book, c) && |Keep(book.accounts, OfCustomer(c))| == 1
            ==> MendedWeight(ShapeOf(book, c)) < 0.55
    ensures ShapeOf(book, c).works == Finance.Applies(book, c)
  {
    var accounts := Keep(book.accounts, OfCustomer(c));
    if |accounts| == 1 {
      assert accounts[1..] == [];
    }
  }
}
