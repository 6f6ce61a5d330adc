/** The backend as it runs: tables updated in place by loops, each refining its specification. */
module Backend {
  import opened Options
  import opened Seqs
  import opened Policy
  import opened Book
  import opened Proposals
  import opened Planner
  import opened Store
  import opened Workflow
  import opened Service
  import opened Invariants
  import Safety
  import Token

  datatype Outcome<+T> = Ok(value: T) | Raised(code: nat)

  /** What a node hands back to the graph runner. */
  datatype Move = Returned(g: Graph) | Interrupted | Stuck(code: nat)

  /* ---------- loops over lists ---------- */

  lemma TotalSnoc(hs: seq<Holding>, n: nat)
    requires n < |hs|
    ensures Total(hs[..n + 1]) == Total(hs[..n]) + hs[n].amount
    ensures HighWeight(hs[..n + 1]) == HighWeight(hs[..n]) + if hs[n].grade.High? then hs[n].weight else 0.0
    ensures HighCount(hs[..n + 1]) == HighCount(hs[..n]) + if hs[n].grade.High? then 1 else 0
  {
    SumsSnoc(hs[..n], hs[n]);
    assert hs[..n + 1] == hs[..n] + [hs[n]];
  }

  lemma {:induction false} SumsSnoc(hs: seq<Holding>, h: Holding)
    ensures Total(hs + [h]) == Total(hs) + h.amount
    ensures HighWeight(hs + [h]) == HighWeight(hs) + if h.grade.High? then h.weight else 0.0
    ensures HighCount(hs + [h]) == HighCount(hs) + if h.grade.High? then 1 else 0
  {
    if hs != [] {
      assert (hs + [h])[1..] == hs[1..] + [h];
      SumsSnoc(hs[1..], h);
    }
  }

  /** The sums that the portfolio reader and the rebalancer take over a list of holdings. */
  method Sums(hs: seq<Holding>) returns (total: real, highWeight: real, high: nat)
    ensures total == Total(hs) && highWeight == HighWeight(hs) && high == HighCount(hs)
  {
    total, highWeight, high := 0.0, 0.0, 0;
    for n := 0 to |hs|
      invariant total == Total(hs[..n]) && highWeight == HighWeight(hs[..n]) && high == HighCount(hs[..n])
    {
      TotalSnoc(hs, n);
      total := total + hs[n].amount;
      if hs[n].grade.High? {
        highWeight := highWeight + hs[n].weight;
        high := high + 1;
      }
    }
    assert hs[..|hs|] == hs;
  }

  lemma {:induction false} KeepSnoc<T(!new)>(s: seq<T>, p: T -> bool, n: nat)
    requires n < |s|
    ensures Keep(s[..n + 1], p) == Keep(s[..n], p) + if p(s[n]) then [s[n]] else []
  {
    assert s[..n + 1] == s[..n] + [s[n]];
    KeepAppend(s[..n], [s[n]], p);
  }

  lemma FirstKept<T(!new)>(s: seq<T>, p: T -> bool, n: nat)
    requires n < |s| && p(s[n]) && Keep(s[..n], p) == []
    ensures Keep(s, p) != [] && Keep(s, p)[0] == s[n]
  {
    hide Keep;
    assert s == s[..n] + ([s[n]] + s[n + 1..]);
    KeepAppend(s[..n], [s[n]] + s[n + 1..], p);
    KeepCons(s[n], s[n + 1..], p);
  }

  lemma LastKept<T(!new)>(s: seq<T>, p: T -> bool, n: nat)
    requires n < |s| && p(s[n]) && Keep(s[n + 1..], p) == []
    ensures Keep(s, p) != [] && Keep(s, p)[|Keep(s, p)| - 1] == s[n]
  {
    hide Keep;
    assert s == s[..n] + ([s[n]] + s[n + 1..]);
    KeepAppend(s[..n], [s[n]] + s[n + 1..], p);
    KeepCons(s[n], s[n + 1..], p);
  }

  /** A node's move and the tables it left, as an effect. */
  function EffectOf(m: Move, db: Db): Effect {
    match m
    case Returned(g) => Next(db, g)
    case Interrupted => Pause
    case Stuck(code) => Raise(db, code)
  }

  function StopOf(db: Db, g: Graph, code: nat): Stop {
    match g.place
    case Waiting => Paused(db, g)
    case Ended => Finished(db, g)
    case Broken => Failure(db, g, code)
  }

  function ProposedIn(proposals: map<Uid, Proposal>, session: Uid): Uid -> bool {
    (p: Uid) => p in proposals && proposals[p].session == session && proposals[p].status == Proposed
  }

  lemma SweptStarts(cfg: Config, db: Db, customer: string, draw: nat)
    ensures Swept(cfg, db, customer, draw, 0) == Sweep(db, None, [], None)
  {}

  lemma SweptNext(cfg: Config, db: Db, customer: string, draw: nat, n: nat)
    ensures Swept(cfg, db, customer, draw, n + 1) == Turn(cfg, Swept(cfg, db, customer, draw, n), customer, draw, n)
  {}

  /** A sweep that was refused stays where it is. */
  lemma {:induction false} StaysRefused(cfg: Config, db: Db, customer: string, draw: nat, n: nat, m: nat)
    requires n <= m && Swept(cfg, db, customer, draw, n).code.Some?
    ensures Swept(cfg, db, customer, draw, m) == Swept(cfg, db, customer, draw, n)
    decreases m
  {
    if n < m {
      StaysRefused(cfg, db, customer, draw, n, m - 1);
    }
  }

  /** `setdefault` for every key of `dump`: the entries of `params` win. */
  method SetDefaults(params: Params, dump: Params) returns (merged: Params)
    ensures merged == dump + params
  {
    merged := params;
    var keys := dump.Keys;
    while keys != {}
      invariant keys <= dump.Keys
      invariant merged == (dump - keys) + params
    {
      var key :| key in keys;
      keys := keys - {key};
      if key !in merged {
        merged := merged[key := dump[key]];
      }
    }
    assert dump - keys == dump;
  }

  method DumpSteps(steps: seq<ExecutionStep>) returns (dumps: seq<Value>)
    ensures dumps == StepDumps(steps)
  {
    dumps := [];
    for n := 0 to |steps|
      invariant dumps == StepDumps(steps)[..n]
    {
      dumps := dumps + [StepDump(steps[n])];
    }
  }

  /** `_proposal_params`: what goes into the row, key by key. */
  method ProposalParams(item: Item) returns (params: Params)
    ensures params == StoredParams(item)
  {
    hide Dump;
    params := item.params;
    var dump := Dump(item.execution);
    if item.summary != "" {
      params := params["execution_summary" := Text(item.summary)];
    }
    if item.steps != [] {
      var dumps := DumpSteps(item.steps);
      params := params["execution_steps" := Items(dumps)];
    }
    if dump != map[] {
      params := SetDefaults(params[NESTED := Obj(dump)], dump);
    }
  }

  lemma PersistedNone(desk: Desk, session: Uid, draw: nat)
    ensures Persisted(desk, session, [], draw) == desk
  {
  }

  lemma PersistedStep(desk: Desk, session: Uid, drafts: seq<Draft>, draw: nat, n: nat)
    requires n < |drafts|
    ensures Persisted(desk, session, drafts[..n + 1], draw)
            == Insert(Persisted(desk, session, drafts[..n], draw), ProposalId(draw, n), NewRow(session, drafts[n]))
  {
    assert drafts[..n + 1][..n] == drafts[..n];
  }

  function ActiveKinds(vs: seq<Coverage>): set<string> { set v | v in vs && v.active :: v.kind }

  lemma NoCoverages(coverages: seq<Coverage>)
    ensures CoveragesOf([], coverages) == []
  {
  }

  lemma CoveragesSnoc(mine: seq<InsurancePolicy>, coverages: seq<Coverage>, n: nat)
    requires n < |mine|
    ensures ActiveKinds(CoveragesOf(mine[..n + 1], coverages))
            == ActiveKinds(CoveragesOf(mine[..n], coverages)) + ActiveKinds(Keep(coverages, CoverageOf(mine[n].id)))
  {
    assert mine[..n + 1] == mine[..n] + [mine[n]];
    CoveragesAppend(mine[..n], [mine[n]], coverages);
    assert CoveragesOf([mine[n]], coverages) == Keep(coverages, CoverageOf(mine[n].id)) + CoveragesOf([], coverages);
  }

  lemma {:induction false} CoveragesAppend(a: seq<InsurancePolicy>, b: seq<InsurancePolicy>, coverages: seq<Coverage>)
    ensures CoveragesOf(a + b, coverages) == CoveragesOf(a, coverages) + CoveragesOf(b, coverages)
  {
    if a == [] {
      assert a + b == b;
    } else {
      assert (a + b)[1..] == a[1..] + b;
      CoveragesAppend(a[1..], b, coverages);
    }
  }

  function GroupShare(id: Uid, high: bool, amount: real, weight: real): Holding -> Holding {
    (h: Holding) => if h.account == id && h.grade.High? == high then h.(amount := amount, weight := weight) else h
  }

  lemma {:induction false} EmptyGroups(hs: seq<Holding>)
    ensures HighCount(hs) == 0 ==> forall h :: h in hs ==> !h.grade.High?
    ensures HighCount(hs) == |hs| ==> forall h :: h in hs ==> h.grade.High?
  {
    if hs != [] {
      EmptyGroups(hs[1..]);
    }
  }

  /** The two passes, each skipped when its group is empty, are one rewriting of the account. */
  lemma TwoPasses(holdings: seq<Holding>, id: Uid, target: real)
    ensures var rows := Keep(holdings, InAccount(id));
            var s := AccountShares(rows, target);
            var once := if HighCount(rows) > 0 then Mapped(holdings, GroupShare(id, true, s.highAmount, s.highWeight))
                        else holdings;
            var twice := if |rows| - HighCount(rows) > 0
                         then Mapped(once, GroupShare(id, false, s.restAmount, s.restWeight))
                         else once;
            twice == Rebalanced(holdings, id, target)
  {
    hide AccountShares;
    var rows := Keep(holdings, InAccount(id));
    EmptyGroups(rows);
    forall i | 0 <= i < |holdings| && holdings[i].account == id ensures holdings[i] in rows {
    }
  }

  class Database {
    const cfg: Config

    var customers: map<string, Facts>
    var sessions: map<Uid, Session>
    var threads: map<Uid, Thread>
    var threadsByAge: seq<Uid>
    var checkpoints: map<Uid, Graph>
    var proposals: map<Uid, Proposal>
    var created: seq<Uid>
    var journal: seq<Entry>
    var accounts: seq<Account>
    var holdings: seq<Holding>
    var policies: seq<InsurancePolicy>
    var coverages: seq<Coverage>

    constructor (cfg: Config, db: Db)
      ensures this.cfg == cfg && Value() == db
    {
      this.cfg := cfg;
      customers, sessions := db.desk.customers, db.desk.sessions;
      threads, threadsByAge, checkpoints := db.desk.threads, db.desk.threadsByAge, db.desk.checkpoints;
      proposals, created, journal := db.desk.proposals, db.desk.created, db.desk.journal;
      accounts, holdings := db.book.accounts, db.book.holdings;
      policies, coverages := db.book.policies, db.book.coverages;
    }

    function DeskValue(): Desk
      reads this
    {
      Desk(customers, sessions, threads, threadsByAge, checkpoints, proposals, created, journal)
    }

    function BookValue(): Book
      reads this
    {
      Book(accounts, holdings, policies, coverages)
    }

    function Value(): Db
      reads this
    {
      Db(DeskValue(), BookValue())
    }

    /* ---------- readers ---------- */

    method PortfolioSummary(customer: string) returns (total: real, highRisk: real)
      ensures total == Total(CustomerHoldings(BookValue(), customer))
      ensures highRisk == HighWeight(CustomerHoldings(BookValue(), customer))
    {
      var mine := Keep(accounts, OfCustomer(customer));
      var rows: seq<Holding> := [];
      for n := 0 to |mine|
        invariant rows + HoldingsOf(mine[n..], holdings) == CustomerHoldings(BookValue(), customer)
      {
        assert mine[n..][1..] == mine[n + 1..];
        var own := Keep(holdings, InAccount(mine[n].id));
        assert rows + (own + HoldingsOf(mine[n + 1..], holdings)) == (rows + own) + HoldingsOf(mine[n + 1..], holdings);
        rows := rows + own;
      }
      assert rows + [] == rows;
      var high;
      total, highRisk, high := Sums(rows);
    }

    method InsuranceSummary(customer: string) returns (gap: Option<string>)
      ensures gap == if HasGap(BookValue(), customer) then Some(GAP) else None
    {
      hide CoveragesOf, Keep;
      var mine := Keep(policies, PolicyOf(customer));
      NoCoverages(coverages);
      var covered: set<string> := {};
      for n := 0 to |mine|
        invariant covered == ActiveKinds(CoveragesOf(mine[..n], coverages))
      {
        var items := Keep(coverages, CoverageOf(mine[n].id));
        ghost var before := covered;
        for m := 0 to |items|
          invariant covered == before + ActiveKinds(items[..m])
        {
          assert items[..m + 1] == items[..m] + [items[m]];
          if items[m].active {
            covered := covered + {items[m].kind};
          }
        }
        assert items[..|items|] == items;
        CoveragesSnoc(mine, coverages, n);
      }
      assert mine[..|mine|] == mine;
      gap := if CARDIO_RIDER in covered || CARDIO in covered then None else Some(GAP);
    }

    /* ---------- mock handlers ---------- */

    /** One pass over an account's rows: every row of one risk group gets the same amount and weight. */
    method SharePass(id: Uid, high: bool, amount: real, weight: real)
      modifies this`holdings
      ensures holdings == Mapped(old(holdings), GroupShare(id, high, amount, weight))
    {
      ghost var before, f := holdings, GroupShare(id, high, amount, weight);
      for n := 0 to |holdings|
        invariant |holdings| == |before|
        invariant forall k :: 0 <= k < n ==> holdings[k] == f(before[k])
        invariant forall k :: n <= k < |holdings| ==> holdings[k] == before[k]
      {
        if holdings[n].account == id && holdings[n].grade.High? == high {
          holdings := holdings[n := holdings[n].(amount := amount, weight := weight)];
        }
      }
    }

    method ApplyMockRebalance(customer: string, params: Params)
      modifies this`holdings
      ensures BookValue() == ApplyRebalance(old(BookValue()), customer, params)
    {
      hide Each, Scaled, Rebalanced, TargetHigh, TargetLow, Keep, HighCount, Total, HighWeight;
      var mine := Keep(accounts, OfCustomer(customer));
      if mine == [] {
        return;
      }
      var id := mine[0].id;
      var rows := Keep(holdings, InAccount(id));
      var total, _, high := Sums(rows);
      if rows == [] || total <= 0.0 {
        return;
      }
      var target := TargetHigh(params);
      var low, rest := TargetLow(target), |rows| - high;
      ghost var before := holdings;
      if high > 0 {
        var highAmount := Scaled(total, target);
        SharePass(id, true, Each(high, highAmount), Each(high, target));
      }
      if rest > 0 {
        var lowAmount := Scaled(total, low);
        SharePass(id, false, Each(rest, lowAmount), Each(rest, low));
      }
      TwoPasses(before, id, target);
    }

    method ApplyMockInsuranceReview(customer: string, newId: Uid)
      modifies this`policies, this`coverages
      ensures BookValue() == ApplyInsuranceReview(old(BookValue()), customer, newId, cfg.before)
    {
      var active := Keep(policies, ActivePolicyOf(customer));
      var id := newId;
      if active == [] {
        policies := policies + [InsurancePolicy(newId, customer, NEW_PRODUCT, true)];
      } else {
        id := FirstByName(active, cfg.before).id;
      }
      if Keep(coverages, ActiveCardioOf(id)) == [] {
        coverages := coverages + [Coverage(id, CARDIO_RIDER, true)];
      }
    }

    method HandleProposal(p: Uid, newId: Uid) returns (run: Entry)
      requires p in proposals && proposals[p].session in sessions
      modifies this`holdings, this`policies, this`coverages
      ensures run == RunRow(cfg, p, proposals[p].kind)
      ensures BookValue() == Execute(cfg, old(Value()), p, newId).book
    {
      var row := proposals[p];
      var customer := sessions[row.session].customer;
      if cfg.mode.ExternalRequest? {
        return Ran(p, ExternalRequestExecutor, false);
      }
      if row.kind.ReviewInsurance? {
        ApplyMockInsuranceReview(customer, newId);
      } else if row.kind.RebalancePortfolio? {
        ApplyMockRebalance(customer, row.params);
      }
      run := Ran(p, MockHandler(row.kind), true);
    }

    method SetStatus(p: Uid, status: Status)
      requires p in proposals
      modifies this`proposals
      ensures DeskValue() == Mark(old(DeskValue()), p, status)
    {
      proposals := proposals[p := proposals[p].(status := status)];
    }

    method ExecuteProposal(p: Uid, newId: Uid) returns (run: Entry)
      requires p in proposals && proposals[p].session in sessions
      modifies this`holdings, this`policies, this`coverages, this`proposals, this`journal
      ensures run == RunRow(cfg, p, old(proposals[p].kind))
      ensures Value() == Execute(cfg, old(Value()), p, newId)
    {
      run := HandleProposal(p, newId);
      SetStatus(p, if run.ok then Executed else Failed);
      journal := journal + [run];
    }

    /** `execute_scoped`: every refusal leaves the tables alone. */
    method RunScoped(p: Uid, customer: string, requireApproval: bool, newId: Uid) returns (r: Outcome<Entry>)
      modifies this`holdings, this`policies, this`coverages, this`proposals, this`journal
      ensures match ExecuteScoped(cfg, old(Value()), p, customer, requireApproval, newId)
              case Done(db', run) => Value() == db' && r == Ok(run)
              case Refused(code) => Value() == old(Value()) && r == Raised(code)
    {
      if p !in proposals {
        return Raised(404);
      }
      var row := proposals[p];
      if row.session !in sessions || sessions[row.session].customer != customer {
        return Raised(403);
      }
      if row.status == Executed {
        var existing := Keep(journal, RunOf(p));
        if existing != [] {
          return Ok(existing[0]);
        }
        return Raised(409);
      }
      if row.status != Proposed && row.status != Approved {
        return Raised(409);
      }
      var needs := NeedsApproval(row.external, row.kind);
      if needs && requireApproval && row.status != Approved {
        return Raised(409);
      }
      if needs && !requireApproval {
        return Raised(409);
      }
      var run := ExecuteProposal(p, newId);
      r := Ok(run);
    }

    /* ---------- nodes ---------- */

    /** `_persist_plan`: a row per item, in plan order. */
    method PersistPlan(session: Uid, plan: seq<Item>, draw: nat) returns (ids: seq<Uid>)
      modifies this`proposals, this`created
      ensures ids == NewIds(draw, |plan|)
      ensures DeskValue() == Persisted(old(DeskValue()), session, Drafts(plan), draw)
    {
      hide StoredParams, Persisted;
      ids := [];
      ghost var drafts := Drafts(plan);
      PersistedNone(DeskValue(), session, draw);
      for n := 0 to |plan|
        invariant ids == NewIds(draw, n)
        invariant DeskValue() == Persisted(old(DeskValue()), session, drafts[..n], draw)
      {
        PersistedStep(old(DeskValue()), session, drafts, draw, n);
        var params := ProposalParams(plan[n]);
        var p := ProposalId(draw, n);
        proposals := proposals[p := Proposal(session, plan[n].kind, plan[n].external, params, Proposed)];
        created := created + [p];
        ids := ids + [p];
      }
      assert drafts[..|plan|] == drafts;
    }

    /** The loop over the stored proposals: run what needs no approval, remember the first that does. */
    method SweepPlan(ids: seq<Uid>, customer: string, draw: nat) returns (pending: Option<Uid>, code: Option<nat>)
      requires ids == NewIds(draw, |ids|)
      modifies this`holdings, this`policies, this`coverages, this`proposals, this`journal
      ensures var s := Swept(cfg, old(Value()), customer, draw, |ids|);
              s.db == Value() && s.pending == pending && s.code == code
    {
      hide ExecuteScoped, Keep, Swept;
      pending := None;
      var executed: seq<Entry> := [];
      SweptStarts(cfg, Value(), customer, draw);
      for n := 0 to |ids|
        invariant Swept(cfg, old(Value()), customer, draw, n) == Sweep(Value(), pending, executed, None)
      {
        var p := ids[n];
        SweptNext(cfg, old(Value()), customer, draw, n);
        if p in proposals && NeedsApproval(proposals[p].external, proposals[p].kind) {
          if pending.None? {
            pending := Some(p);
          }
        } else {
          var r := RunScoped(p, customer, false, PolicyId(draw, n));
          match r {
            case Ok(run) => executed := executed + [run];
            case Raised(c) =>
              StaysRefused(cfg, old(Value()), customer, draw, n + 1, |ids|);
              return pending, Some(c);
          }
        }
      }
      code := None;
    }

    /** `policy_check`: store the plan, run what needs no approval, park the first that does. */
    method PolicyNode(g: Graph, env: Env) returns (m: Move)
      modifies this`holdings, this`policies, this`coverages, this`proposals, this`created, this`journal, this`sessions
      ensures EffectOf(m, Value()) == CheckPolicy(cfg, env, old(Value()), g) && !m.Interrupted?
    {
      hide Persisted, Swept, Drafts;
      var sid := g.scope.session;
      if sid !in sessions {
        return Stuck(404);
      }
      var customer := sessions[sid].customer;
      var ids := PersistPlan(sid, g.plan, env.draw);
      var pending, code := SweepPlan(ids, customer, env.draw);
      if code.Some? {
        return Stuck(code.value);
      }
      sessions := sessions[sid := sessions[sid].(pending := pending, state := StateFor(pending))];
      m := Returned(g.(proposalIds := ids, pending := pending));
    }

    /** `_next_pending_proposal`: the oldest proposed row of the session that needs approval. */
    method NextPending(session: Uid) returns (next: Option<Uid>)
      ensures next == Head(Queue(DeskValue(), session))
    {
      var rows := Keep(created, ProposedIn(proposals, session));
      ghost var awaits := AwaitsApproval(proposals, session);
      KeepNarrower(created, ProposedIn(proposals, session), awaits);
      for n := 0 to |rows|
        invariant Keep(rows[..n], awaits) == []
      {
        assert rows[n] in rows;
        if NeedsApproval(proposals[rows[n]].external, proposals[rows[n]].kind) {
          FirstKept(rows, awaits, n);
          return Some(rows[n]);
        }
        KeepSnoc(rows, awaits, n);
      }
      assert rows[..|rows|] == rows;
      next := None;
    }

    method Ask(g: Graph, resume: Option<Answer>) returns (m: Move)
      ensures EffectOf(m, Value()) == AskApproval(Value(), g, resume)
    {
      if g.pending.None? {
        return Returned(g);
      }
      if g.scope.session !in sessions || g.pending.value !in proposals {
        return Stuck(404);
      }
      if resume.None? {
        return Interrupted;
      }
      m := Returned(g.(answer := resume));
    }

    /** The decision is recorded, the status follows it, and an approval is carried out at once. */
    method Carry(p: Uid, decision: Decision, customer: string, env: Env) returns (r: Outcome<seq<Entry>>)
      requires p in proposals
      modifies this`holdings, this`policies, this`coverages, this`proposals, this`journal
      ensures var db := old(Value());
              var noted := Write(Mark(db.desk, p, DecidedStatus(decision)),
                                 Decided(p, decision, env.principal.subject));
              if decision.Approve? then
                match ExecuteScoped(cfg, db.(desk := noted), p, customer, true, PolicyId(env.draw, 0))
                case Done(db', run) => Value() == db' && r == Ok([run])
                case Refused(code) => Value() == db.(desk := noted) && r == Raised(code)
              else Value() == db.(desk := noted) && r == Ok([])
    {
      hide ExecuteScoped;
      journal := journal + [Decided(p, decision, env.principal.subject)];
      SetStatus(p, DecidedStatus(decision));
      if !decision.Approve? {
        return Ok([]);
      }
      var done := RunScoped(p, customer, true, PolicyId(env.draw, 0));
      match done {
        case Ok(run) => r := Ok([run]);
        case Raised(code) => r := Raised(code);
      }
    }

    /** `execute_action`: consume one decision, then pick and park the next pending proposal. */
    method Act(g: Graph, env: Env) returns (m: Move)
      modifies this`holdings, this`policies, this`coverages, this`proposals, this`journal, this`sessions
      ensures EffectOf(m, Value()) == TakeDecision(cfg, env, old(Value()), g) && !m.Interrupted?
    {
      var sid := g.scope.session;
      if sid !in sessions {
        return Stuck(404);
      }
      if g.pending.None? {
        return Returned(g);
      }
      var p := g.pending.value;
      if g.answer.Some? && g.answer.value.proposal.Some? && g.answer.value.proposal.value != p {
        return Stuck(409);
      }
      if p !in proposals {
        return Stuck(404);
      }
      if g.answer.None? {
        return Stuck(400);
      }
      hide ExecuteScoped, Queue, Keep, Mark, Write;
      var runs := Carry(p, g.answer.value.decision, sessions[sid].customer, env);
      if runs.Raised? {
        return Stuck(runs.code);
      }
      assert g.results + [] == g.results;
      var results := g.results + runs.value;
      var next := NextPending(sid);
      sessions := sessions[sid := sessions[sid].(pending := next, state := StateFor(next))];
      m := Returned(g.(results := results, pending := next, answer := None));
    }

    method Refresh(g: Graph) returns (m: Move)
      ensures EffectOf(m, Value()) == RefreshData(Value(), g)
    {
      if g.scope.session !in sessions {
        return Stuck(404);
      }
      var customer := sessions[g.scope.session].customer;
      if customer != g.scope.customer {
        return Stuck(403);
      }
      var total, highRisk := PortfolioSummary(customer);
      var gap := InsuranceSummary(customer);
      var facts := if customer in customers then customers[customer] else Facts(0, 0, 0);
      m := Returned(g.(context := Some(Context(highRisk, total, gap, facts))));
    }

    method Spawn(g: Graph, env: Env) returns (m: Move)
      ensures EffectOf(m, Value()) == SpawnJob(cfg, env, Value(), g)
    {
      if g.scope.session !in sessions || g.context.None? || g.signal.None? {
        return Stuck(404);
      }
      match cfg.worker {
        case LocalStub =>
          var plan := BuildLocalPlan(g.signal.value, g.context.value);
          m := Returned(g.(plan := plan));
        case Foreign(job) =>
          var plan := job(g.signal.value, g.context.value, env.seed);
          m := if plan.Some? then Returned(g.(plan := plan.value)) else Stuck(500);
      }
    }

    method UpdateMemory(g: Graph) returns (m: Move)
      modifies this`sessions
      ensures EffectOf(m, Value()) == Remember(old(Value()), g) && !m.Interrupted?
    {
      var sid := g.scope.session;
      if sid !in sessions {
        return Stuck(404);
      }
      if sessions[sid].pending.None? {
        sessions := sessions[sid := sessions[sid].(state := Monitoring)];
      }
      m := Returned(g);
    }

    /* ---------- the graph ---------- */

    method RunOne(g: Graph, node: Node, resume: Option<Answer>, env: Env) returns (m: Move)
      modifies this`holdings, this`policies, this`coverages, this`proposals, this`created, this`journal, this`sessions
      ensures EffectOf(m, Value()) == RunNode(cfg, env, old(Value()), g, node, resume)
      ensures m.Interrupted? ==> Value() == old(Value())
    {
      hide CheckPolicy, AskApproval, TakeDecision, SpawnJob, Remember, RefreshData;
      match node {
        case DataRefresh => m := Refresh(g);
        case SignalDetect =>
          if g.scope.session !in sessions || g.context.None? {
            m := Stuck(404);
          } else {
            m := Returned(g.(signal := Some(Detect(g.source, g.payload, g.context.value))));
          }
        case SpawnAgent => m := Spawn(g, env);
        case PolicyCheck => m := PolicyNode(g, env);
        case ApprovalInterrupt => m := Ask(g, resume);
        case ExecuteAction => m := Act(g, env);
        case UpdateMemory => m := UpdateMemory(g);
        case End => m := Returned(g);
        case _ => m := if g.scope.session in sessions then Returned(g) else Stuck(404);
      }
    }

    /** The runner: node after node along the edges, to the interrupt, the end or an error. */
    method Invoke(start: Graph, first: Node, answer: Option<Answer>, env: Env) returns (g: Graph, code: nat)
      modifies this`holdings, this`policies, this`coverages, this`proposals, this`created, this`journal, this`sessions
      ensures Drive(cfg, env, old(Value()), start, first, answer) == StopOf(Value(), g, code)
    {
      var node, resume := first, answer;
      g := start;
      while node != End
        invariant Drive(cfg, env, Value(), g, node, resume) == Drive(cfg, env, old(Value()), start, first, answer)
        decreases resume.Some?, Rank(node, g)
      {
        ghost var before, was := Value(), g;
        var m := RunOne(g, node, resume, env);
        match m {
          case Returned(g') =>
            Closer(cfg, env, before, was, node, resume);
            resume := Left(node, g, resume);
            g := g';
            node := Edge(node, g);
          case Interrupted => return g.(place := Waiting), 0;
          case Stuck(c) => return g.(place := Broken), c;
        }
      }
      g, code := g.(place := Ended), 0;
    }

    /* ---------- the service ---------- */

    method ResolveThread(t: Uid, principal: Token.Principal) returns (code: nat)
      ensures code == Resolve(cfg, DeskValue(), t, principal)
    {
      if t !in threads || !threads[t].active {
        return 404;
      }
      var thread := threads[t];
      if !CanAccess(principal, thread.customer) {
        return 403;
      }
      if thread.session !in sessions || sessions[thread.session].customer != thread.customer {
        return 403;
      }
      if thread.hash != "" {
        var expected := cfg.digest(Scope(thread.customer, thread.session, t));
        if thread.hash != expected {
          return 403;
        }
      }
      code := 0;
    }

    method Trigger(t: Uid, env: Env, source: Source, payload: Payload) returns (reply: Reply)
      modifies this
      ensures (Value(), reply) == TriggerEvent(cfg, old(Value()), t, env, source, payload)
    {
      hide Drive;
      var code := ResolveThread(t, env.principal);
      if code != 0 {
        return Http(code);
      }
      if sessions[threads[t].session].state == UserApproval {
        return Http(409);
      }
      var g := Begin(DeskValue(), t, source, payload);
      var stop;
      stop, code := Invoke(g, DataRefresh, None, env);
      checkpoints := checkpoints[t := stop];
      reply := if stop.place.Broken? then Http(code) else Describe(DeskValue(), t);
    }

    method Submit(t: Uid, env: Env, decision: Decision, target: Option<Uid>) returns (reply: Reply)
      modifies this
      ensures (Value(), reply) == SubmitDecision(cfg, old(Value()), t, env, decision, target)
    {
      hide Drive;
      var code := ResolveThread(t, env.principal);
      if code != 0 {
        return Http(code);
      }
      var session := sessions[threads[t].session];
      if session.state != UserApproval || session.pending.None? {
        return Http(409);
      }
      if target.Some? && target != session.pending {
        return Http(409);
      }
      if t !in checkpoints || checkpoints[t].place != Waiting {
        return Http(500);
      }
      var stop;
      stop, code := Invoke(checkpoints[t], ApprovalInterrupt, Some(Answer(decision, session.pending)), env);
      checkpoints := checkpoints[t := stop];
      reply := if stop.place.Broken? then Http(code) else Describe(DeskValue(), t);
    }

    method Post(t: Uid, env: Env, text: string) returns (reply: Reply)
      modifies this
      ensures (Value(), reply) == PostMessage(cfg, old(Value()), t, env, text)
    {
      hide TriggerEvent;
      var code := ResolveThread(t, env.principal);
      if code != 0 {
        return Http(code);
      }
      if sessions[threads[t].session].state == UserApproval {
        return Describe(DeskValue(), t);
      }
      reply := Trigger(t, env, FromUser, Payload("", text));
    }

    /** `_pick_reusable_thread`: from the newest on, the first that waits for an approval; else the newest. */
    method PickThread(customer: string) returns (pick: Option<Uid>)
      ensures pick == PickReusable(DeskValue(), customer)
    {
      var active, waits := Keep(threadsByAge, ActiveOf(DeskValue(), customer)), AwaitingIn(DeskValue());
      for n := |active| downto 0
        invariant Keep(active[n..], waits) == []
      {
        assert active[n..] == [active[n]] + active[n + 1..];
        if waits(active[n]) {
          LastKept(active, waits, n);
          return Some(active[n]);
        }
      }
      assert active[0..] == active;
      pick := if active == [] then None else Some(active[|active| - 1]);
    }

    method CreateThread(customer: string, principal: Token.Principal, forceNew: bool, draw: nat) returns (reply: Reply)
      modifies this`sessions, this`threads, this`threadsByAge
      ensures (Value(), reply) == CreateOrReuse(cfg, old(Value()), customer, principal, forceNew, draw)
    {
      hide PickReusable, Listed, Keep;
      if customer !in customers {
        return Http(404);
      }
      if !CanAccess(principal, customer) {
        return Http(403);
      }
      if !forceNew {
        var existing := PickThread(customer);
        if existing.Some? {
          var t := existing.value;
          if cfg.local && t !in checkpoints && t in threads {
            threads := threads[t := threads[t].(active := false)];
          } else {
            return Describe(DeskValue(), t);
          }
        }
      }
      var sid, tid := Uid(draw, ForSession, 0), Uid(draw, ForThread, 0);
      sessions := sessions[sid := Session(customer, Monitoring, None)];
      threads := threads[tid := Thread(customer, sid, true, cfg.digest(Scope(customer, sid, tid)))];
      threadsByAge := threadsByAge + [tid];
      reply := Describe(DeskValue(), tid);
    }

    method Get(t: Uid, env: Env) returns (reply: Reply)
      ensures (Value(), reply) == ReadThread(cfg, Value(), t, env)
    {
      var code := ResolveThread(t, env.principal);
      reply := if code != 0 then Http(code) else Describe(DeskValue(), t);
    }

    /** One request, from the route to the reply. */
    method Request(r: Service.Request) returns (reply: Reply)
      modifies this
      ensures (Value(), reply) == Serve(cfg, old(Value()), r)
    {
      hide TriggerEvent, SubmitDecision, PostMessage, CreateOrReuse;
      match r {
        case Create(env, customer, forceNew) =>
          reply := CreateThread(customer, env.principal, forceNew, env.draw);
        case Event(env, t, source, payload) =>
          if !env.principal.role.Operator? {
            return Http(403);
          }
          reply := Trigger(t, env, source, payload);
        case Message(env, t, text) => reply := Post(t, env, text);
        case Decide(env, t, decision, target) => reply := Submit(t, env, decision, target);
        case Read(env, t) => reply := Get(t, env);
        case Restart(_) =>
          checkpoints := map[];
          reply := NoReply;
      }
    }

    /** Requests served one after the other keep the invariant, whatever they are. */
    method ServeAll(rs: seq<Service.Request>)
      requires Inv(DeskValue()) && Safety.Admissible(cfg, Value(), rs)
      modifies this
      ensures Value() == Run(cfg, old(Value()), rs) && Inv(DeskValue())
    {
      hide Serve, Inv, Safety.Fresh;
      ghost var start := Value();
      for n := 0 to |rs|
        invariant Run(cfg, Value(), rs[n..]) == Run(cfg, start, rs) && Inv(DeskValue())
        invariant Safety.Admissible(cfg, Value(), rs[n..])
      {
        assert rs[n..][0] == rs[n] && rs[n..][1..] == rs[n + 1..];
        Safety.StepKeepsInv(cfg, Value(), rs[n]);
        var reply := Request(rs[n]);
      }
    }
  }
}
