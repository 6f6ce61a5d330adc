/** What holds in every reachable state and along every run. */
module Safety {
  import opened Options
  import opened Seqs
  import opened Policy
  import opened Book
  import opened Proposals
  import opened Planner
  import opened Store
  import opened Workflow
  import opened Service
  import opened Invariants
  import opened Planning
  import opened Stepping
  import opened Requests
  import Token

  /** The request draws uuids that no row has yet. */
  ghost predicate Fresh(db: Db, draw: nat) {
    && (forall s :: s in db.desk.sessions ==> s.draw != draw)
    && (forall t :: t in db.desk.threads ==> t.draw != draw)
    && Undrawn(db.desk.proposals, draw)
    && (forall p :: p in db.book.policies ==> p.id.draw != draw)
    && (forall v :: v in db.book.coverages ==> v.policy.draw != draw)
  }

  /** Every request of the run draws fresh uuids. */
  ghost predicate Admissible(cfg: Config, db: Db, rs: seq<Request>)
    decreases |rs|
  {
    rs == [] || (Fresh(db, rs[0].env.draw) && Admissible(cfg, Serve(cfg, db, rs[0]).0, rs[1..]))
  }

  /* ---------- threads ---------- */

  lemma OpenKeepsInv(cfg: Config, desk: Desk, customer: string, draw: nat)
    requires Inv(desk)
    requires Uid(draw, ForSession, 0) !in desk.sessions && Uid(draw, ForThread, 0) !in desk.threads
    ensures Inv(Open(cfg, desk, customer, draw))
  {
    hide LinkedThreads, LinkedProposals, Recorded, QueueShown, CopiesAgree, Open;
    OpenKeepsCore(cfg, desk, customer, draw);
    OpenQueues(cfg, desk, customer, draw);
    OpenCopies(cfg, desk, customer, draw);
  }

  lemma OpenQueues(cfg: Config, desk: Desk, customer: string, draw: nat)
    requires AllQueuesShown(desk) && Uid(draw, ForSession, 0) !in desk.sessions
    requires LinkedProposals(desk.sessions, desk.proposals, desk.created, desk.journal)
    ensures AllQueuesShown(Open(cfg, desk, customer, draw))
    ensures Open(cfg, desk, customer, draw).proposals == desk.proposals
  {
    var after, sid := Open(cfg, desk, customer, draw), Uid(draw, ForSession, 0);
    forall s | s in after.sessions ensures QueueShown(after, s) {
      assert Queue(after, s) == Queue(desk, s);
      if s == sid {
        KeepNone(desk.created, AwaitsApproval(desk.proposals, sid));
      } else {
        assert QueueShown(desk, s);
      }
    }
  }

  lemma OpenCopies(cfg: Config, desk: Desk, customer: string, draw: nat)
    requires Uid(draw, ForSession, 0) !in desk.sessions && Uid(draw, ForThread, 0) !in desk.threads
    requires LinkedThreads(desk.sessions, desk.threads, desk.threadsByAge, desk.checkpoints) && AllCopiesAgree(desk)
    ensures var after := Open(cfg, desk, customer, draw);
            (forall t :: t in after.threads ==> after.threads[t].session in after.sessions) && AllCopiesAgree(after)
  {
    var after := Open(cfg, desk, customer, draw);
    forall t | t in after.threads ensures after.threads[t].session in after.sessions && CopiesAgree(after, t) {
      if t != Uid(draw, ForThread, 0) {
        assert CopiesAgree(desk, t);
      }
    }
  }

  lemma OpenKeepsCore(cfg: Config, desk: Desk, customer: string, draw: nat)
    requires Core(desk)
    requires Uid(draw, ForSession, 0) !in desk.sessions && Uid(draw, ForThread, 0) !in desk.threads
    ensures Core(Open(cfg, desk, customer, draw))
  {
    var after := Open(cfg, desk, customer, draw);
    assert LinkedThreads(after.sessions, after.threads, after.threadsByAge, after.checkpoints);
  }

  lemma StaleKeepsInv(desk: Desk, t: Uid)
    requires Inv(desk) && t in desk.threads
    ensures Inv(Stale(desk, t))
  {
    StaleKeepsCore(desk, t);
    QueuesSame(desk, Stale(desk, t));
    StaleCopies(desk, t);
  }

  lemma StaleKeepsCore(desk: Desk, t: Uid)
    requires Core(desk) && t in desk.threads
    ensures Core(Stale(desk, t))
  {
  }

  lemma StaleCopies(desk: Desk, t: Uid)
    requires Core(desk) && AllCopiesAgree(desk) && t in desk.threads
    ensures AllCopiesAgree(Stale(desk, t))
  {
    var after := Stale(desk, t);
    forall u | u in after.threads ensures CopiesAgree(after, u) {
      assert CopiesAgree(desk, u);
    }
  }

  /** A thread that is offered for reuse is an active one of the customer. */
  lemma PickedActive(desk: Desk, customer: string)
    ensures var pick := PickReusable(desk, customer);
            pick.Some? ==> ActiveOf(desk, customer)(pick.value)
  {
    var active := Keep(desk.threadsByAge, ActiveOf(desk, customer));
    var waiting := Keep(active, AwaitingIn(desk));
    if waiting != [] {
      assert waiting[|waiting| - 1] in waiting;
    } else if active != [] {
      assert active[|active| - 1] in active;
    }
  }

  lemma CreateKeepsInv(cfg: Config, db: Db, customer: string, principal: Token.Principal, forceNew: bool, draw: nat)
    requires Inv(db.desk) && Fresh(db, draw)
    ensures Inv(CreateOrReuse(cfg, db, customer, principal, forceNew, draw).0.desk)
  {
    hide Inv;
    match (if forceNew then None else PickReusable(db.desk, customer))
    case None => OpenKeepsInv(cfg, db.desk, customer, draw);
    case Some(t) =>
      if t in db.desk.threads {
        StaleKeepsInv(db.desk, t);
        OpenKeepsInv(cfg, Stale(db.desk, t), customer, draw);
      }
  }

  /* ---------- every request ---------- */

  lemma FailedJobKeepsInv(desk: Desk, t: Uid, g: Graph)
    requires Inv(desk) && t in desk.threads && desk.sessions[desk.threads[t].session].state == Monitoring
    requires g.scope == ScopeOf(desk, t) && g.pending == None && g.place == Broken
    ensures Inv(Saved(desk, t, g))
  {
    SavedKeepsCore(desk, t, g);
    QueuesSame(desk, Saved(desk, t, g));
    FailedJobCopies(desk, t, g);
  }

  lemma FailedJobCopies(desk: Desk, t: Uid, g: Graph)
    requires Core(desk) && AllCopiesAgree(desk) && t in desk.threads
    requires desk.sessions[desk.threads[t].session].state == Monitoring && g.pending == None && g.place == Broken
    ensures AllCopiesAgree(Saved(desk, t, g))
  {
    var after := Saved(desk, t, g);
    forall u | u in after.threads ensures CopiesAgree(after, u) {
      assert CopiesAgree(desk, u);
    }
  }

  lemma AcceptedEventKeepsInv(cfg: Config, db: Db, t: Uid, env: Env, source: Source, payload: Payload)
    requires Inv(db.desk) && Undrawn(db.desk.proposals, env.draw)
    requires Resolve(cfg, db.desk, t, env.principal) == 0 && SessionOf(db.desk, t).state == Monitoring
    ensures Inv(TriggerEvent(cfg, db, t, env, source, payload).0.desk)
  {
    hide LinkedThreads, LinkedProposals, Recorded, QueueShown, CopiesAgree, TriggerEvent;
    var s := SensedBy(db, t, source, payload);
    SensedStart(db, t, source, payload);
    EventEffect(cfg, db, t, env, source, payload);
    match cfg.Agent(s.signal.value, s.context.value, env.seed)
    case None => FailedJobKeepsInv(db.desk, t, s.(place := Broken));
    case Some(items) =>
      PlannedKeepsInv(cfg, db.desk, t, Drafts(items), env.draw, AfterEvent(s, items, env.draw));
  }

  /** Between requests a monitored thread carries no pending proposal into the next run. */
  lemma SensedStart(db: Db, t: Uid, source: Source, payload: Payload)
    requires Inv(db.desk) && t in db.desk.threads && SessionOf(db.desk, t).state == Monitoring
    ensures var s := SensedBy(db, t, source, payload);
            s.pending == None && s.scope == ScopeOf(db.desk, t) && s.results == []
  {
    assert CopiesAgree(db.desk, t);
  }

  lemma EventKeepsInv(cfg: Config, db: Db, t: Uid, env: Env, source: Source, payload: Payload)
    requires Inv(db.desk) && Undrawn(db.desk.proposals, env.draw)
    ensures Inv(TriggerEvent(cfg, db, t, env, source, payload).0.desk)
  {
    if Resolve(cfg, db.desk, t, env.principal) == 0 && SessionOf(db.desk, t).state == Monitoring {
      AcceptedEventKeepsInv(cfg, db, t, env, source, payload);
    }
  }

  lemma AcceptedDecisionKeepsInv(cfg: Config, db: Db, t: Uid, env: Env, d: Decision, target: Option<Uid>)
    requires Inv(db.desk) && Resolve(cfg, db.desk, t, env.principal) == 0 && t in db.desk.checkpoints
    requires var s := SessionOf(db.desk, t);
             s.state == UserApproval && (target == None || target == s.pending)
    ensures Inv(SubmitDecision(cfg, db, t, env, d, target).0.desk)
  {
    hide Inv, SubmitDecision;
    DecisionEffect(cfg, db, t, env, d, target);
    OpenApproval(db.desk, t);
    var q := Queue(db.desk, db.desk.threads[t].session);
    var g := AfterDecision(cfg, db.desk.checkpoints[t], d, q[0], db.desk.proposals[q[0]].kind, Head(q[1..]));
    DecidedKeepsInv(cfg, db.desk, t, q[0], d, env.principal.subject, g);
  }

  lemma DecisionKeepsInv(cfg: Config, db: Db, t: Uid, env: Env, d: Decision, target: Option<Uid>)
    requires Inv(db.desk)
    ensures Inv(SubmitDecision(cfg, db, t, env, d, target).0.desk)
  {
    if Resolve(cfg, db.desk, t, env.principal) == 0 {
      var s := SessionOf(db.desk, t);
      if s.state == UserApproval && (target == None || target == s.pending) && t in db.desk.checkpoints {
        AcceptedDecisionKeepsInv(cfg, db, t, env, d, target);
      }
    }
  }

  /** Losing the checkpoints breaks nothing that the tables record. */
  lemma RestartKeepsInv(desk: Desk)
    requires Inv(desk)
    ensures Inv(Restarted(desk))
  {
    QueuesSame(desk, Restarted(desk));
  }

  /** Every request keeps the invariant, whoever sends it and however it is answered. */
  lemma StepKeepsInv(cfg: Config, db: Db, r: Request)
    requires Inv(db.desk) && Fresh(db, r.env.draw)
    ensures Inv(Serve(cfg, db, r).0.desk)
  {
    match r
    case Create(env, customer, forceNew) => CreateKeepsInv(cfg, db, customer, env.principal, forceNew, env.draw);
    case Event(env, t, source, payload) => EventKeepsInv(cfg, db, t, env, source, payload);
    case Message(env, t, text) => EventKeepsInv(cfg, db, t, env, FromUser, Payload("", text));
    case Decide(env, t, d, target) => DecisionKeepsInv(cfg, db, t, env, d, target);
    case Read(_, _) =>
    case Restart(_) => RestartKeepsInv(db.desk);
  }

  lemma {:induction false} RunKeepsInv(cfg: Config, db: Db, rs: seq<Request>)
    requires Inv(db.desk) && Admissible(cfg, db, rs)
    ensures Inv(Run(cfg, db, rs).desk)
    decreases |rs|
  {
    if rs != [] {
      StepKeepsInv(cfg, db, rs[0]);
      RunKeepsInv(cfg, Serve(cfg, db, rs[0]).0, rs[1..]);
    }
  }

  /** Before any session exists the invariant holds. */
  lemma EmptyDesk(customers: map<string, Facts>)
    ensures Inv(Desk(customers, map[], map[], [], map[], map[], [], []))
  {
  }

  /* ---------- nothing is taken back ---------- */

  /** A row as it may look later: only the status of a waiting proposal moves. */
  predicate Later(row: Proposal, row': Proposal) {
    row' == row.(status := row'.status) && (row.status != Proposed ==> row' == row)
  }

  ghost predicate Extends(desk: Desk, desk': Desk) {
    && desk.journal <= desk'.journal
    && forall p :: p in desk.proposals ==> p in desk'.proposals && Later(desk.proposals[p], desk'.proposals[p])
  }

  lemma PlannedExtends(cfg: Config, desk: Desk, t: Uid, drafts: seq<Draft>, draw: nat, g: Graph)
    requires t in desk.threads && desk.threads[t].session in desk.sessions && Undrawn(desk.proposals, draw)
    ensures Extends(desk, PlannedSaved(cfg, desk, t, drafts, draw, g))
  {
    var rows := Rows(cfg, desk.threads[t].session, drafts, draw, |drafts|);
    forall p | p in desk.proposals ensures p !in rows {
    }
  }

  lemma DecidedExtends(cfg: Config, desk: Desk, t: Uid, p: Uid, d: Decision, subject: string, g: Graph)
    requires t in desk.threads && desk.threads[t].session in desk.sessions
    requires p in desk.proposals && desk.proposals[p].status == Proposed
    ensures Extends(desk, DecidedSaved(cfg, desk, t, p, d, subject, g))
  {
  }

  lemma AcceptedEventExtends(cfg: Config, db: Db, t: Uid, env: Env, source: Source, payload: Payload)
    requires Core(db.desk) && Undrawn(db.desk.proposals, env.draw)
    requires Resolve(cfg, db.desk, t, env.principal) == 0 && SessionOf(db.desk, t).state == Monitoring
    ensures Extends(db.desk, TriggerEvent(cfg, db, t, env, source, payload).0.desk)
  {
    hide Core, TriggerEvent;
    var s := SensedBy(db, t, source, payload);
    EventEffect(cfg, db, t, env, source, payload);
    match cfg.Agent(s.signal.value, s.context.value, env.seed)
    case None =>
    case Some(items) =>
      PlannedExtends(cfg, db.desk, t, Drafts(items), env.draw, AfterEvent(s, items, env.draw));
  }

  lemma EventExtends(cfg: Config, db: Db, t: Uid, env: Env, source: Source, payload: Payload)
    requires Core(db.desk) && Undrawn(db.desk.proposals, env.draw)
    ensures Extends(db.desk, TriggerEvent(cfg, db, t, env, source, payload).0.desk)
  {
    if Resolve(cfg, db.desk, t, env.principal) == 0 && SessionOf(db.desk, t).state == Monitoring {
      AcceptedEventExtends(cfg, db, t, env, source, payload);
    }
  }

  lemma AcceptedDecisionExtends(cfg: Config, db: Db, t: Uid, env: Env, d: Decision, target: Option<Uid>)
    requires Inv(db.desk) && Resolve(cfg, db.desk, t, env.principal) == 0 && t in db.desk.checkpoints
    requires var s := SessionOf(db.desk, t);
             s.state == UserApproval && (target == None || target == s.pending)
    ensures Extends(db.desk, SubmitDecision(cfg, db, t, env, d, target).0.desk)
  {
    hide Inv, SubmitDecision, Extends;
    DecisionEffect(cfg, db, t, env, d, target);
    var q := Queue(db.desk, db.desk.threads[t].session);
    var g := AfterDecision(cfg, db.desk.checkpoints[t], d, q[0], db.desk.proposals[q[0]].kind, Head(q[1..]));
    DecidedExtends(cfg, db.desk, t, q[0], d, env.principal.subject, g);
  }

  lemma DecisionExtends(cfg: Config, db: Db, t: Uid, env: Env, d: Decision, target: Option<Uid>)
    requires Inv(db.desk)
    ensures Extends(db.desk, SubmitDecision(cfg, db, t, env, d, target).0.desk)
  {
    if Resolve(cfg, db.desk, t, env.principal) == 0 {
      var s := SessionOf(db.desk, t);
      if s.state == UserApproval && (target == None || target == s.pending) && t in db.desk.checkpoints {
        AcceptedDecisionExtends(cfg, db, t, env, d, target);
      }
    }
  }

  lemma ServeExtends(cfg: Config, db: Db, r: Request)
    requires Inv(db.desk) && Fresh(db, r.env.draw)
    ensures Extends(db.desk, Serve(cfg, db, r).0.desk)
  {
    match r
    case Create(env, customer, forceNew) => CreateExtends(cfg, db, customer, env.principal, forceNew, env.draw);
    case Event(_, _, _, _) => SignalExtends(cfg, db, r);
    case Message(_, _, _) => SignalExtends(cfg, db, r);
    case Decide(env, t, d, target) => DecisionExtends(cfg, db, t, env, d, target);
    case Read(_, _) =>
    case Restart(_) =>
  }

  lemma SignalExtends(cfg: Config, db: Db, r: Request)
    requires Core(db.desk) && Undrawn(db.desk.proposals, r.env.draw) && (r.Event? || r.Message?)
    ensures Extends(db.desk, Serve(cfg, db, r).0.desk)
  {
    match r
    case Event(env, t, source, payload) => EventExtends(cfg, db, t, env, source, payload);
    case Message(env, t, text) => EventExtends(cfg, db, t, env, FromUser, Payload("", text));
  }

  lemma CreateExtends(cfg: Config, db: Db, customer: string, principal: Token.Principal, forceNew: bool, draw: nat)
    ensures Extends(db.desk, CreateOrReuse(cfg, db, customer, principal, forceNew, draw).0.desk)
  {
  }

  lemma ExtendsTrans(a: Desk, b: Desk, c: Desk)
    requires Extends(a, b) && Extends(b, c)
    ensures Extends(a, c)
  {
  }

  /** Along a run rows only move on from waiting, and the journal only grows. */
  lemma {:induction false} RunExtends(cfg: Config, db: Db, rs: seq<Request>)
    requires Inv(db.desk) && Admissible(cfg, db, rs)
    ensures Extends(db.desk, Run(cfg, db, rs).desk)
    decreases |rs|
  {
    if rs != [] {
      var next := Serve(cfg, db, rs[0]).0;
      StepKeepsInv(cfg, db, rs[0]);
      ServeExtends(cfg, db, rs[0]);
      RunExtends(cfg, next, rs[1..]);
      ExtendsTrans(db.desk, next.desk, Run(cfg, next, rs[1..]).desk);
    }
  }

  /* ---------- approval safety ---------- */

  lemma {:induction false} KeptAt<T(!new)>(s: seq<T>, p: T -> bool, j: nat) returns (k: nat)
    requires j < |s| && p(s[j])
    ensures k < |Keep(s, p)| && Keep(s, p)[k] == s[j]
    ensures k == |Keep(s[..j], p)|
  {
    KeepAppend(s[..j], s[j..], p);
    assert s == s[..j] + s[j..];
    k := |Keep(s[..j], p)|;
    assert Keep(s[j..], p) == [s[j]] + Keep(s[j..][1..], p);
  }

  /** A history entry that stands before another was written before it. */
  lemma WrittenBefore<T(!new)>(s: seq<T>, p: T -> bool, j: nat)
    requires j < |s| && p(s[j]) && |Keep(s, p)| == 2 && s[j] == Keep(s, p)[1] && Keep(s, p)[0] != Keep(s, p)[1]
    ensures exists i :: 0 <= i < j && s[i] == Keep(s, p)[0]
  {
    var k := KeptAt(s, p, j);
    assert s == s[..j] + s[j..];
    KeepAppend(s[..j], s[j..], p);
    assert Keep(s, p)[0] in Keep(s[..j], p);
    var i :| 0 <= i < |s[..j]| && s[..j][i] == Keep(s, p)[0];
    assert s[i] == Keep(s, p)[0];
  }

  /**
   * Approval safety, in every reachable state: an execution of a proposal that needs approval
   * comes after an approval recorded for that very proposal, and no other decision on it exists.
   */
  lemma ApprovedBeforeRun(desk: Desk, j: nat)
    requires Core(desk) && j < |desk.journal| && desk.journal[j].Ran?
    requires desk.journal[j].proposal in desk.proposals && Needs(desk.proposals[desk.journal[j].proposal])
    ensures ApprovedBefore(desk.journal, j)
  {
    var e := desk.journal[j];
    var row, h := desk.proposals[e.proposal], History(desk, e.proposal);
    assert e in h;
    assert HistoryFits(row, h);
    ApprovedInHistory(desk.journal, j, row);
  }

  /** Entry `j` comes after an approval of its proposal, the only kind of decision on it. */
  ghost predicate ApprovedBefore(journal: seq<Entry>, j: nat)
    requires j < |journal|
  {
    && (exists i :: 0 <= i < j && journal[i].Decided? && journal[i].proposal == journal[j].proposal
                    && journal[i].decision == Approve)
    && (forall k :: 0 <= k < |journal| && journal[k].Decided? && journal[k].proposal == journal[j].proposal
                    ==> journal[k].decision == Approve)
  }

  lemma ApprovedInHistory(journal: seq<Entry>, j: nat, row: Proposal)
    requires j < |journal| && journal[j].Ran? && Needs(row)
    requires HistoryFits(row, Keep(journal, About(journal[j].proposal)))
    ensures ApprovedBefore(journal, j)
  {
    hide Keep;
    var h := Keep(journal, About(journal[j].proposal));
    assert journal[j] in h;
    assert h[0] in h;
    WrittenBefore(journal, About(journal[j].proposal), j);
    OnlyDecision(journal, journal[j].proposal, h[0], h[1]);
  }

  lemma OnlyDecision(journal: seq<Entry>, p: Uid, first: Entry, second: Entry)
    requires Keep(journal, About(p)) == [first, second] && !second.Decided?
    ensures forall k :: 0 <= k < |journal| && journal[k].Decided? && journal[k].proposal == p ==> journal[k] == first
  {
    forall k | 0 <= k < |journal| && journal[k].Decided? && journal[k].proposal == p
      ensures journal[k] == first
    {
      assert journal[k] in Keep(journal, About(p));
    }
  }

  /** The same over whole runs, from any good state. */
  lemma RunApprovalSafety(cfg: Config, db: Db, rs: seq<Request>, j: nat)
    requires Inv(db.desk) && Admissible(cfg, db, rs)
    requires var end := Run(cfg, db, rs).desk;
             j < |end.journal| && end.journal[j].Ran?
    ensures var end := Run(cfg, db, rs).desk;
            var p := end.journal[j].proposal;
            && p in end.proposals
            && (Needs(end.proposals[p]) ==> ApprovedBefore(end.journal, j))
  {
    var end := Run(cfg, db, rs).desk;
    RunKeepsInv(cfg, db, rs);
    assert end.journal[j] in end.journal;
    if Needs(end.proposals[end.journal[j].proposal]) {
      ApprovedBeforeRun(end, j);
    }
  }

  /**
   * The same in terms of what is proposed. At the end of any run, whatever the planning worker has
   * returned: what has an external effect, books a hospital or rebalances a portfolio ran only
   * after an approval of that very proposal, and any other kind without external effect ran
   * without the customer having been asked.
   */
  lemma RiskyRunsAreApproved(cfg: Config, db: Db, rs: seq<Request>, j: nat)
    requires Inv(db.desk) && Admissible(cfg, db, rs)
    requires var end := Run(cfg, db, rs).desk;
             j < |end.journal| && end.journal[j].Ran?
    ensures var end := Run(cfg, db, rs).desk;
            var p := end.journal[j].proposal;
            && p in end.proposals
            && var row := end.proposals[p];
               if row.external || row.kind == BookHospital || row.kind == RebalancePortfolio
               then ApprovedBefore(end.journal, j)
               else forall e :: e in end.journal && e.Decided? ==> e.proposal != p
  {
    hide Inv, Fresh, Serve, ApprovedBefore;
    var end := Run(cfg, db, rs).desk;
    RunApprovalSafety(cfg, db, rs, j);
    RunKeepsInv(cfg, db, rs);
    InvCore(end);
    if !Needs(end.proposals[end.journal[j].proposal]) {
      NeverAsked(end, end.journal[j].proposal);
    }
  }

  lemma NeverAsked(desk: Desk, p: Uid)
    requires Core(desk) && p in desk.proposals && !Needs(desk.proposals[p])
    ensures forall e :: e in desk.journal && e.Decided? ==> e.proposal != p
  {
    assert HistoryFits(desk.proposals[p], History(desk, p));
    assert forall e :: e in History(desk, p) ==> e.Ran?;
    assert forall e :: e in desk.journal && e.proposal == p ==> e in History(desk, p);
  }

  /** And as long as nobody has approved it, it is still there to be approved, or has been turned down. */
  lemma RiskyWaits(cfg: Config, db: Db, rs: seq<Request>, p: Uid)
    requires Inv(db.desk) && Admissible(cfg, db, rs) && p in Run(cfg, db, rs).desk.proposals
    requires forall e :: e in Run(cfg, db, rs).desk.journal && e.proposal == p && e.Decided? ==> e.decision != Approve
    ensures var row := Run(cfg, db, rs).desk.proposals[p];
            row.external || row.kind == BookHospital || row.kind == RebalancePortfolio
            ==> row.status == Proposed || row.status == Rejected || row.status == Deferred
  {
    hide Inv, Fresh, Serve;
    var end := Run(cfg, db, rs).desk;
    RunKeepsInv(cfg, db, rs);
    InvCore(end);
    assert HistoryFits(end.proposals[p], History(end, p));
    assert forall e :: e in History(end, p) ==> e in end.journal && e.proposal == p;
  }

  /** A rejected or deferred proposal stays so and is never executed, whatever follows. */
  lemma RefusedForever(cfg: Config, db: Db, rs: seq<Request>, p: Uid)
    requires Inv(db.desk) && Admissible(cfg, db, rs)
    requires p in db.desk.proposals
             && (db.desk.proposals[p].status == Rejected || db.desk.proposals[p].status == Deferred)
    ensures var end := Run(cfg, db, rs).desk;
            && p in end.proposals && end.proposals[p] == db.desk.proposals[p]
            && Keep(end.journal, RunOf(p)) == []
  {
    hide Inv, Fresh, Serve, Core;
    var end := Run(cfg, db, rs).desk;
    RunKeepsInv(cfg, db, rs);
    RunExtends(cfg, db, rs);
    InvCore(end);
    ExecutionRows(end, p);
  }

  /** At most one execution row per proposal, in every state a run can reach. */
  lemma RunAtMostOnce(cfg: Config, db: Db, rs: seq<Request>, p: Uid)
    requires Inv(db.desk) && Admissible(cfg, db, rs) && p in Run(cfg, db, rs).desk.proposals
    ensures var end := Run(cfg, db, rs).desk;
            var runs := Keep(end.journal, RunOf(p));
            var status := end.proposals[p].status;
            if status == Executed || status == Failed
            then |runs| == 1 && runs[0].Ran? && runs[0].ok == status.Executed?
            else runs == []
  {
    RunKeepsInv(cfg, db, rs);
    ExecutionRows(Run(cfg, db, rs).desk, p);
  }

  /** What is recorded about a proposal: its row and its history. */
  predicate SameRecord(desk: Desk, desk': Desk, q: Uid) {
    && q in desk.proposals && q in desk'.proposals
    && desk'.proposals[q] == desk.proposals[q] && History(desk', q) == History(desk, q)
  }

  /** A decision writes about the pending proposal and nothing else: approving A never executes B. */
  lemma DecisionTouchesOnlyPending(cfg: Config, db: Db, t: Uid, env: Env, d: Decision, target: Option<Uid>, q: Uid)
    requires Inv(db.desk) && q in db.desk.proposals
    requires Resolve(cfg, db.desk, t, env.principal) == 0
    requires SessionOf(db.desk, t).pending != Some(q) || (target != None && target != Some(q))
    ensures SameRecord(db.desk, SubmitDecision(cfg, db, t, env, d, target).0.desk, q)
  {
    var s := SessionOf(db.desk, t);
    if s.state == UserApproval && (target == None || target == s.pending) && t in db.desk.checkpoints {
      AcceptedTouchesOnlyPending(cfg, db, t, env, d, target, q);
    }
  }

  lemma AcceptedTouchesOnlyPending(cfg: Config, db: Db, t: Uid, env: Env, d: Decision, target: Option<Uid>, q: Uid)
    requires Inv(db.desk) && q in db.desk.proposals && Resolve(cfg, db.desk, t, env.principal) == 0
    requires t in db.desk.checkpoints
    requires var s := SessionOf(db.desk, t);
             s.state == UserApproval && (target == None || target == s.pending) && s.pending != Some(q)
    ensures SameRecord(db.desk, SubmitDecision(cfg, db, t, env, d, target).0.desk, q)
  {
    hide Inv, SubmitDecision;
    DecisionEffect(cfg, db, t, env, d, target);
    OpenApproval(db.desk, t);
    var queue := Queue(db.desk, db.desk.threads[t].session);
    var g := AfterDecision(cfg, db.desk.checkpoints[t], d, queue[0], db.desk.proposals[queue[0]].kind,
                           Head(queue[1..]));
    OtherRecord(cfg, db.desk, t, queue[0], d, env.principal.subject, g, q);
  }

  lemma OtherRecord(cfg: Config, desk: Desk, t: Uid, p: Uid, d: Decision, subject: string, g: Graph, q: Uid)
    requires t in desk.threads && desk.threads[t].session in desk.sessions
    requires p in desk.proposals && q in desk.proposals && p != q
    ensures SameRecord(desk, DecidedSaved(cfg, desk, t, p, d, subject, g), q)
  {
    OtherHistory(cfg, desk, p, d, subject, q);
  }

  lemma OtherHistory(cfg: Config, desk: Desk, p: Uid, d: Decision, subject: string, q: Uid)
    requires p in desk.proposals && p != q
    ensures History(DecidedDesk(cfg, desk, p, d, subject), q) == History(desk, q)
  {
    HistoryGrows(desk.journal, Decided(p, d, subject), q);
    var journal := desk.journal + [Decided(p, d, subject)];
    if d.Approve? {
      HistoryGrows(journal, RunRow(cfg, p, desk.proposals[p].kind), q);
    } else {
      assert journal + [] == journal;
    }
  }

  /* ---------- outcomes ---------- */

  /** Mock handlers act and succeed, each for its own kind; outside mock mode every execution is a failed request. */
  ghost predicate OutcomeFits(cfg: Config, desk: Desk, e: Entry) {
    e.Ran? ==>
      && e.proposal in desk.proposals
      && e == if cfg.mode == MockApply then Ran(e.proposal, MockHandler(desk.proposals[e.proposal].kind), true)
              else Ran(e.proposal, ExternalRequestExecutor, false)
  }

  ghost predicate NewOutcomesFit(cfg: Config, desk: Desk, desk': Desk) {
    forall j :: |desk.journal| <= j < |desk'.journal| ==> OutcomeFits(cfg, desk', desk'.journal[j])
  }

  lemma {:induction false} AutoRunsFit(cfg: Config, drafts: seq<Draft>, draw: nat)
    ensures forall e :: e in AutoRuns(cfg, drafts, draw) ==>
              exists i :: 0 <= i < |drafts| && e == RunRow(cfg, ProposalId(draw, i), drafts[i].kind)
  {
    if drafts != [] {
      var last := |drafts| - 1;
      AutoRunsFit(cfg, drafts[..last], draw);
      forall e | e in AutoRuns(cfg, drafts[..last], draw)
        ensures exists i :: 0 <= i < |drafts| && e == RunRow(cfg, ProposalId(draw, i), drafts[i].kind)
      {
        var i :| 0 <= i < last && e == RunRow(cfg, ProposalId(draw, i), drafts[..last][i].kind);
        assert drafts[..last][i] == drafts[i];
      }
    }
  }

  lemma PlannedOutcomes(cfg: Config, desk: Desk, t: Uid, drafts: seq<Draft>, draw: nat, g: Graph)
    requires t in desk.threads && desk.threads[t].session in desk.sessions
    ensures NewOutcomesFit(cfg, desk, PlannedSaved(cfg, desk, t, drafts, draw, g))
  {
    hide AutoRuns, NeedingIds;
    var after := PlannedSaved(cfg, desk, t, drafts, draw, g);
    assert drafts[..|drafts|] == drafts;
    AutoRunsFit(cfg, drafts, draw);
    forall j | |desk.journal| <= j < |after.journal| ensures OutcomeFits(cfg, after, after.journal[j]) {
      var e := after.journal[j];
      assert e == AutoRuns(cfg, drafts, draw)[j - |desk.journal|] && e in AutoRuns(cfg, drafts, draw);
      var i :| 0 <= i < |drafts| && e == RunRow(cfg, ProposalId(draw, i), drafts[i].kind);
      assert e.proposal in Rows(cfg, desk.threads[t].session, drafts, draw, |drafts|);
    }
  }

  /** Outside mock mode nothing touches the finance tables. */
  lemma {:induction false} ExternalSweep(cfg: Config, book: Book, customer: string, drafts: seq<Draft>, draw: nat,
                                         n: nat)
    requires cfg.mode == ExternalRequest && n <= |drafts|
    ensures SweptBook(cfg, book, customer, drafts, draw, n) == book
  {
    if n > 0 {
      ExternalSweep(cfg, book, customer, drafts, draw, n - 1);
    }
  }

  lemma EventOutcomes(cfg: Config, db: Db, t: Uid, env: Env, source: Source, payload: Payload)
    requires Core(db.desk) && Undrawn(db.desk.proposals, env.draw)
    ensures var db' := TriggerEvent(cfg, db, t, env, source, payload).0;
            NewOutcomesFit(cfg, db.desk, db'.desk) && (cfg.mode == ExternalRequest ==> db'.book == db.book)
  {
    hide Core, Undrawn, Drive;
    if Resolve(cfg, db.desk, t, env.principal) == 0 && SessionOf(db.desk, t).state == Monitoring {
      AcceptedOutcomes(cfg, db, t, env, source, payload);
    }
  }

  lemma AcceptedOutcomes(cfg: Config, db: Db, t: Uid, env: Env, source: Source, payload: Payload)
    requires Core(db.desk) && Undrawn(db.desk.proposals, env.draw)
    requires Resolve(cfg, db.desk, t, env.principal) == 0 && SessionOf(db.desk, t).state == Monitoring
    ensures var db' := TriggerEvent(cfg, db, t, env, source, payload).0;
            NewOutcomesFit(cfg, db.desk, db'.desk) && (cfg.mode == ExternalRequest ==> db'.book == db.book)
  {
    hide Core, Undrawn, TriggerEvent, PlannedSaved, OutcomeFits, Describe;
    var s := SensedBy(db, t, source, payload);
    EventEffect(cfg, db, t, env, source, payload);
    match cfg.Agent(s.signal.value, s.context.value, env.seed)
    case None =>
    case Some(items) =>
      PlannedOutcomes(cfg, db.desk, t, Drafts(items), env.draw, AfterEvent(s, items, env.draw));
      if cfg.mode == ExternalRequest {
        ExternalSweep(cfg, db.book, db.desk.sessions[db.desk.threads[t].session].customer, Drafts(items), env.draw,
                      |items|);
      }
  }

  lemma DecisionOutcomes(cfg: Config, db: Db, t: Uid, env: Env, d: Decision, target: Option<Uid>)
    requires Inv(db.desk)
    ensures var db' := SubmitDecision(cfg, db, t, env, d, target).0;
            NewOutcomesFit(cfg, db.desk, db'.desk) && (cfg.mode == ExternalRequest ==> db'.book == db.book)
  {
    hide LinkedThreads, LinkedProposals, Recorded, QueueShown, CopiesAgree, Drive;
    if Resolve(cfg, db.desk, t, env.principal) == 0 {
      var s := SessionOf(db.desk, t);
      if s.state == UserApproval && (target == None || target == s.pending) && t in db.desk.checkpoints {
        TakenOutcomes(cfg, db, t, env, d, target);
      }
    }
  }

  lemma TakenOutcomes(cfg: Config, db: Db, t: Uid, env: Env, d: Decision, target: Option<Uid>)
    requires Inv(db.desk) && Resolve(cfg, db.desk, t, env.principal) == 0 && t in db.desk.checkpoints
    requires var s := SessionOf(db.desk, t);
             s.state == UserApproval && (target == None || target == s.pending)
    ensures var db' := SubmitDecision(cfg, db, t, env, d, target).0;
            NewOutcomesFit(cfg, db.desk, db'.desk) && (cfg.mode == ExternalRequest ==> db'.book == db.book)
  {
    hide Inv, SubmitDecision, DecidedSaved, Queue, OutcomeFits, Describe;
    DecisionEffect(cfg, db, t, env, d, target);
    var q := Queue(db.desk, db.desk.threads[t].session);
    var g := AfterDecision(cfg, db.desk.checkpoints[t], d, q[0], db.desk.proposals[q[0]].kind, Head(q[1..]));
    DecidedOutcomes(cfg, db.desk, t, q[0], d, env.principal.subject, g);
  }

  lemma DecidedOutcomes(cfg: Config, desk: Desk, t: Uid, p: Uid, d: Decision, subject: string, g: Graph)
    requires t in desk.threads && desk.threads[t].session in desk.sessions && p in desk.proposals
    ensures NewOutcomesFit(cfg, desk, DecidedSaved(cfg, desk, t, p, d, subject, g))
  {
    hide Queue;
  }

  lemma StepOutcomes(cfg: Config, db: Db, r: Request)
    requires Inv(db.desk) && Fresh(db, r.env.draw)
    ensures var db' := Serve(cfg, db, r).0;
            NewOutcomesFit(cfg, db.desk, db'.desk) && (cfg.mode == ExternalRequest ==> db'.book == db.book)
  {
    hide Inv, Undrawn, TriggerEvent, SubmitDecision, PickReusable, Describe, OutcomeFits;
    InvCore(db.desk);
    match r
    case Create(_, _, _) =>
    case Event(env, t, source, payload) => EventOutcomes(cfg, db, t, env, source, payload);
    case Message(env, t, text) => EventOutcomes(cfg, db, t, env, FromUser, Payload("", text));
    case Decide(env, t, d, target) => DecisionOutcomes(cfg, db, t, env, d, target);
    case Read(_, _) =>
    case Restart(_) =>
  }

  /**
   * Over any run every new execution is what the mode allows: in mock mode a success of the handler
   * for the proposal's own kind, otherwise a failed request, and then the finance tables never move.
   */
  lemma {:induction false} RunOutcomes(cfg: Config, db: Db, rs: seq<Request>)
    requires Inv(db.desk) && Admissible(cfg, db, rs)
    ensures var end := Run(cfg, db, rs);
            NewOutcomesFit(cfg, db.desk, end.desk) && (cfg.mode == ExternalRequest ==> end.book == db.book)
    decreases |rs|
  {
    hide Inv, Fresh, Serve, OutcomeFits;
    if rs != [] {
      var next := Serve(cfg, db, rs[0]).0;
      var end := Run(cfg, next, rs[1..]).desk;
      StepKeepsInv(cfg, db, rs[0]);
      StepOutcomes(cfg, db, rs[0]);
      RunOutcomes(cfg, next, rs[1..]);
      RunExtends(cfg, next, rs[1..]);
      forall j | |db.desk.journal| <= j < |end.journal| ensures OutcomeFits(cfg, end, end.journal[j]) {
        if j < |next.desk.journal| {
          assert end.journal[j] == next.desk.journal[j];
          StillFits(cfg, next.desk, end, end.journal[j]);
        }
      }
    }
  }

  lemma StillFits(cfg: Config, desk: Desk, desk': Desk, e: Entry)
    requires OutcomeFits(cfg, desk, e) && Extends(desk, desk')
    ensures OutcomeFits(cfg, desk', e)
  {
  }
}
