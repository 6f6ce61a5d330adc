/** Customers do not interfere: one customer's part of any run is the run of that customer's requests alone. */
module Isolation {
  import opened Options
  import opened Seqs
  import opened Book
  import opened Proposals
  import opened Planner
  import opened Store
  import opened Workflow
  import opened Service
  import opened Invariants
  import opened Planning
  import opened Stepping
  import opened Requests
  import opened Safety
  import opened OwnBooks
  import opened OwnDesks
  import Token

  /** Everything the database holds about customer `c`. */
  function Own(db: Db, c: string): Db { Db(OwnDesk(db.desk, c), OwnBook(db.book, c)) }

  /** Whose request it is: the customer named, or the one the thread belongs to. A restart is everybody's. */
  predicate Concerns(desk: Desk, r: Request, c: string) {
    match r
    case Create(_, customer, _) => customer == c
    case Restart(_) => true
    case _ => r.thread in desk.threads && desk.threads[r.thread].customer == c
  }

  /** The requests of the run that concern `c`. */
  function Ours(cfg: Config, db: Db, rs: seq<Request>, c: string): (ours: seq<Request>)
    ensures |ours| <= |rs|
    decreases |rs|
  {
    if rs == [] then []
    else
      (if Concerns(db.desk, rs[0], c) then [rs[0]] else []) + Ours(cfg, Serve(cfg, db, rs[0]).0, rs[1..], c)
  }

  ghost predicate BookUndrawn(book: Book, draw: nat) {
    && (forall p :: p in book.policies ==> p.id.draw != draw)
    && (forall v :: v in book.coverages ==> v.policy.draw != draw)
  }

  /* ---------- plans in the books ---------- */

  lemma {:induction false} SweptOwn(
      cfg: Config, book: Book, other: string, drafts: seq<Draft>, draw: nat, n: nat, c: string)
    requires n <= |drafts| && Unshared(book) && BookUndrawn(book, draw)
    ensures var after := SweptBook(cfg, book, other, drafts, draw, n);
            && Unshared(after) && (forall m :: m >= n ==> Unused(after, PolicyId(draw, m)))
            && OwnBook(after, c)
               == if other == c then SweptBook(cfg, OwnBook(book, c), c, drafts, draw, n) else OwnBook(book, c)
  {
    hide Handle, OwnBook, Unshared;
    if n == 0 {
      UndrawnUnused(book, draw);
    } else {
      SweptOwn(cfg, book, other, drafts, draw, n - 1, c);
      var before, draft := SweptBook(cfg, book, other, drafts, draw, n - 1), drafts[n - 1];
      HandleOwn(before, other, draft.kind, draft.params, PolicyId(draw, n - 1), cfg.before, c);
      forall m | m >= n
        ensures Unused(SweptBook(cfg, book, other, drafts, draw, n), PolicyId(draw, m))
      {
        HandleKeepsBook(before, other, draft.kind, draft.params, PolicyId(draw, n - 1), cfg.before, PolicyId(draw, m));
      }
      HandleKeepsBook(before, other, draft.kind, draft.params, PolicyId(draw, n - 1), cfg.before, PolicyId(draw, n));
    }
  }

  lemma UndrawnUnused(book: Book, draw: nat)
    requires BookUndrawn(book, draw)
    ensures forall m :: Unused(book, PolicyId(draw, m))
  {
  }

  /* ---------- the gates ---------- */

  lemma OwnResolve(cfg: Config, desk: Desk, t: Uid, principal: Token.Principal, c: string)
    requires Core(desk) && t in desk.threads && desk.threads[t].customer == c
    ensures Resolve(cfg, OwnDesk(desk, c), t, principal) == Resolve(cfg, desk, t, principal)
    ensures t in OwnDesk(desk, c).threads && OwnDesk(desk, c).threads[t].session in OwnDesk(desk, c).sessions
    ensures desk.threads[t].session in desk.sessions
    ensures SessionOf(OwnDesk(desk, c), t) == SessionOf(desk, t)
  {
    hide LinkedProposals, Recorded;
    OwnTables(desk, c, t);
  }

  lemma OwnSensed(db: Db, t: Uid, source: Source, payload: Payload, c: string)
    requires Core(db.desk) && t in db.desk.threads && db.desk.threads[t].customer == c
    ensures db.desk.threads[t].session in db.desk.sessions
    ensures t in Own(db, c).desk.threads && Own(db, c).desk.threads[t].session in Own(db, c).desk.sessions
    ensures SensedBy(Own(db, c), t, source, payload) == SensedBy(db, t, source, payload)
  {
    hide LinkedProposals, Recorded, ReadContext;
    OwnTables(db.desk, c, t);
    assert FactsOf(OwnDesk(db.desk, c), c) == FactsOf(db.desk, c);
    OwnContext(db.book, c, FactsOf(db.desk, c));
  }

  /* ---------- events ---------- */

  /** The request served on all rows and on those of `c` alone: the same reply, and the same rows of `c`. */
  ghost predicate Commutes(after: (Db, Reply), own: (Db, Reply), c: string) {
    Own(after.0, c) == own.0 && after.1 == own.1
  }

  lemma OwnUndrawn(db: Db, draw: nat, c: string)
    requires Undrawn(db.desk.proposals, draw) && BookUndrawn(db.book, draw)
    ensures Undrawn(Own(db, c).desk.proposals, draw) && BookUndrawn(Own(db, c).book, draw)
  {
  }

  lemma OwnEventAccepted(cfg: Config, db: Db, t: Uid, env: Env, source: Source, payload: Payload, c: string)
    requires Inv(db.desk) && Unshared(db.book) && Undrawn(db.desk.proposals, env.draw) && BookUndrawn(db.book, env.draw)
    requires t in db.desk.threads && db.desk.threads[t].customer == c
    requires Resolve(cfg, db.desk, t, env.principal) == 0 && SessionOf(db.desk, t).state == Monitoring
    ensures Commutes(TriggerEvent(cfg, db, t, env, source, payload),
                     TriggerEvent(cfg, Own(db, c), t, env, source, payload), c)
  {
    hide LinkedThreads, LinkedProposals, Recorded, QueueShown, CopiesAgree, TriggerEvent, OwnDesk, OwnBook,
         Undrawn, BookUndrawn, Unshared, PlannedSaved, Saved, Describe, Says, NeedingIds, SweptBook, Settled;
    var own, s := Own(db, c), SensedBy(db, t, source, payload);
    EventDescribed(cfg, db, t, env, source, payload, c);
    OwnKeepsInv(db.desk, c);
    OwnUndrawn(db, env.draw, c);
    OwnResolve(cfg, db.desk, t, env.principal, c);
    OwnSensed(db, t, source, payload, c);
    EventEffect(cfg, db, t, env, source, payload);
    EventEffect(cfg, own, t, env, source, payload);
    match cfg.Agent(s.signal.value, s.context.value, env.seed)
    case None => OwnSaved(db.desk, t, s.(place := Broken), c);
    case Some(items) =>
      OwnPlanned(cfg, db.desk, t, Drafts(items), env.draw, AfterEvent(s, items, env.draw), c);
      SweptOwn(cfg, db.book, db.desk.sessions[db.desk.threads[t].session].customer, Drafts(items), env.draw, |items|,
               c);
      SessionCustomer(db.desk, t);
  }

  lemma EventDescribed(cfg: Config, db: Db, t: Uid, env: Env, source: Source, payload: Payload, c: string)
    requires Inv(db.desk) && Undrawn(db.desk.proposals, env.draw)
    requires t in db.desk.threads && db.desk.threads[t].customer == c
    requires Resolve(cfg, db.desk, t, env.principal) == 0 && SessionOf(db.desk, t).state == Monitoring
    ensures var after := TriggerEvent(cfg, db, t, env, source, payload).0.desk;
            Describe(OwnDesk(after, c), t) == Describe(after, t)
  {
    hide LinkedThreads, LinkedProposals, Recorded, QueueShown, CopiesAgree, TriggerEvent, OwnDesk, Undrawn, Describe,
         Resolve, Settled;
    var after := TriggerEvent(cfg, db, t, env, source, payload).0.desk;
    EventKeepsInv(cfg, db, t, env, source, payload);
    EventEffect(cfg, db, t, env, source, payload);
    OwnDescribed(after, t, c);
  }

  lemma DecisionDescribed(cfg: Config, db: Db, t: Uid, env: Env, d: Decision, target: Option<Uid>, c: string)
    requires Inv(db.desk) && t in db.desk.threads && db.desk.threads[t].customer == c
    requires Resolve(cfg, db.desk, t, env.principal) == 0 && t in db.desk.checkpoints
    requires var s := SessionOf(db.desk, t);
             s.state == UserApproval && (target == None || target == s.pending)
    ensures var after := SubmitDecision(cfg, db, t, env, d, target).0.desk;
            Describe(OwnDesk(after, c), t) == Describe(after, t)
  {
    hide LinkedThreads, LinkedProposals, Recorded, QueueShown, CopiesAgree, SubmitDecision, OwnDesk, Describe, Settled;
    var after := SubmitDecision(cfg, db, t, env, d, target).0.desk;
    DecisionKeepsInv(cfg, db, t, env, d, target);
    DecisionEffect(cfg, db, t, env, d, target);
    OwnDescribed(after, t, c);
  }

  lemma SessionCustomer(desk: Desk, t: Uid)
    requires Core(desk) && t in desk.threads
    ensures desk.threads[t].session in desk.sessions
    ensures desk.sessions[desk.threads[t].session].customer == desk.threads[t].customer
  {
  }

  lemma OwnEvent(cfg: Config, db: Db, t: Uid, env: Env, source: Source, payload: Payload, c: string)
    requires Inv(db.desk) && Unshared(db.book) && Undrawn(db.desk.proposals, env.draw) && BookUndrawn(db.book, env.draw)
    requires t in db.desk.threads && db.desk.threads[t].customer == c
    ensures Commutes(TriggerEvent(cfg, db, t, env, source, payload),
                     TriggerEvent(cfg, Own(db, c), t, env, source, payload), c)
  {
    hide LinkedThreads, LinkedProposals, Recorded, QueueShown, CopiesAgree, OwnDesk, OwnBook,
         Undrawn, BookUndrawn, Unshared, Resolve, Drive;
    OwnResolve(cfg, db.desk, t, env.principal, c);
    if Resolve(cfg, db.desk, t, env.principal) == 0 && SessionOf(db.desk, t).state == Monitoring {
      OwnEventAccepted(cfg, db, t, env, source, payload, c);
    }
  }

  lemma OtherEvent(cfg: Config, db: Db, t: Uid, env: Env, source: Source, payload: Payload, c: string)
    requires Inv(db.desk) && Unshared(db.book) && Undrawn(db.desk.proposals, env.draw) && BookUndrawn(db.book, env.draw)
    requires t in db.desk.threads ==> db.desk.threads[t].customer != c
    ensures Own(TriggerEvent(cfg, db, t, env, source, payload).0, c) == Own(db, c)
  {
    if Resolve(cfg, db.desk, t, env.principal) == 0 && SessionOf(db.desk, t).state == Monitoring {
      OtherEventAccepted(cfg, db, t, env, source, payload, c);
    }
  }

  lemma OtherEventAccepted(cfg: Config, db: Db, t: Uid, env: Env, source: Source, payload: Payload, c: string)
    requires Core(db.desk) && Unshared(db.book) && Undrawn(db.desk.proposals, env.draw)
        && BookUndrawn(db.book, env.draw)
    requires t in db.desk.threads && db.desk.threads[t].customer != c
    requires Resolve(cfg, db.desk, t, env.principal) == 0 && SessionOf(db.desk, t).state == Monitoring
    ensures Own(TriggerEvent(cfg, db, t, env, source, payload).0, c) == Own(db, c)
  {
    hide LinkedThreads, LinkedProposals, Recorded, TriggerEvent, OwnDesk, OwnBook,
         Undrawn, BookUndrawn, Unshared, PlannedSaved, Saved;
    var s := SensedBy(db, t, source, payload);
    EventEffect(cfg, db, t, env, source, payload);
    match cfg.Agent(s.signal.value, s.context.value, env.seed)
    case None => OwnSaved(db.desk, t, s.(place := Broken), c);
    case Some(items) =>
      OwnPlanned(cfg, db.desk, t, Drafts(items), env.draw, AfterEvent(s, items, env.draw), c);
      SweptOwn(cfg, db.book, db.desk.sessions[db.desk.threads[t].session].customer, Drafts(items), env.draw, |items|,
               c);
      SessionCustomer(db.desk, t);
  }

  /* ---------- decisions ---------- */

  lemma DecidedBook(cfg: Config, db: Db, p: Uid, d: Decision, env: Env, c: string)
    requires p in db.desk.proposals && db.desk.proposals[p].session in db.desk.sessions
    requires Unshared(db.book) && BookUndrawn(db.book, env.draw)
    ensures var mine := db.desk.sessions[db.desk.proposals[p].session].customer == c;
            && (mine ==>
                  p in Own(db, c).desk.proposals
                  && Own(db, c).desk.proposals[p].session in Own(db, c).desk.sessions)
            && OwnBook(DecidedDb(cfg, db, p, d, env).book, c)
               == if mine then DecidedDb(cfg, Own(db, c), p, d, env).book else OwnBook(db.book, c)
  {
    hide OwnBook, Unshared, Handle, DecidedDesk;
    var row := db.desk.proposals[p];
    UndrawnUnused(db.book, env.draw);
    HandleOwn(db.book, db.desk.sessions[row.session].customer, row.kind, row.params, PolicyId(env.draw, 0),
              cfg.before, c);
  }

  lemma OwnCheckpoint(desk: Desk, t: Uid, c: string)
    requires Core(desk) && t in desk.checkpoints && t in desk.threads && desk.threads[t].customer == c
    ensures t in OwnDesk(desk, c).checkpoints && OwnDesk(desk, c).checkpoints[t] == desk.checkpoints[t]
  {
    hide LinkedProposals, Recorded;
    OwnTables(desk, c, t);
  }

  lemma OwnCheckpointKept(desk: Desk, t: Uid, c: string)
    requires Core(desk) && t in desk.threads && desk.threads[t].customer == c
    ensures t in OwnDesk(desk, c).checkpoints <==> t in desk.checkpoints
    ensures t in desk.checkpoints ==> OwnDesk(desk, c).checkpoints[t] == desk.checkpoints[t]
  {
    hide LinkedProposals, Recorded;
    OwnTables(desk, c, t);
  }

  lemma OwnProposalRow(desk: Desk, p: Uid, c: string)
    requires p in desk.proposals && OwnsSession(desk.sessions, c, desk.proposals[p].session)
    ensures p in OwnDesk(desk, c).proposals && OwnDesk(desk, c).proposals[p] == desk.proposals[p]
  {
  }

  lemma OwnDecisionAccepted(cfg: Config, db: Db, t: Uid, env: Env, d: Decision, target: Option<Uid>, c: string)
    requires Inv(db.desk) && Unshared(db.book) && BookUndrawn(db.book, env.draw)
    requires t in db.desk.threads && db.desk.threads[t].customer == c
    requires Resolve(cfg, db.desk, t, env.principal) == 0
    requires t in db.desk.checkpoints
    requires var s := SessionOf(db.desk, t);
             s.state == UserApproval && (target == None || target == s.pending)
    ensures Commutes(SubmitDecision(cfg, db, t, env, d, target),
                     SubmitDecision(cfg, Own(db, c), t, env, d, target), c)
  {
    hide LinkedThreads, LinkedProposals, Recorded, QueueShown, CopiesAgree, SubmitDecision, OwnDesk, OwnBook,
         BookUndrawn, Unshared, DecidedSaved, DecidedDb, Queue, Describe, Says, Settled;
    var own, s := Own(db, c), db.desk.threads[t].session;
    OwnCheckpoint(db.desk, t, c);
    DecisionDescribed(cfg, db, t, env, d, target, c);
    OwnKeepsInv(db.desk, c);
    OwnResolve(cfg, db.desk, t, env.principal, c);
    DecisionEffect(cfg, db, t, env, d, target);
    DecisionEffect(cfg, own, t, env, d, target);
    SessionCustomer(db.desk, t);
    OwnTablesOf(db.desk, c, t);
    OwnQueue(db.desk, c, s);
    var q := Queue(db.desk, s);
    OwnProposalRow(db.desk, q[0], c);
    var g := AfterDecision(cfg, db.desk.checkpoints[t], d, q[0], db.desk.proposals[q[0]].kind, Head(q[1..]));
    OwnDecided(cfg, db.desk, t, q[0], d, env.principal.subject, g, c);
    DecidedBook(cfg, db, q[0], d, env, c);
  }

  lemma OwnTablesOf(desk: Desk, c: string, t: Uid)
    requires Core(desk) && t in desk.threads && desk.threads[t].customer == c
    ensures t in OwnDesk(desk, c).threads && OwnDesk(desk, c).threads[t] == desk.threads[t]
    ensures OwnsSession(desk.sessions, c, desk.threads[t].session)
  {
    hide LinkedProposals, Recorded;
    OwnTables(desk, c, t);
  }

  lemma OwnDecision(cfg: Config, db: Db, t: Uid, env: Env, d: Decision, target: Option<Uid>, c: string)
    requires Inv(db.desk) && Unshared(db.book) && BookUndrawn(db.book, env.draw)
    requires t in db.desk.threads && db.desk.threads[t].customer == c
    ensures Commutes(SubmitDecision(cfg, db, t, env, d, target),
                     SubmitDecision(cfg, Own(db, c), t, env, d, target), c)
  {
    hide LinkedThreads, LinkedProposals, Recorded, OwnDesk, OwnBook, BookUndrawn, Unshared, Resolve, Drive;
    OwnCheckpointKept(db.desk, t, c);
    OwnResolve(cfg, db.desk, t, env.principal, c);
    if Resolve(cfg, db.desk, t, env.principal) == 0 {
      var s := SessionOf(db.desk, t);
      if s.state == UserApproval && (target == None || target == s.pending) && t in db.desk.checkpoints {
        OwnDecisionAccepted(cfg, db, t, env, d, target, c);
      }
    }
  }

  lemma OtherDecisionAccepted(cfg: Config, db: Db, t: Uid, env: Env, d: Decision, target: Option<Uid>, c: string)
    requires Inv(db.desk) && Unshared(db.book) && BookUndrawn(db.book, env.draw)
    requires t in db.desk.threads && db.desk.threads[t].customer != c
    requires Resolve(cfg, db.desk, t, env.principal) == 0
    requires t in db.desk.checkpoints
    requires var s := SessionOf(db.desk, t);
             s.state == UserApproval && (target == None || target == s.pending)
    ensures Own(SubmitDecision(cfg, db, t, env, d, target).0, c) == Own(db, c)
  {
    hide LinkedThreads, LinkedProposals, Recorded, QueueShown, CopiesAgree, SubmitDecision, OwnDesk, OwnBook,
         BookUndrawn, Unshared, DecidedSaved, DecidedDb, Queue;
    DecisionEffect(cfg, db, t, env, d, target);
    SessionCustomer(db.desk, t);
    var q := Queue(db.desk, db.desk.threads[t].session);
    var g := AfterDecision(cfg, db.desk.checkpoints[t], d, q[0], db.desk.proposals[q[0]].kind, Head(q[1..]));
    OwnDecided(cfg, db.desk, t, q[0], d, env.principal.subject, g, c);
    DecidedBook(cfg, db, q[0], d, env, c);
  }

  lemma OtherDecision(cfg: Config, db: Db, t: Uid, env: Env, d: Decision, target: Option<Uid>, c: string)
    requires Inv(db.desk) && Unshared(db.book) && BookUndrawn(db.book, env.draw)
    requires t in db.desk.threads ==> db.desk.threads[t].customer != c
    ensures Own(SubmitDecision(cfg, db, t, env, d, target).0, c) == Own(db, c)
  {
    hide LinkedThreads, LinkedProposals, Recorded, OwnDesk, OwnBook, BookUndrawn, Unshared, Drive;
    if Resolve(cfg, db.desk, t, env.principal) == 0 {
      var s := SessionOf(db.desk, t);
      if s.state == UserApproval && (target == None || target == s.pending) && t in db.desk.checkpoints {
        OtherDecisionAccepted(cfg, db, t, env, d, target, c);
      }
    }
  }

  /* ---------- threads ---------- */

  lemma StaleThenOpen(cfg: Config, desk: Desk, t: Uid, customer: string, draw: nat, c: string)
    requires Core(desk) && t in desk.threads && desk.threads[t].customer == customer
    requires Uid(draw, ForSession, 0) !in desk.sessions && Uid(draw, ForThread, 0) !in desk.threads
    ensures customer == c ==> t in OwnDesk(desk, c).threads
    ensures OwnDesk(Open(cfg, Stale(desk, t), customer, draw), c)
            == if customer == c then Open(cfg, Stale(OwnDesk(desk, c), t), customer, draw) else OwnDesk(desk, c)
  {
    hide OwnDesk, LinkedThreads, LinkedProposals, Recorded, Open;
    StaleKeepsCore(desk, t);
    OwnStale(desk, t, c);
    OwnOpened(cfg, Stale(desk, t), customer, draw, c);
  }

  lemma FreshIds(db: Db, draw: nat)
    requires Fresh(db, draw)
    ensures Uid(draw, ForSession, 0) !in db.desk.sessions && Uid(draw, ForThread, 0) !in db.desk.threads
  {
  }

  lemma NewDescribed(cfg: Config, desk: Desk, c: string, draw: nat)
    requires Core(desk) && Uid(draw, ForSession, 0) !in desk.sessions && Uid(draw, ForThread, 0) !in desk.threads
    ensures var after, t := Open(cfg, desk, c, draw), Uid(draw, ForThread, 0);
            Describe(OwnDesk(after, c), t) == Describe(after, t)
  {
    hide LinkedThreads, LinkedProposals, Recorded, OwnDesk, Describe;
    OpenKeepsCore(cfg, desk, c, draw);
    OwnDescribed(Open(cfg, desk, c, draw), Uid(draw, ForThread, 0), c);
  }

  lemma StaleDescribed(cfg: Config, desk: Desk, t: Uid, c: string, draw: nat)
    requires Core(desk) && t in desk.threads
    requires Uid(draw, ForSession, 0) !in desk.sessions && Uid(draw, ForThread, 0) !in desk.threads
    ensures var after, u := Open(cfg, Stale(desk, t), c, draw), Uid(draw, ForThread, 0);
            Describe(OwnDesk(after, c), u) == Describe(after, u)
  {
    hide Core, OwnDesk, Describe, Open;
    StaleKeepsCore(desk, t);
    NewDescribed(cfg, Stale(desk, t), c, draw);
  }

  lemma OwnCreate(cfg: Config, db: Db, c: string, principal: Token.Principal, forceNew: bool, draw: nat)
    requires Core(db.desk) && Fresh(db, draw)
    ensures Commutes(CreateOrReuse(cfg, db, c, principal, forceNew, draw),
                     CreateOrReuse(cfg, Own(db, c), c, principal, forceNew, draw), c)
  {
    hide OwnBook, LinkedProposals, Recorded, Open, PickReusable, LinkedThreads, Stale, OwnSessions, OwnProposals,
         OwnThreads, OwnCheckpoints, Fresh, Undrawn, Keep, Describe;
    FreshIds(db, draw);
    OwnPick(db.desk, c);
    PickedActive(db.desk, c);
    match (if forceNew then None else PickReusable(db.desk, c))
    case None =>
      OwnOpened(cfg, db.desk, c, draw, c);
      NewDescribed(cfg, db.desk, c, draw);
    case Some(t) =>
      StaleThenOpen(cfg, db.desk, t, c, draw, c);
      StaleDescribed(cfg, db.desk, t, c, draw);
      OwnTables(db.desk, c, t);
      OwnDescribed(db.desk, t, c);
  }

  lemma OtherCreate(cfg: Config, db: Db, customer: string, principal: Token.Principal, forceNew: bool, draw: nat,
                    c: string)
    requires Core(db.desk) && Fresh(db, draw) && customer != c
    ensures Own(CreateOrReuse(cfg, db, customer, principal, forceNew, draw).0, c) == Own(db, c)
  {
    hide OwnDesk, OwnBook, LinkedThreads, LinkedProposals, Recorded, Open, PickReusable;
    PickedActive(db.desk, customer);
    match (if forceNew then None else PickReusable(db.desk, customer))
    case None => OwnOpened(cfg, db.desk, customer, draw, c);
    case Some(t) => StaleThenOpen(cfg, db.desk, t, customer, draw, c);
  }

  /* ---------- every request ---------- */

  ghost predicate Good(db: Db) { Inv(db.desk) && Unshared(db.book) }

  lemma FreshBook(db: Db, draw: nat)
    requires Fresh(db, draw)
    ensures Undrawn(db.desk.proposals, draw) && BookUndrawn(db.book, draw)
  {
  }

  lemma MessageReply(cfg: Config, db: Db, t: Uid, env: Env, text: string)
    ensures PostMessage(cfg, db, t, env, text)
            == if Resolve(cfg, db.desk, t, env.principal) == 0 && SessionOf(db.desk, t).state == UserApproval
               then (db, Describe(db.desk, t))
               else TriggerEvent(cfg, db, t, env, FromUser, Payload("", text))
  {
    hide Drive;
  }

  lemma {:induction false} ListedAlike(ids: seq<Uid>, a: map<Uid, Proposal>, b: map<Uid, Proposal>)
    requires forall p :: p in ids ==> p in a && p in b && a[p] == b[p]
    ensures Listed(ids, a) == Listed(ids, b)
  {
    if ids != [] {
      ListedAlike(ids[1..], a, b);
    }
  }

  lemma OwnSessionRows(desk: Desk, s: Uid, c: string)
    requires OwnsSession(desk.sessions, c, s)
    ensures var own := OwnDesk(desk, c);
            && Listed(Keep(own.created, InSession(own.proposals, s)), own.proposals)
               == Listed(Keep(desk.created, InSession(desk.proposals, s)), desk.proposals)
            && Keep(own.journal, RanIn(own.proposals, s)) == Keep(desk.journal, RanIn(desk.proposals, s))
  {
    var own := OwnDesk(desk, c);
    var mine, ran := InSession(desk.proposals, s), RanIn(desk.proposals, s);
    KeepNarrower(desk.created, ProposalHeldBy(desk.proposals, desk.sessions, c), mine);
    KeepCongruent(own.created, InSession(own.proposals, s), mine);
    ListedAlike(Keep(desk.created, mine), own.proposals, desk.proposals);
    KeepNarrower(desk.journal, EntryHeldBy(desk.proposals, desk.sessions, c), ran);
    KeepCongruent(own.journal, RanIn(own.proposals, s), ran);
  }

  /** A customer is shown the same page, whether the tables hold other customers or not. */
  lemma OwnDescribed(desk: Desk, t: Uid, c: string)
    requires Core(desk) && t in desk.threads && desk.threads[t].customer == c
    ensures Describe(OwnDesk(desk, c), t) == Describe(desk, t)
  {
    hide LinkedProposals, Recorded, OwnDesk, Keep, Listed;
    OwnTables(desk, c, t);
    OwnSessionRows(desk, desk.threads[t].session, c);
  }

  lemma OwnMessage(cfg: Config, db: Db, t: Uid, env: Env, text: string, c: string)
    requires Good(db) && Undrawn(db.desk.proposals, env.draw) && BookUndrawn(db.book, env.draw)
    requires t in db.desk.threads && db.desk.threads[t].customer == c
    ensures Commutes(PostMessage(cfg, db, t, env, text), PostMessage(cfg, Own(db, c), t, env, text), c)
  {
    hide LinkedThreads, LinkedProposals, Recorded, QueueShown, CopiesAgree, PostMessage, TriggerEvent, OwnDesk,
         OwnBook, Describe, Resolve, Unshared, Undrawn, BookUndrawn;
    OwnResolve(cfg, db.desk, t, env.principal, c);
    OwnDescribed(db.desk, t, c);
    MessageReply(cfg, db, t, env, text);
    MessageReply(cfg, Own(db, c), t, env, text);
    OwnEvent(cfg, db, t, env, FromUser, Payload("", text), c);
  }

  lemma OwnRead(cfg: Config, db: Db, t: Uid, env: Env, c: string)
    requires Good(db) && t in db.desk.threads && db.desk.threads[t].customer == c
    ensures Commutes(ReadThread(cfg, db, t, env), ReadThread(cfg, Own(db, c), t, env), c)
  {
    hide LinkedThreads, LinkedProposals, Recorded, OwnDesk, OwnBook, Describe, Resolve, Unshared;
    OwnResolve(cfg, db.desk, t, env.principal, c);
    OwnDescribed(db.desk, t, c);
  }

  lemma OwnRestarted(desk: Desk, c: string)
    ensures OwnDesk(Restarted(desk), c) == Restarted(OwnDesk(desk, c))
  {
  }

  /** A request about `c` is served on the rows of `c` as it is on all rows: same reply, same effect. */
  lemma OwnStep(cfg: Config, db: Db, r: Request, c: string)
    requires Good(db) && Fresh(db, r.env.draw) && Concerns(db.desk, r, c)
    ensures Commutes(Serve(cfg, db, r), Serve(cfg, Own(db, c), r), c)
  {
    hide Inv, Unshared, Fresh, TriggerEvent, PostMessage, SubmitDecision, CreateOrReuse, OwnDesk, OwnBook,
         Undrawn, BookUndrawn;
    FreshBook(db, r.env.draw);
    match r
    case Create(env, _, forceNew) =>
      InvCore(db.desk);
      OwnCreate(cfg, db, c, env.principal, forceNew, env.draw);
    case Event(env, t, source, payload) => OwnEvent(cfg, db, t, env, source, payload, c);
    case Message(env, t, text) => OwnMessage(cfg, db, t, env, text, c);
    case Decide(env, t, d, target) => OwnDecision(cfg, db, t, env, d, target, c);
    case Read(env, t) => OwnRead(cfg, db, t, env, c);
    case Restart(_) => OwnRestarted(db.desk, c);
  }

  /** A request about anybody else leaves every row of `c` as it was. */
  lemma OtherStep(cfg: Config, db: Db, r: Request, c: string)
    requires Good(db) && Fresh(db, r.env.draw) && !Concerns(db.desk, r, c)
    ensures Own(Serve(cfg, db, r).0, c) == Own(db, c)
  {
    hide Inv, Unshared, Fresh, TriggerEvent, PostMessage, SubmitDecision, CreateOrReuse, OwnDesk, OwnBook,
         Undrawn, BookUndrawn;
    FreshBook(db, r.env.draw);
    match r
    case Create(env, customer, forceNew) =>
      InvCore(db.desk);
      OtherCreate(cfg, db, customer, env.principal, forceNew, env.draw, c);
    case Event(env, t, source, payload) => OtherEvent(cfg, db, t, env, source, payload, c);
    case Message(env, t, text) =>
      MessageReply(cfg, db, t, env, text);
      OtherEvent(cfg, db, t, env, FromUser, Payload("", text), c);
    case Decide(env, t, d, target) => OtherDecision(cfg, db, t, env, d, target, c);
    case Read(_, _) =>
  }

  /* ---------- the books stay unshared ---------- */

  lemma EventKeepsBook(cfg: Config, db: Db, t: Uid, env: Env, source: Source, payload: Payload)
    requires Good(db) && Undrawn(db.desk.proposals, env.draw) && BookUndrawn(db.book, env.draw)
    ensures Unshared(TriggerEvent(cfg, db, t, env, source, payload).0.book)
  {
    hide Inv, Unshared, Undrawn, BookUndrawn, Drive;
    InvCore(db.desk);
    if Resolve(cfg, db.desk, t, env.principal) == 0 && SessionOf(db.desk, t).state == Monitoring {
      EventBookKept(cfg, db, t, env, source, payload);
    }
  }

  lemma EventBookKept(cfg: Config, db: Db, t: Uid, env: Env, source: Source, payload: Payload)
    requires Core(db.desk) && Unshared(db.book)
    requires Undrawn(db.desk.proposals, env.draw) && BookUndrawn(db.book, env.draw)
    requires Resolve(cfg, db.desk, t, env.principal) == 0 && SessionOf(db.desk, t).state == Monitoring
    ensures Unshared(TriggerEvent(cfg, db, t, env, source, payload).0.book)
  {
    hide Core, Unshared, Undrawn, BookUndrawn, TriggerEvent;
    var s := SensedBy(db, t, source, payload);
    EventEffect(cfg, db, t, env, source, payload);
    match cfg.Agent(s.signal.value, s.context.value, env.seed)
    case None =>
    case Some(items) =>
      var customer := db.desk.sessions[db.desk.threads[t].session].customer;
      SweptOwn(cfg, db.book, customer, Drafts(items), env.draw, |items|, customer);
  }

  lemma DecisionBookKept(cfg: Config, db: Db, t: Uid, env: Env, d: Decision, target: Option<Uid>)
    requires Good(db) && BookUndrawn(db.book, env.draw) && Resolve(cfg, db.desk, t, env.principal) == 0
    requires t in db.desk.checkpoints
    requires var s := SessionOf(db.desk, t);
             s.state == UserApproval && (target == None || target == s.pending)
    ensures Unshared(SubmitDecision(cfg, db, t, env, d, target).0.book)
  {
    hide Inv, Unshared, BookUndrawn, SubmitDecision, Handle;
    DecisionEffect(cfg, db, t, env, d, target);
    UndrawnUnused(db.book, env.draw);
    var row := db.desk.proposals[Queue(db.desk, db.desk.threads[t].session)[0]];
    var id := PolicyId(env.draw, 0);
    HandleKeepsBook(db.book, db.desk.sessions[row.session].customer, row.kind, row.params, id, cfg.before, id);
  }

  lemma DecisionKeepsBook(cfg: Config, db: Db, t: Uid, env: Env, d: Decision, target: Option<Uid>)
    requires Good(db) && BookUndrawn(db.book, env.draw)
    ensures Unshared(SubmitDecision(cfg, db, t, env, d, target).0.book)
  {
    hide Inv, Unshared, BookUndrawn, Drive;
    if Resolve(cfg, db.desk, t, env.principal) == 0 {
      var s := SessionOf(db.desk, t);
      if s.state == UserApproval && (target == None || target == s.pending) && t in db.desk.checkpoints {
        AcceptedPending(db.desk, t);
        DecisionBookKept(cfg, db, t, env, d, target);
      }
    }
  }

  lemma AcceptedPending(desk: Desk, t: Uid)
    requires Inv(desk) && t in desk.threads && desk.threads[t].session in desk.sessions
    requires SessionOf(desk, t).state == UserApproval
    ensures SessionOf(desk, t).pending.Some?
  {
    OpenApproval(desk, t);
  }

  lemma StepKeepsGood(cfg: Config, db: Db, r: Request)
    requires Good(db) && Fresh(db, r.env.draw)
    ensures Good(Serve(cfg, db, r).0)
  {
    StepKeepsInv(cfg, db, r);
    StepKeepsBook(cfg, db, r);
  }

  lemma StepKeepsBook(cfg: Config, db: Db, r: Request)
    requires Good(db) && Fresh(db, r.env.draw)
    ensures Unshared(Serve(cfg, db, r).0.book)
  {
    hide Inv, Unshared, Fresh, TriggerEvent, PostMessage, SubmitDecision, Undrawn, BookUndrawn;
    FreshBook(db, r.env.draw);
    match r
    case Create(env, customer, forceNew) =>
    case Event(env, t, source, payload) => EventKeepsBook(cfg, db, t, env, source, payload);
    case Message(env, t, text) =>
      MessageReply(cfg, db, t, env, text);
      EventKeepsBook(cfg, db, t, env, FromUser, Payload("", text));
    case Decide(env, t, d, target) => DecisionKeepsBook(cfg, db, t, env, d, target);
    case Read(_, _) =>
    case Restart(_) =>
  }

  /* ---------- whole runs ---------- */

  /** The replies to the requests that concern `c`. */
  function Replies(cfg: Config, db: Db, rs: seq<Request>, c: string): seq<Reply>
    decreases |rs|
  {
    if rs == [] then []
    else
      (if Concerns(db.desk, rs[0], c) then [Serve(cfg, db, rs[0]).1] else [])
      + Replies(cfg, Serve(cfg, db, rs[0]).0, rs[1..], c)
  }

  lemma OwnConcerns(desk: Desk, r: Request, c: string)
    requires Concerns(desk, r, c)
    ensures Concerns(OwnDesk(desk, c), r, c)
  {
  }

  /**
   * Customers do not interfere. Take any interleaving of requests for any customers: what the
   * database holds about `c` at the end, and every reply `c` was given, are those of the run of
   * the requests that concern `c` alone, on the rows of `c` alone.
   */
  lemma {:induction false} Independence(cfg: Config, db: Db, rs: seq<Request>, c: string)
    requires Good(db) && Admissible(cfg, db, rs)
    ensures Own(Run(cfg, db, rs), c) == Run(cfg, Own(db, c), Ours(cfg, db, rs, c))
    ensures Replies(cfg, db, rs, c) == Replies(cfg, Own(db, c), Ours(cfg, db, rs, c), c)
    decreases |rs|
  {
    hide Good, Fresh, Serve, Own, Concerns;
    if rs != [] {
      var r, next := rs[0], Serve(cfg, db, rs[0]).0;
      var ours := Ours(cfg, next, rs[1..], c);
      StepKeepsGood(cfg, db, r);
      Independence(cfg, next, rs[1..], c);
      if Concerns(db.desk, r, c) {
        OwnStep(cfg, db, r, c);
        OwnConcernsDb(db, r, c);
        assert ([r] + ours)[0] == r && ([r] + ours)[1..] == ours;
      } else {
        OtherStep(cfg, db, r, c);
        assert [] + ours == ours;
      }
    }
  }

  lemma OwnConcernsDb(db: Db, r: Request, c: string)
    requires Concerns(db.desk, r, c)
    ensures Concerns(Own(db, c).desk, r, c)
  {
    OwnConcerns(db.desk, r, c);
  }

  /** Who has no access to a customer changes nothing of theirs, whatever is asked. */
  lemma OutsiderChangesNothing(cfg: Config, db: Db, r: Request, c: string)
    requires Good(db) && Fresh(db, r.env.draw) && !CanAccess(r.env.principal, c) && !r.Restart?
    ensures Own(Serve(cfg, db, r).0, c) == Own(db, c)
  {
    if Concerns(db.desk, r, c) {
      OutsiderRefused(cfg, db, r, c);
    } else {
      OtherStep(cfg, db, r, c);
    }
  }

  lemma OutsiderRefused(cfg: Config, db: Db, r: Request, c: string)
    requires Concerns(db.desk, r, c) && !CanAccess(r.env.principal, c) && !r.Restart?
    ensures Serve(cfg, db, r).0 == db
  {
    hide Drive;
  }
}
