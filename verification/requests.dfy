/** What each request does to the tables, in closed form, and that it keeps the invariant. */
module Requests {
  import opened Options
  import opened Policy
  import opened Book
  import opened Proposals
  import opened Planner
  import opened Store
  import opened Workflow
  import opened Service
  import opened Invariants
  import opened Planning
  import opened Stepping

  /** The graph state in which an accepted event leaves its thread. */
  function AfterEvent(s: Graph, items: seq<Item>, draw: nat): Graph {
    var next := Head(NeedingIds(Drafts(items), draw));
    s.(plan := items, proposalIds := NewIds(draw, |items|), pending := next,
       place := if next.Some? then Waiting else Ended)
  }

  /** The graph state in which a decision on `p` leaves its thread. */
  function AfterDecision(cfg: Config, g: Graph, d: Decision, p: Uid, kind: Kind, next: Option<Uid>): Graph {
    g.(pending := next, answer := None, results := g.results + RunsOf(cfg, p, kind, d),
       place := if next.Some? then Waiting else Ended)
  }

  lemma NeedingStored(cfg: Config, desk: Desk, session: Uid, drafts: seq<Draft>, draw: nat)
    requires session in desk.sessions
    ensures var next := Head(NeedingIds(drafts, draw));
            Shown(PlannedDesk(cfg, desk, session, drafts, draw), session, next)
  {
    NeedingAreNew(drafts, draw);
  }

  lemma {:induction false} NeedingAreNew(drafts: seq<Draft>, draw: nat)
    ensures forall p :: p in NeedingIds(drafts, draw) ==> p in RowIds(draw, |drafts|)
  {
    if drafts != [] {
      NeedingAreNew(drafts[..|drafts| - 1], draw);
    }
  }

  /* ---------- events ---------- */

  lemma PolicyStops(cfg: Config, env: Env, db: Db, g: Graph, e: Effect)
    requires e == CheckDrafts(cfg, env, db, g, Drafts(g.plan)) && e.Next?
    requires Shown(e.db.desk, e.g.scope.session, e.g.pending)
    ensures Drive(cfg, env, db, g, PolicyCheck, None) == StopAt(e.db, e.g)
  {
    hide CheckDrafts, Drafts, Shown, StopAt;
    TailStops(cfg, env, e.db, e.g, PolicyCheck);
  }

  /** The finance tables after an event on `t` whose plan is `items`. */
  function EventBook(cfg: Config, db: Db, t: Uid, items: seq<Item>, draw: nat): Book
    requires t in db.desk.threads && db.desk.threads[t].session in db.desk.sessions
  {
    SweptBook(cfg, db.book, db.desk.sessions[db.desk.threads[t].session].customer, Drafts(items), draw, |items|)
  }

  lemma PlanEffect(cfg: Config, db: Db, t: Uid, env: Env, s: Graph, items: seq<Item>)
    requires Core(db.desk) && t in db.desk.threads && s.scope == ScopeOf(db.desk, t)
    requires Undrawn(db.desk.proposals, env.draw)
    ensures var stop := Drive(cfg, env, db, s.(plan := items), PolicyCheck, None);
            var planned := PlannedDesk(cfg, db.desk, db.desk.threads[t].session, Drafts(items), env.draw);
            && !stop.Failure? && stop.g == AfterEvent(s, items, env.draw)
            && stop.db == Db(planned, EventBook(cfg, db, t, items, env.draw))
            && Core(planned)
  {
    var g := s.(plan := items);
    PolicyNode(cfg, env, db, g, Drafts(items));
    NeedingStored(cfg, db.desk, s.scope.session, Drafts(items), env.draw);
    PolicyStops(cfg, env, db, g, CheckDrafts(cfg, env, db, g, Drafts(items)));
  }

  lemma EventGate(cfg: Config, db: Db, t: Uid, env: Env, source: Source, payload: Payload)
    requires Resolve(cfg, db.desk, t, env.principal) == 0
    requires SessionOf(db.desk, t).state == Monitoring
    ensures var s := Sensed(db, Begin(db.desk, t, source, payload));
            TriggerEvent(cfg, db, t, env, source, payload)
            == match cfg.Agent(s.signal.value, s.context.value, env.seed)
               case None => Save(Failure(db, s.(place := Broken), 500), t)
               case Some(items) => Save(Drive(cfg, env, db, s.(plan := items), PolicyCheck, None), t)
  {
    TriggerReachesPolicy(cfg, env, db, Begin(db.desk, t, source, payload));
  }

  lemma PlannedDescribed(cfg: Config, desk: Desk, t: Uid, drafts: seq<Draft>, draw: nat, g: Graph)
    requires t in desk.threads && desk.threads[t].session in desk.sessions
    ensures var next := Head(NeedingIds(drafts, draw));
            Says(Describe(PlannedSaved(cfg, desk, t, drafts, draw, g), t), t, StateFor(next), next)
  {
  }

  /** The graph state when the signal of an event on `t` has been detected. */
  function SensedBy(db: Db, t: Uid, source: Source, payload: Payload): Graph
    requires t in db.desk.threads && db.desk.threads[t].session in db.desk.sessions
  {
    Sensed(db, Begin(db.desk, t, source, payload))
  }

  /**
   * An event that passes the gates: the agent's plan is stored, its automatic part is executed,
   * and its first approval-needing proposal is parked; a failed agent job changes no row.
   */
  lemma EventEffect(cfg: Config, db: Db, t: Uid, env: Env, source: Source, payload: Payload)
    requires Core(db.desk) && Resolve(cfg, db.desk, t, env.principal) == 0
    requires SessionOf(db.desk, t).state == Monitoring && Undrawn(db.desk.proposals, env.draw)
    ensures var (db', reply) := TriggerEvent(cfg, db, t, env, source, payload);
            var s := SensedBy(db, t, source, payload);
            match cfg.Agent(s.signal.value, s.context.value, env.seed)
            case None =>
              db' == db.(desk := Saved(db.desk, t, s.(place := Broken))) && reply == Http(500)
            case Some(items) =>
              var next := Head(NeedingIds(Drafts(items), env.draw));
              && db'.desk == PlannedSaved(cfg, db.desk, t, Drafts(items), env.draw, AfterEvent(s, items, env.draw))
              && db'.book == EventBook(cfg, db, t, items, env.draw)
              && reply == Describe(db'.desk, t) && Says(reply, t, StateFor(next), next)
              && Core(PlannedDesk(cfg, db.desk, db.desk.threads[t].session, Drafts(items), env.draw))
  {
    var s := SensedBy(db, t, source, payload);
    EventGate(cfg, db, t, env, source, payload);
    match cfg.Agent(s.signal.value, s.context.value, env.seed)
    case None =>
    case Some(items) =>
      PlanEffect(cfg, db, t, env, s, items);
      PlannedDescribed(cfg, db.desk, t, Drafts(items), env.draw, AfterEvent(s, items, env.draw));
  }

  /* ---------- decisions ---------- */

  lemma DecisionStops(cfg: Config, env: Env, db: Db, g: Graph, a: Answer, e: Effect)
    requires g.scope.session in db.desk.sessions && g.pending.Some? && g.pending.value in db.desk.proposals
    requires e == TakeDecision(cfg, env, db, g.(answer := Some(a))) && e.Next?
    requires Shown(e.db.desk, e.g.scope.session, e.g.pending)
    ensures Drive(cfg, env, db, g, ApprovalInterrupt, Some(a)) == StopAt(e.db, e.g)
  {
    var answered := g.(answer := Some(a));
    assert AskApproval(db, g, Some(a)) == Next(db, answered);
    TailStops(cfg, env, e.db, e.g, ExecuteAction);
    assert Drive(cfg, env, db, answered, ExecuteAction, None)
           == Drive(cfg, env, e.db, e.g, Edge(ExecuteAction, e.g), None);
  }

  lemma DecisionParks(cfg: Config, desk: Desk, session: Uid, p: Uid, d: Decision, subject: string)
    requires Core(desk) && Heads(desk, session, p)
    ensures var decided := DecidedDesk(cfg, desk, p, d, subject);
            var next := Head(Queue(desk, session)[1..]);
            && session in decided.sessions && Head(Queue(decided, session)) == next
            && Shown(Parked(decided, session, next), session, next)
  {
    var decided := DecidedDesk(cfg, desk, p, d, subject);
    DecisionQueues(cfg, desk, session, p, d, subject, session);
    if Queue(decided, session) != [] {
      HeadWaits(decided, session);
    }
  }

  lemma DecisionDrives(cfg: Config, db: Db, env: Env, d: Decision, p: Uid, g: Graph)
    requires Core(db.desk) && Heads(db.desk, g.scope.session, p) && g.pending == Some(p)
    ensures var stop := Drive(cfg, env, db, g, ApprovalInterrupt, Some(Answer(d, Some(p))));
            var sid := g.scope.session;
            var decided := DecidedDesk(cfg, db.desk, p, d, env.principal.subject);
            var next := Head(Queue(decided, sid));
            && !stop.Failure?
            && sid in decided.sessions
            && stop.db == Db(Parked(decided, sid, next), DecidedDb(cfg, db, p, d, env).book)
            && stop.g == AfterDecision(cfg, g, d, p, db.desk.proposals[p].kind, next)
  {
    var answered := g.(answer := Some(Answer(d, Some(p))));
    DecisionNode(cfg, env, db, answered, p);
    DecisionParks(cfg, db.desk, g.scope.session, p, d, env.principal.subject);
    DecisionStops(cfg, env, db, g, Answer(d, Some(p)), TakeDecision(cfg, env, db, answered));
  }

  lemma DecisionGate(cfg: Config, db: Db, t: Uid, env: Env, d: Decision, target: Option<Uid>)
    requires Resolve(cfg, db.desk, t, env.principal) == 0
    requires var s := SessionOf(db.desk, t);
             s.state == UserApproval && s.pending.Some? && (target == None || target == s.pending)
    requires t in db.desk.checkpoints && db.desk.checkpoints[t].place == Waiting
    ensures SubmitDecision(cfg, db, t, env, d, target)
            == Save(Drive(cfg, env, db, db.desk.checkpoints[t], ApprovalInterrupt,
                          Some(Answer(d, SessionOf(db.desk, t).pending))), t)
  {
  }

  lemma DecidedDescribed(cfg: Config, desk: Desk, t: Uid, p: Uid, d: Decision, subject: string, g: Graph)
    requires t in desk.threads && desk.threads[t].session in desk.sessions && p in desk.proposals
    ensures var next := Head(Queue(DecidedDesk(cfg, desk, p, d, subject), desk.threads[t].session));
            Says(Describe(DecidedSaved(cfg, desk, t, p, d, subject, g), t), t, StateFor(next), next)
  {
  }

  /** What the gates and the invariant say about a thread with an open approval. */
  lemma OpenApproval(desk: Desk, t: Uid)
    requires Inv(desk) && t in desk.threads && desk.sessions[desk.threads[t].session].state == UserApproval
    ensures var sid := desk.threads[t].session;
            && Queue(desk, sid) != [] && Heads(desk, sid, Queue(desk, sid)[0])
            && desk.sessions[sid].pending == Some(Queue(desk, sid)[0])
            && (t in desk.checkpoints ==>
                  && desk.checkpoints[t].place == Waiting
                  && desk.checkpoints[t].pending == Some(Queue(desk, sid)[0])
                  && desk.checkpoints[t].scope == ScopeOf(desk, t))
  {
    assert QueueShown(desk, desk.threads[t].session) && CopiesAgree(desk, t);
    HeadWaits(desk, desk.threads[t].session);
  }

  /**
   * A decision that passes the gates is taken on exactly the pending proposal, and the session's
   * next waiting proposal is parked. The graph never refuses it.
   */
  lemma DecisionEffect(cfg: Config, db: Db, t: Uid, env: Env, d: Decision, target: Option<Uid>)
    requires Inv(db.desk) && Resolve(cfg, db.desk, t, env.principal) == 0 && t in db.desk.checkpoints
    requires var s := SessionOf(db.desk, t);
             s.state == UserApproval && (target == None || target == s.pending)
    ensures var (db', reply) := SubmitDecision(cfg, db, t, env, d, target);
            var sid := db.desk.threads[t].session;
            var queue := Queue(db.desk, sid);
            && queue != [] && Heads(db.desk, sid, queue[0])
            && var next := Head(queue[1..]);
               var g := AfterDecision(cfg, db.desk.checkpoints[t], d, queue[0], db.desk.proposals[queue[0]].kind, next);
               && db' == Db(DecidedSaved(cfg, db.desk, t, queue[0], d, env.principal.subject, g),
                            DecidedDb(cfg, db, queue[0], d, env).book)
               && reply == Describe(db'.desk, t) && Says(reply, t, StateFor(next), next)
  {
    var sid := db.desk.threads[t].session;
    OpenApproval(db.desk, t);
    var p := Queue(db.desk, sid)[0];
    var g := AfterDecision(cfg, db.desk.checkpoints[t], d, p, db.desk.proposals[p].kind,
                           Head(Queue(db.desk, sid)[1..]));
    DecisionGate(cfg, db, t, env, d, target);
    DecisionDrives(cfg, db, env, d, p, db.desk.checkpoints[t]);
    DecisionQueues(cfg, db.desk, sid, p, d, env.principal.subject, sid);
    DecidedDescribed(cfg, db.desk, t, p, d, env.principal.subject, g);
  }
}
