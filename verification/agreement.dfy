/** The graph's own checks against the service's: none of the node-level guards is ever needed. */
module Agreement {
  import opened Options
  import opened Seqs
  import opened Book
  import opened Planner
  import opened Proposals
  import opened Store
  import opened Workflow
  import opened Service
  import opened Invariants
  import opened Planning
  import opened Stepping
  import opened Requests
  import opened Safety
  import opened Lifecycle
  import Token

  /** No node on the way to the next stop is one that asks or executes without a pending proposal. */
  predicate SkipFree(cfg: Config, env: Env, db: Db, g: Graph, node: Node, resume: Option<Answer>)
    decreases resume.Some?, Rank(node, g)
  {
    && (node.ApprovalInterrupt? || node.ExecuteAction? ==> g.pending.Some?)
    && (node.End? ||
        match RunNode(cfg, env, db, g, node, resume)
        case Next(db', g') =>
          Closer(cfg, env, db, g, node, resume);
          SkipFree(cfg, env, db', g', Edge(node, g'), Left(node, g, resume))
        case _ => true)
  }

  /** The two "skipped" branches are dead: the conditional edges lead around them, in any database. */
  lemma {:induction false} SkipsAreDead(
      cfg: Config, env: Env, db: Db, g: Graph, node: Node, resume: Option<Answer>)
    requires node.ApprovalInterrupt? || node.ExecuteAction? ==> g.pending.Some?
    ensures SkipFree(cfg, env, db, g, node, resume)
    decreases resume.Some?, Rank(node, g)
  {
    if !node.End? {
      match RunNode(cfg, env, db, g, node, resume)
      case Next(db', g') =>
        Closer(cfg, env, db, g, node, resume);
        KeepsPending(cfg, env, db, g, node, resume);
        SkipsAreDead(cfg, env, db', g', Edge(node, g'), Left(node, g, resume));
      case _ =>
    }
  }

  lemma KeepsPending(cfg: Config, env: Env, db: Db, g: Graph, node: Node, resume: Option<Answer>)
    requires RunNode(cfg, env, db, g, node, resume).Next? && (node.ApprovalInterrupt? ==> g.pending.Some?)
    ensures var g' := RunNode(cfg, env, db, g, node, resume).g;
            Edge(node, g').ApprovalInterrupt? || Edge(node, g').ExecuteAction? ==> g'.pending.Some?
  {
    if node.ApprovalInterrupt? {
      assert AskApproval(db, g, resume).Next?;
    }
  }

  /** The nodes that run, in order, up to the next stop. */
  function Visited(cfg: Config, env: Env, db: Db, g: Graph, node: Node, resume: Option<Answer>): seq<Node>
    decreases resume.Some?, Rank(node, g)
  {
    if node.End? then [End]
    else
      match RunNode(cfg, env, db, g, node, resume)
      case Next(db', g') =>
        Closer(cfg, env, db, g, node, resume);
        [node] + Visited(cfg, env, db', g', Edge(node, g'), Left(node, g, resume))
      case _ => [node]
  }

  lemma VisitStep(cfg: Config, env: Env, db: Db, g: Graph, node: Node, resume: Option<Answer>)
    requires !node.End? && RunNode(cfg, env, db, g, node, resume).Next?
    ensures var e := RunNode(cfg, env, db, g, node, resume);
            Visited(cfg, env, db, g, node, resume)
            == [node] + Visited(cfg, env, e.db, e.g, Edge(node, e.g), Left(node, g, resume))
  {
    hide RunNode;
  }

  lemma TailVisits(cfg: Config, env: Env, db: Db, g: Graph, node: Node)
    requires node.PolicyCheck? || node.ExecuteAction?
    requires Shown(db.desk, g.scope.session, g.pending)
    ensures Visited(cfg, env, db, g, Edge(node, g), None)
            == if g.pending.Some? then [ApprovalInterrupt] else [VerifyResult, UpdateMemory, End]
  {
    if g.pending.None? {
      var sid := g.scope.session;
      var s := db.desk.sessions[sid];
      assert s.(state := Monitoring) == s;
      assert db.desk.sessions[sid := s] == db.desk.sessions;
      assert Remember(db, g) == Next(db, g);
      assert Visited(cfg, env, db, g, UpdateMemory, None) == [UpdateMemory] + [End];
      assert Visited(cfg, env, db, g, VerifyResult, None)
          == [VerifyResult] + Visited(cfg, env, db, g, UpdateMemory, None);
    }
  }

  lemma SensingVisits(cfg: Config, env: Env, db: Db, g: Graph)
    requires g.scope.session in db.desk.sessions && db.desk.sessions[g.scope.session].customer == g.scope.customer
    requires var s := Sensed(db, g);
             cfg.Agent(s.signal.value, s.context.value, env.seed).Some?
    ensures var s := Sensed(db, g);
            var items := cfg.Agent(s.signal.value, s.context.value, env.seed).value;
            Visited(cfg, env, db, g, DataRefresh, None)
            == [DataRefresh, SignalDetect, SignalGate, BuildContext, SpawnAgent, ValidateOutput]
               + Visited(cfg, env, db, s.(plan := items), PolicyCheck, None)
  {
    hide ReadContext, Detect, CheckPolicy, Visited;
    var s := Sensed(db, g);
    var g1 := g.(context := s.context);
    var g2 := s.(plan := cfg.Agent(s.signal.value, s.context.value, env.seed).value);
    assert RefreshData(db, g) == Next(db, g1) && DetectSignal(db, g1) == Next(db, s);
    VisitStep(cfg, env, db, g, DataRefresh, None);
    VisitStep(cfg, env, db, g1, SignalDetect, None);
    VisitStep(cfg, env, db, s, SignalGate, None);
    VisitStep(cfg, env, db, s, BuildContext, None);
    VisitStep(cfg, env, db, s, SpawnAgent, None);
    VisitStep(cfg, env, db, g2, ValidateOutput, None);
  }

  /** An accepted event whose job succeeds runs these nodes, and asks for approval exactly when the plan needs it. */
  lemma EventVisits(cfg: Config, db: Db, t: Uid, env: Env, source: Source, payload: Payload, items: seq<Item>)
    requires Core(db.desk) && Resolve(cfg, db.desk, t, env.principal) == 0 && Undrawn(db.desk.proposals, env.draw)
    requires var s := SensedBy(db, t, source, payload);
             cfg.Agent(s.signal.value, s.context.value, env.seed) == Some(items)
    ensures Visited(cfg, env, db, Begin(db.desk, t, source, payload), DataRefresh, None)
            == [DataRefresh, SignalDetect, SignalGate, BuildContext, SpawnAgent, ValidateOutput, PolicyCheck]
               + if NeedingIds(Drafts(items), env.draw) != [] then [ApprovalInterrupt]
                 else [VerifyResult, UpdateMemory, End]
  {
    hide Core, Undrawn, NeedingIds, Drafts, CheckDrafts, ReadContext, Detect, Shown, PlannedDesk, Visited, SweptBook,
         FactsOf;
    var g := SensedBy(db, t, source, payload).(plan := items);
    SensingVisits(cfg, env, db, Begin(db.desk, t, source, payload));
    PolicyNode(cfg, env, db, g, Drafts(items));
    NeedingStored(cfg, db.desk, g.scope.session, Drafts(items), env.draw);
    PolicyVisits(cfg, env, db, g, CheckDrafts(cfg, env, db, g, Drafts(items)));
  }

  lemma PolicyVisits(cfg: Config, env: Env, db: Db, g: Graph, e: Effect)
    requires e == CheckDrafts(cfg, env, db, g, Drafts(g.plan)) && e.Next?
    requires Shown(e.db.desk, e.g.scope.session, e.g.pending)
    ensures Visited(cfg, env, db, g, PolicyCheck, None)
            == [PolicyCheck] + if e.g.pending.Some? then [ApprovalInterrupt] else [VerifyResult, UpdateMemory, End]
  {
    hide CheckDrafts, Drafts, Shown;
    TailVisits(cfg, env, e.db, e.g, PolicyCheck);
  }

  lemma AnswerVisits(cfg: Config, env: Env, db: Db, g: Graph, a: Answer, e: Effect)
    requires g.scope.session in db.desk.sessions && g.pending.Some? && g.pending.value in db.desk.proposals
    requires e == TakeDecision(cfg, env, db, g.(answer := Some(a))) && e.Next?
    requires Shown(e.db.desk, e.g.scope.session, e.g.pending)
    ensures Visited(cfg, env, db, g, ApprovalInterrupt, Some(a))
            == [ApprovalInterrupt, ExecuteAction]
               + if e.g.pending.Some? then [ApprovalInterrupt] else [VerifyResult, UpdateMemory, End]
  {
    hide TakeDecision, Shown, Visited;
    var answered := g.(answer := Some(a));
    assert AskApproval(db, g, Some(a)) == Next(db, answered);
    VisitStep(cfg, env, db, g, ApprovalInterrupt, Some(a));
    VisitStep(cfg, env, db, answered, ExecuteAction, None);
    TailVisits(cfg, env, e.db, e.g, ExecuteAction);
  }

  /** An accepted decision is executed once, and the customer is asked again exactly when another proposal waits. */
  lemma DecisionVisits(cfg: Config, db: Db, r: Request, t: Uid)
    requires Inv(db.desk) && Accepts(cfg, db.desk, r, t)
    ensures Visited(cfg, r.env, db, db.desk.checkpoints[t], ApprovalInterrupt,
                    Some(Answer(r.decision, SessionOf(db.desk, t).pending)))
            == [ApprovalInterrupt, ExecuteAction]
               + if |QueueOf(db.desk, t)| > 1 then [ApprovalInterrupt] else [VerifyResult, UpdateMemory, End]
  {
    hide Core, Queue, Resolve, QueueShown, CopiesAgree, Settled, Visited, TakeDecision, Shown;
    OpenApproval(db.desk, t);
    var g, p, sid := db.desk.checkpoints[t], QueueOf(db.desk, t)[0], db.desk.threads[t].session;
    var a := Answer(r.decision, Some(p));
    var answered := g.(answer := Some(a));
    DecisionNode(cfg, r.env, db, answered, p);
    DecisionParks(cfg, db.desk, sid, p, r.decision, r.env.principal.subject);
    DecisionQueues(cfg, db.desk, sid, p, r.decision, r.env.principal.subject, sid);
    AnswerVisits(cfg, r.env, db, g, a, TakeDecision(cfg, r.env, db, answered));
  }

  /** The gates let the decision through, but a restart has lost what the graph would resume from. */
  predicate Orphaned(cfg: Config, desk: Desk, r: Request) {
    && r.Decide? && IsOpen(desk, r.thread) && Resolve(cfg, desk, r.thread, r.env.principal) == 0
    && (r.target == None || r.target == SessionOf(desk, r.thread).pending)
    && r.thread !in desk.checkpoints
  }

  /**
   * The service's gate is exact: what it accepts the graph takes, what it refuses changes nothing,
   * and a decision is lost to a restart exactly when its thread's checkpoint is.
   */
  lemma GateIsExact(cfg: Config, db: Db, r: Request)
    requires Inv(db.desk) && r.Decide?
    ensures var (db', reply) := Serve(cfg, db, r);
            if Accepts(cfg, db.desk, r, r.thread) then reply.Serialized?
            else && db' == db && (reply == Http(500) <==> Orphaned(cfg, db.desk, r))
                 && (reply == Http(403) || reply == Http(404) || reply == Http(409) || reply == Http(500))
  {
    hide Drive, Core, Orphaned;
    if Accepts(cfg, db.desk, r, r.thread) {
      hide SubmitDecision, Inv;
      DecisionEffect(cfg, db, r.thread, r.env, r.decision, r.target);
    } else {
      ClosedGate(cfg, db, r);
    }
  }

  lemma ClosedGate(cfg: Config, db: Db, r: Request)
    requires Inv(db.desk) && r.Decide? && !Accepts(cfg, db.desk, r, r.thread)
    ensures var (db', reply) := Serve(cfg, db, r);
            && db' == db && (reply == Http(500) <==> Orphaned(cfg, db.desk, r))
            && (reply == Http(403) || reply == Http(404) || reply == Http(409) || reply == Http(500))
  {
    hide Core, Drive;
    if IsOpen(db.desk, r.thread) {
      assert QueueShown(db.desk, db.desk.threads[r.thread].session);
      if r.thread in db.desk.checkpoints {
        assert CopiesAgree(db.desk, r.thread);
      }
    }
  }

  /* ---------- restarts ---------- */

  /** Every open approval can be resumed. */
  ghost predicate Resumable(desk: Desk) {
    forall t {:trigger IsOpen(desk, t)} :: IsOpen(desk, t) ==> t in desk.checkpoints
  }

  /** The process has not been restarted: then no request but a restart makes an approval unresumable. */
  lemma StepKeepsResumable(cfg: Config, db: Db, r: Request)
    requires Inv(db.desk) && Fresh(db, r.env.draw) && Resumable(db.desk) && !r.Restart?
    ensures Resumable(Serve(cfg, db, r).0.desk)
  {
    hide Inv, Fresh, Undrawn, TriggerEvent, PostMessage, SubmitDecision, CreateOrReuse, Core, Resumable;
    FreshUndrawn(db, r.env.draw);
    InvCore(db.desk);
    match r
    case Create(env, customer, forceNew) => CreateResumable(cfg, db, customer, env.principal, forceNew, env.draw);
    case Event(env, t, source, payload) => EventResumable(cfg, db, t, env, source, payload);
    case Message(env, t, text) =>
      MessageIsEvent(cfg, db, t, env, text);
      EventResumable(cfg, db, t, env, FromUser, Payload("", text));
    case Decide(_, t, _, _) =>
      if Accepts(cfg, db.desk, r, t) {
        DecisionResumable(cfg, db, r, t);
      } else {
        RefusedDecision(cfg, db, r);
      }
    case Read(_, _) =>
  }

  lemma OpenResumable(cfg: Config, desk: Desk, customer: string, draw: nat)
    requires LinkedThreads(desk.sessions, desk.threads, desk.threadsByAge, desk.checkpoints) && Resumable(desk)
    requires Uid(draw, ForSession, 0) !in desk.sessions && Uid(draw, ForThread, 0) !in desk.threads
    ensures Resumable(Open(cfg, desk, customer, draw))
  {
    var after := Open(cfg, desk, customer, draw);
    forall u | IsOpen(after, u) ensures u in after.checkpoints {
      assert IsOpen(desk, u);
    }
  }

  lemma StaleResumable(desk: Desk, t: Uid)
    requires Resumable(desk) && t in desk.threads
    ensures Resumable(Stale(desk, t))
  {
    forall u | IsOpen(Stale(desk, t), u) ensures u in desk.checkpoints {
      assert IsOpen(desk, u);
    }
  }

  lemma CreateResumable(cfg: Config, db: Db, customer: string, principal: Token.Principal, forceNew: bool, draw: nat)
    requires Core(db.desk) && Resumable(db.desk)
    requires Uid(draw, ForSession, 0) !in db.desk.sessions && Uid(draw, ForThread, 0) !in db.desk.threads
    ensures Resumable(CreateOrReuse(cfg, db, customer, principal, forceNew, draw).0.desk)
  {
    hide LinkedThreads, LinkedProposals, Recorded, Resumable, Open, PickReusable, Describe;
    PickedActive(db.desk, customer);
    match (if forceNew then None else PickReusable(db.desk, customer))
    case None => OpenResumable(cfg, db.desk, customer, draw);
    case Some(t) =>
      StaleResumable(db.desk, t);
      StaleKeepsCore(db.desk, t);
      OpenResumable(cfg, Stale(db.desk, t), customer, draw);
  }

  lemma SavedResumable(desk: Desk, desk': Desk, t: Uid)
    requires LinkedThreads(desk.sessions, desk.threads, desk.threadsByAge, desk.checkpoints)
    requires Resumable(desk) && t in desk.threads && desk'.threads == desk.threads
    requires desk'.sessions.Keys == desk.sessions.Keys
             && forall s :: s in desk.sessions && s != desk.threads[t].session ==> desk'.sessions[s] == desk.sessions[s]
    requires t in desk'.checkpoints && forall u :: u in desk.checkpoints ==> u in desk'.checkpoints
    ensures Resumable(desk')
  {
    forall u | IsOpen(desk', u) ensures u in desk'.checkpoints {
      if u != t {
        assert IsOpen(desk, u);
      }
    }
  }

  lemma EventResumable(cfg: Config, db: Db, t: Uid, env: Env, source: Source, payload: Payload)
    requires Inv(db.desk) && Undrawn(db.desk.proposals, env.draw) && Resumable(db.desk)
    ensures Resumable(TriggerEvent(cfg, db, t, env, source, payload).0.desk)
  {
    hide LinkedProposals, LinkedThreads, Recorded, QueueShown, CopiesAgree, Undrawn, Drive, Resumable;
    if Resolve(cfg, db.desk, t, env.principal) == 0 && SessionOf(db.desk, t).state == Monitoring {
      AcceptedResumable(cfg, db, t, env, source, payload);
    }
  }

  lemma AcceptedResumable(cfg: Config, db: Db, t: Uid, env: Env, source: Source, payload: Payload)
    requires Core(db.desk) && Undrawn(db.desk.proposals, env.draw) && Resumable(db.desk)
    requires Resolve(cfg, db.desk, t, env.principal) == 0 && SessionOf(db.desk, t).state == Monitoring
    ensures Resumable(TriggerEvent(cfg, db, t, env, source, payload).0.desk)
  {
    hide LinkedProposals, LinkedThreads, Recorded, Undrawn, TriggerEvent, PlannedSaved, Describe, Resumable;
    var s := SensedBy(db, t, source, payload);
    EventEffect(cfg, db, t, env, source, payload);
    match cfg.Agent(s.signal.value, s.context.value, env.seed)
    case None => SavedResumable(db.desk, Saved(db.desk, t, s.(place := Broken)), t);
    case Some(items) =>
      PlannedResumable(cfg, db.desk, t, Drafts(items), env.draw, AfterEvent(s, items, env.draw));
  }

  lemma PlannedResumable(cfg: Config, desk: Desk, t: Uid, drafts: seq<Draft>, draw: nat, g: Graph)
    requires LinkedThreads(desk.sessions, desk.threads, desk.threadsByAge, desk.checkpoints) && Resumable(desk)
    requires t in desk.threads && desk.threads[t].session in desk.sessions
    ensures Resumable(PlannedSaved(cfg, desk, t, drafts, draw, g))
  {
    hide LinkedThreads, Resumable, NeedingIds, Rows;
    SavedResumable(desk, PlannedSaved(cfg, desk, t, drafts, draw, g), t);
  }

  lemma DecisionResumable(cfg: Config, db: Db, r: Request, t: Uid)
    requires Inv(db.desk) && Accepts(cfg, db.desk, r, t) && Resumable(db.desk)
    ensures Resumable(SubmitDecision(cfg, db, t, r.env, r.decision, r.target).0.desk)
  {
    hide LinkedProposals, LinkedThreads, Recorded, QueueShown, CopiesAgree, SubmitDecision, Queue, Resumable;
    DecisionEffect(cfg, db, t, r.env, r.decision, r.target);
    SavedResumable(db.desk, SubmitDecision(cfg, db, t, r.env, r.decision, r.target).0.desk, t);
  }

  /* ---------- threads ---------- */

  lemma WaitingIsPicked(desk: Desk, customer: string, t: Uid)
    requires Core(desk) && IsOpen(desk, t) && ActiveOf(desk, customer)(t)
    ensures var pick := PickReusable(desk, customer);
            pick.Some? && IsOpen(desk, pick.value) && ActiveOf(desk, customer)(pick.value)
            && Linked(desk, pick.value)
  {
    hide LinkedProposals, Recorded;
    var active := Keep(desk.threadsByAge, ActiveOf(desk, customer));
    var waiting := Keep(active, AwaitingIn(desk));
    assert t in active && t in waiting;
    assert waiting[|waiting| - 1] in waiting && waiting[|waiting| - 1] in active;
  }

  /** At `i` stands the newest active thread with an open approval or, if none waits, the newest active one. */
  ghost predicate NewestAt(desk: Desk, customer: string, u: Uid, i: nat) {
    var ts, active, waits := desk.threadsByAge, ActiveOf(desk, customer), AwaitingIn(desk);
    && i < |ts| && ts[i] == u && active(u)
    && if waits(u) then forall j :: i < j < |ts| ==> !(active(ts[j]) && waits(ts[j]))
       else forall j :: 0 <= j < |ts| && active(ts[j]) ==> !waits(ts[j]) && j <= i
  }

  /** Of the customer's active threads the newest with an open approval is picked, without any the newest. */
  lemma PickIsNewest(desk: Desk, customer: string)
    ensures match PickReusable(desk, customer)
            case Some(u) => exists i: nat :: NewestAt(desk, customer, u, i)
            case None => forall t :: t in desk.threadsByAge ==> !ActiveOf(desk, customer)(t)
  {
    hide Keep;
    var ts, active, waits := desk.threadsByAge, ActiveOf(desk, customer), AwaitingIn(desk);
    var both := (t: Uid) => active(t) && waits(t);
    KeepNarrower(ts, active, both);
    KeepCongruent(Keep(ts, active), waits, both);
    if Keep(ts, both) != [] {
      var i := KeptLast(ts, both);
      assert both(ts[i]);
      assert NewestAt(desk, customer, ts[i], i);
    } else if Keep(ts, active) != [] {
      var i := KeptLast(ts, active);
      assert forall j :: 0 <= j < |ts| ==> (both(ts[j]) <==> ts[j] in Keep(ts, both));
      assert NewestAt(desk, customer, ts[i], i);
    } else {
      assert forall t :: t in ts && active(t) ==> t in Keep(ts, active);
    }
  }

  lemma NewThread(cfg: Config, desk: Desk, customer: string, draw: nat)
    requires LinkedProposals(desk.sessions, desk.proposals, desk.created, desk.journal)
    requires Uid(draw, ForSession, 0) !in desk.sessions
    ensures var reply := Describe(Open(cfg, desk, customer, draw), Uid(draw, ForThread, 0));
            && Says(reply, Uid(draw, ForThread, 0), Monitoring, None)
            && reply.view.proposals == [] && reply.view.executions == []
  {
    var s := Uid(draw, ForSession, 0);
    KeepNone(desk.created, InSession(desk.proposals, s));
    KeepNone(desk.journal, RanIn(desk.proposals, s));
  }

  /** Thread `u` is retired and a new one opened; every other row is as it was. */
  ghost predicate Retires(desk: Desk, desk': Desk, u: Uid, draw: nat) {
    var sid, tid := Uid(draw, ForSession, 0), Uid(draw, ForThread, 0);
    && sid !in desk.sessions && tid !in desk.threads && sid in desk'.sessions && tid in desk'.threads
    && StillThere(desk, desk', u) && desk.threads[u].active && !desk'.threads[u].active
    && desk' == desk.(sessions := desk.sessions[sid := desk'.sessions[sid]],
                      threads := desk.threads[u := desk'.threads[u]][tid := desk'.threads[tid]],
                      threadsByAge := desk.threadsByAge + [tid])
  }

  /**
   * Opening a chat again while an approval is open: of the threads with an open approval the
   * newest is picked. The chat leads back to it, and nothing changes, exactly outside local mode
   * or when its checkpoint is there. Otherwise exactly that thread is retired, though its session
   * goes on waiting, and the chat is a new one that shows nothing.
   */
  lemma ReuseExactly(cfg: Config, db: Db, customer: string, principal: Token.Principal, draw: nat, t: Uid)
    requires Inv(db.desk) && customer in db.desk.customers && CanAccess(principal, customer)
    requires Uid(draw, ForSession, 0) !in db.desk.sessions && Uid(draw, ForThread, 0) !in db.desk.threads
    requires IsOpen(db.desk, t) && ActiveOf(db.desk, customer)(t)
    ensures PickReusable(db.desk, customer).Some?
    ensures var pick := PickReusable(db.desk, customer).value;
            var (db', reply) := CreateOrReuse(cfg, db, customer, principal, false, draw);
            && IsOpen(db.desk, pick) && ActiveOf(db.desk, customer)(pick)
            && (db' == db <==> !cfg.local || pick in db.desk.checkpoints)
            && if db' == db then
                 reply == Describe(db.desk, pick) && Says(reply, pick, UserApproval, SessionOf(db.desk, pick).pending)
               else
                 && Retires(db.desk, db'.desk, pick, draw) && db'.book == db.book
                 && IsOpen(db'.desk, pick) && Resolve(cfg, db'.desk, pick, principal) == 404
                 && Says(reply, Uid(draw, ForThread, 0), Monitoring, None)
                 && reply.view.proposals == [] && reply.view.executions == []
  {
    hide Inv, LinkedThreads, LinkedProposals, Recorded, PickReusable, Describe, Queue;
    InvCore(db.desk);
    WaitingIsPicked(db.desk, customer, t);
    var pick := PickReusable(db.desk, customer).value;
    OpenIsShown(db.desk, pick);
    if cfg.local && pick !in db.desk.checkpoints {
      NewThread(cfg, Stale(db.desk, pick), customer, draw);
    }
  }

  lemma OpenIsShown(desk: Desk, t: Uid)
    requires IsOpen(desk, t)
    ensures Says(Describe(desk, t), t, UserApproval, SessionOf(desk, t).pending)
  {
  }

  /** While every open approval has its checkpoint, opening a chat again always leads back to one. */
  lemma ReuseFindsApproval(cfg: Config, db: Db, customer: string, principal: Token.Principal, draw: nat, t: Uid)
    requires Inv(db.desk) && customer in db.desk.customers && CanAccess(principal, customer)
    requires IsOpen(db.desk, t) && ActiveOf(db.desk, customer)(t)
    requires Resumable(db.desk) || !cfg.local
    ensures var (db', reply) := CreateOrReuse(cfg, db, customer, principal, false, draw);
            && db' == db && reply.Serialized?
            && IsOpen(db.desk, reply.view.thread) && ActiveOf(db.desk, customer)(reply.view.thread)
  {
    hide Inv, Listed, Keep, Resumable, PickReusable;
    InvCore(db.desk);
    WaitingIsPicked(db.desk, customer, t);
    if Resumable(db.desk) {
      OpenResumes(db.desk, PickReusable(db.desk, customer).value);
    }
  }

  lemma OpenResumes(desk: Desk, u: Uid)
    requires Resumable(desk) && IsOpen(desk, u)
    ensures u in desk.checkpoints
  {
  }

  /* ---------- after a restart ---------- */

  /** In local mode, opening the chat after a restart retires a thread whose approval is open. */
  lemma RestartRetires(cfg: Config, db: Db, customer: string, principal: Token.Principal, draw: nat, t: Uid)
    requires Inv(db.desk) && cfg.local && customer in db.desk.customers && CanAccess(principal, customer)
    requires Uid(draw, ForSession, 0) !in db.desk.sessions && Uid(draw, ForThread, 0) !in db.desk.threads
    requires IsOpen(db.desk, t) && ActiveOf(db.desk, customer)(t)
    ensures var restarted := db.(desk := Restarted(db.desk));
            var pick := PickReusable(restarted.desk, customer);
            var after := CreateOrReuse(cfg, restarted, customer, principal, false, draw).0.desk;
            && pick.Some? && IsOpen(db.desk, pick.value) && ActiveOf(db.desk, customer)(pick.value)
            && IsOpen(after, pick.value) && Resolve(cfg, after, pick.value, principal) == 404
  {
    hide Inv, LinkedThreads, LinkedProposals, Recorded, PickReusable, Describe, Retires, CreateOrReuse;
    RestartKeepsInv(db.desk);
    ReuseExactly(cfg, db.(desk := Restarted(db.desk)), customer, principal, draw, t);
  }

  /** Once the checkpoint of an open approval is lost, no decision is ever taken on it again. */
  lemma LostForGood(cfg: Config, db: Db, rs: seq<Request>, t: Uid, r: Request)
    requires Inv(db.desk) && Admissible(cfg, db, rs)
    requires IsOpen(db.desk, t) && t !in db.desk.checkpoints && r.Decide? && r.thread == t
    ensures var end := Run(cfg, db, rs);
            var (db', reply) := Serve(cfg, end, r);
            && db' == end && (reply == Http(500) <==> Orphaned(cfg, end.desk, r))
            && (reply == Http(403) || reply == Http(404) || reply == Http(409) || reply == Http(500))
  {
    hide Inv, Fresh, Serve, Steady, Orphaned;
    FrozenForever(cfg, db, rs, t);
    RunKeepsInv(cfg, db, rs);
    GateIsExact(cfg, Run(cfg, db, rs), r);
  }

  lemma PickIsLast(desk: Desk, customer: string, b: Uid)
    requires Newest(Keep(desk.threadsByAge, ActiveOf(desk, customer))) == Some(b) && IsOpen(desk, b)
    ensures PickReusable(desk, customer) == Some(b)
  {
    hide Keep;
    KeepLast(Keep(desk.threadsByAge, ActiveOf(desk, customer)), AwaitingIn(desk));
  }

  lemma PlannedOpens(cfg: Config, desk: Desk, a: Uid, b: Uid, drafts: seq<Draft>, draw: nat, g: Graph)
    requires Linked(desk, a) && IsOpen(desk, b) && desk.threads[a].session != desk.threads[b].session
    requires NeedingIds(drafts, draw) != []
    ensures var next := PlannedSaved(cfg, desk, a, drafts, draw, g);
            && next.customers == desk.customers && next.sessions.Keys == desk.sessions.Keys
            && next.threads == desk.threads && next.threadsByAge == desk.threadsByAge
            && next.checkpoints == desk.checkpoints[a := g] && IsOpen(next, a) && IsOpen(next, b)
  {
    hide NeedingIds, Rows;
  }

  lemma NewestIsRetired(cfg: Config, desk: Desk, next: Db, b: Uid, customer: string, principal: Token.Principal,
                        draw: nat)
    requires Inv(next.desk) && cfg.local && customer in next.desk.customers && CanAccess(principal, customer)
    requires Uid(draw, ForSession, 0) !in next.desk.sessions && Uid(draw, ForThread, 0) !in next.desk.threads
    requires next.desk.threads == desk.threads && next.desk.threadsByAge == desk.threadsByAge
    requires Newest(Keep(desk.threadsByAge, ActiveOf(desk, customer))) == Some(b)
    requires IsOpen(next.desk, b) && b !in next.desk.checkpoints
    ensures var (after, reply) := CreateOrReuse(cfg, next, customer, principal, false, draw);
            Retires(next.desk, after.desk, b, draw) && Says(reply, Uid(draw, ForThread, 0), Monitoring, None)
  {
    hide Inv, PickReusable, CreateOrReuse, Keep, Describe, Retires;
    KeepCongruent(desk.threadsByAge, ActiveOf(desk, customer), ActiveOf(next.desk, customer));
    PickIsLast(next.desk, customer, b);
    PickedActive(next.desk, customer);
    ReuseExactly(cfg, next, customer, principal, draw, b);
  }

  /**
   * Having its own checkpoint is not enough for an approval to be found again. After a restart the
   * newest thread `b` waits without checkpoint; an older one, `a`, has received an event since and
   * waits with its checkpoint. Opening the chat retires `b` and shows a new chat, not `a`.
   */
  lemma ResumablePassedOver(
      cfg: Config, db: Db, a: Uid, b: Uid, env: Env, source: Source, payload: Payload, items: seq<Item>,
      customer: string, principal: Token.Principal, draw: nat)
    requires Inv(db.desk) && cfg.local && customer in db.desk.customers && CanAccess(principal, customer)
    requires Newest(Keep(db.desk.threadsByAge, ActiveOf(db.desk, customer))) == Some(b) && IsOpen(db.desk, b)
    requires ActiveOf(db.desk, customer)(a)
    requires Resolve(cfg, db.desk, a, env.principal) == 0 && SessionOf(db.desk, a).state == Monitoring
    requires Undrawn(db.desk.proposals, env.draw)
    requires Uid(draw, ForSession, 0) !in db.desk.sessions && Uid(draw, ForThread, 0) !in db.desk.threads
    requires var s := SensedBy(db.(desk := Restarted(db.desk)), a, source, payload);
             cfg.Agent(s.signal.value, s.context.value, env.seed) == Some(items)
    requires NeedingIds(Drafts(items), env.draw) != []
    ensures var next := TriggerEvent(cfg, db.(desk := Restarted(db.desk)), a, env, source, payload).0;
            var (after, reply) := CreateOrReuse(cfg, next, customer, principal, false, draw);
            && Inv(next.desk) && IsOpen(next.desk, a) && ActiveOf(next.desk, customer)(a) && a in next.desk.checkpoints
            && Retires(next.desk, after.desk, b, draw) && Says(reply, Uid(draw, ForThread, 0), Monitoring, None)
  {
    hide LinkedThreads, LinkedProposals, Recorded, QueueShown, CopiesAgree, Settled, Undrawn, TriggerEvent, Drafts,
         NeedingIds, PlannedSaved, PickReusable, CreateOrReuse, Keep, Describe, Retires;
    var start := db.(desk := Restarted(db.desk));
    RestartKeepsInv(db.desk);
    Apart(start.desk, b, a);
    EventEffect(cfg, start, a, env, source, payload);
    EventKeepsInv(cfg, start, a, env, source, payload);
    PlannedOpens(cfg, start.desk, a, b, Drafts(items), env.draw,
                 AfterEvent(SensedBy(start, a, source, payload), items, env.draw));
    var next := TriggerEvent(cfg, start, a, env, source, payload).0;
    NewestIsRetired(cfg, db.desk, next, b, customer, principal, draw);
  }

  /* ---------- the scope hash ---------- */

  ghost predicate Injective(digest: Scope -> string) {
    forall a, b :: digest(a) == digest(b) ==> a == b
  }

  /** Every thread row carries the digest of its own scope. */
  ghost predicate Sealed(cfg: Config, threads: map<Uid, Thread>) {
    forall t :: t in threads ==>
      threads[t].hash == cfg.digest(Scope(threads[t].customer, threads[t].session, t))
  }

  /** Threads are only ever opened, sealed, and retired. */
  lemma StepKeepsSealed(cfg: Config, db: Db, r: Request)
    requires Inv(db.desk) && Fresh(db, r.env.draw) && Sealed(cfg, db.desk.threads)
    ensures Sealed(cfg, Serve(cfg, db, r).0.desk.threads)
  {
    hide Inv, TriggerEvent, PostMessage, SubmitDecision, Fresh, PickReusable, Undrawn;
    FreshUndrawn(db, r.env.draw);
    match r
    case Create(_, _, _) =>
    case Event(env, t, source, payload) => EventThreads(cfg, db, t, env, source, payload);
    case Message(env, t, text) =>
      MessageIsEvent(cfg, db, t, env, text);
      EventThreads(cfg, db, t, env, FromUser, Payload("", text));
    case Decide(_, t, _, _) =>
      if Accepts(cfg, db.desk, r, t) {
        DecisionThreads(cfg, db, r, t);
      } else {
        RefusedDecision(cfg, db, r);
      }
    case Read(_, _) =>
    case Restart(_) =>
  }

  /** What opening a chat returns can be used at once, by the one who asked for it. */
  lemma OpenedIsUsable(cfg: Config, db: Db, customer: string, principal: Token.Principal, forceNew: bool, draw: nat)
    requires Inv(db.desk) && Sealed(cfg, db.desk.threads)
    ensures var (db', reply) := CreateOrReuse(cfg, db, customer, principal, forceNew, draw);
            match reply
            case Serialized(view) =>
              && Resolve(cfg, db'.desk, view.thread, principal) == 0
              && db'.desk.threads[view.thread].customer == customer
            case _ => db' == db
  {
    hide Inv, Sealed, Open, Resolve, PickReusable;
    PickedActive(db.desk, customer);
    match (if forceNew then None else PickReusable(db.desk, customer))
    case None => NewIsUsable(cfg, db.desk, customer, principal, draw);
    case Some(t) =>
      OldIsUsable(cfg, db.desk, t, principal);
      NewIsUsable(cfg, Stale(db.desk, t), customer, principal, draw);
  }

  lemma NewIsUsable(cfg: Config, desk: Desk, customer: string, principal: Token.Principal, draw: nat)
    ensures var after, t := Open(cfg, desk, customer, draw), Uid(draw, ForThread, 0);
            && t in after.threads && after.threads[t].customer == customer
            && (CanAccess(principal, customer) ==> Resolve(cfg, after, t, principal) == 0)
  {
  }

  lemma OldIsUsable(cfg: Config, desk: Desk, t: Uid, principal: Token.Principal)
    requires Inv(desk) && Sealed(cfg, desk.threads) && t in desk.threads && desk.threads[t].active
    ensures CanAccess(principal, desk.threads[t].customer) ==> Resolve(cfg, desk, t, principal) == 0
  {
    hide LinkedProposals, Recorded, QueueShown, CopiesAgree, Settled;
  }

  /** A thread row pointed at another customer or session is refused, whoever asks and whatever for. */
  lemma ScopeHashBinds(cfg: Config, db: Db, t: Uid, row: Thread, r: Request)
    requires Injective(cfg.digest) && Sealed(cfg, db.desk.threads) && t in db.desk.threads
    requires db.desk.threads[t].hash != "" && row.hash == db.desk.threads[t].hash
    requires row.customer != db.desk.threads[t].customer || row.session != db.desk.threads[t].session
    requires !r.Create? && !r.Restart? && r.thread == t
    ensures var moved := db.(desk := db.desk.(threads := db.desk.threads[t := row]));
            var (db', reply) := Serve(cfg, moved, r);
            db' == moved && (reply == Http(403) || reply == Http(404))
  {
    hide Drive;
    var moved := db.desk.(threads := db.desk.threads[t := row]);
    assert cfg.digest(ScopeOf(moved, t)) != cfg.digest(ScopeOf(db.desk, t));
    assert Resolve(cfg, moved, t, r.env.principal) != 0;
  }
}
