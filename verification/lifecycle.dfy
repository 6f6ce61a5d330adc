/** The approval loop over whole runs: one decision per waiting proposal, in plan order, whatever else happens. */
module Lifecycle {
  import opened Options
  import opened Book
  import opened Proposals
  import opened Planner
  import opened Store
  import opened Workflow
  import opened Service
  import opened Invariants
  import opened Planning
  import opened Stepping
  import opened Requests
  import opened Safety

  predicate Linked(desk: Desk, t: Uid) { t in desk.threads && desk.threads[t].session in desk.sessions }

  predicate IsOpen(desk: Desk, t: Uid) { Linked(desk, t) && SessionOf(desk, t).state == UserApproval }

  function QueueOf(desk: Desk, t: Uid): seq<Uid>
    requires t in desk.threads
  {
    Queue(desk, desk.threads[t].session)
  }

  /** The request is a decision that passes every gate in front of the graph, and the graph can be resumed. */
  predicate Accepts(cfg: Config, desk: Desk, r: Request, t: Uid) {
    && r.Decide? && r.thread == t && IsOpen(desk, t) && Resolve(cfg, desk, t, r.env.principal) == 0
    && (r.target == None || r.target == SessionOf(desk, t).pending)
    && t in desk.checkpoints
  }

  /** The approval of `t` stays open until the last request of the run. */
  predicate OpenThroughout(cfg: Config, db: Db, rs: seq<Request>, t: Uid)
    decreases |rs|
  {
    rs == [] || (IsOpen(db.desk, t) && OpenThroughout(cfg, Serve(cfg, db, rs[0]).0, rs[1..], t))
  }

  /** The process stays up: the run holds no restart. */
  predicate StaysUp(rs: seq<Request>) {
    rs == [] || (!rs[0].Restart? && StaysUp(rs[1..]))
  }

  /** The decisions on `t` that the run accepts before the approval of `t` is closed. */
  function Taken(cfg: Config, db: Db, rs: seq<Request>, t: Uid): (ds: seq<Decision>)
    ensures |ds| <= |rs|
    decreases |rs|
  {
    if rs == [] || !IsOpen(db.desk, t) then []
    else
      (if Accepts(cfg, db.desk, rs[0], t) then [rs[0].decision] else [])
      + Taken(cfg, Serve(cfg, db, rs[0]).0, rs[1..], t)
  }

  /** The execution rows of the approved ones among `q`, in the order of the decisions `ds`. */
  function Carried(cfg: Config, proposals: map<Uid, Proposal>, q: seq<Uid>, ds: seq<Decision>): seq<Entry> {
    if q == [] || ds == [] || q[0] !in proposals then []
    else RunsOf(cfg, q[0], proposals[q[0]].kind, ds[0]) + Carried(cfg, proposals, q[1..], ds[1..])
  }

  /* ---------- everybody else ---------- */

  /** The row of `t` is the same, or has been retired in the meantime. */
  predicate StillThere(desk: Desk, desk': Desk, t: Uid) {
    && t in desk.threads && t in desk'.threads
    && desk'.threads[t].(active := desk.threads[t].active) == desk.threads[t]
    && (desk'.threads[t].active ==> desk.threads[t].active)
  }

  /** Nothing that belongs to the approval of `t` differs, except that a thread without checkpoint may be retired. */
  ghost predicate Steady(desk: Desk, desk': Desk, t: Uid)
    requires Linked(desk, t)
  {
    var sid := desk.threads[t].session;
    && StillThere(desk, desk', t)
    && sid in desk'.sessions && desk'.sessions[sid] == desk.sessions[sid]
    && (t in desk'.checkpoints <==> t in desk.checkpoints)
    && (t in desk.checkpoints ==>
          desk'.threads[t] == desk.threads[t] && desk'.checkpoints[t] == desk.checkpoints[t])
    && Queue(desk', sid) == Queue(desk, sid)
  }

  lemma SteadyTrans(a: Desk, b: Desk, c: Desk, t: Uid)
    requires Linked(a, t) && Steady(a, b, t) && Linked(b, t) && Steady(b, c, t)
    ensures Steady(a, c, t)
  {
  }

  lemma SteadyLinked(desk: Desk, next: Desk, t: Uid)
    requires Linked(desk, t) && Steady(desk, next, t)
    ensures Linked(next, t)
    ensures next.threads[t].customer == desk.threads[t].customer && next.threads[t].session == desk.threads[t].session
    ensures (t in next.checkpoints <==> t in desk.checkpoints) && (IsOpen(desk, t) <==> IsOpen(next, t))
  {
  }

  lemma OpenSteady(cfg: Config, desk: Desk, customer: string, draw: nat, t: Uid)
    requires Linked(desk, t)
    requires desk.threads[t].session != Uid(draw, ForSession, 0) && t != Uid(draw, ForThread, 0)
    ensures Steady(desk, Open(cfg, desk, customer, draw), t)
  {
  }

  lemma StaleSteady(desk: Desk, u: Uid, t: Uid)
    requires Linked(desk, t) && u in desk.threads && (u == t ==> t !in desk.checkpoints)
    ensures Steady(desk, Stale(desk, u), t)
  {
  }

  /** Opening or reusing a thread moves no open approval, and retires its thread only if its checkpoint is lost. */
  lemma CreateSteady(cfg: Config, db: Db, r: Request, t: Uid)
    requires r.Create? && IsOpen(db.desk, t)
    requires db.desk.threads[t].session.draw != r.env.draw && t.draw != r.env.draw
    ensures Steady(db.desk, CreateOrReuse(cfg, db, r.customer, r.env.principal, r.forceNew, r.env.draw).0.desk, t)
  {
    hide Queue, PickReusable, Describe, Steady, Stale, Open;
    SameSteady(db.desk, t);
    match (if r.forceNew then None else PickReusable(db.desk, r.customer))
    case None => OpenSteady(cfg, db.desk, r.customer, r.env.draw, t);
    case Some(u) =>
      if u in db.desk.threads && u !in db.desk.checkpoints {
        StaleSteady(db.desk, u, t);
        SteadyLinked(db.desk, Stale(db.desk, u), t);
        OpenSteady(cfg, Stale(db.desk, u), r.customer, r.env.draw, t);
        SteadyTrans(db.desk, Stale(db.desk, u), Open(cfg, Stale(db.desk, u), r.customer, r.env.draw), t);
      }
  }

  lemma SameSteady(desk: Desk, t: Uid)
    requires Linked(desk, t)
    ensures Steady(desk, desk, t)
  {
  }

  /** Only thread `u`, its session and its checkpoint moved. */
  lemma MovedSteady(desk: Desk, desk': Desk, u: Uid, t: Uid)
    requires Linked(desk, t) && u in desk.threads && u != t
    requires desk.threads[u].session != desk.threads[t].session
    requires desk'.threads == desk.threads
    requires desk'.sessions.Keys == desk.sessions.Keys
             && forall s :: s in desk.sessions && s != desk.threads[u].session ==> desk'.sessions[s] == desk.sessions[s]
    requires t in desk'.checkpoints <==> t in desk.checkpoints
    requires t in desk.checkpoints ==> desk'.checkpoints[t] == desk.checkpoints[t]
    requires Queue(desk', desk.threads[t].session) == Queue(desk, desk.threads[t].session)
    ensures Steady(desk, desk', t)
  {
  }

  /** What the invariant says about two threads. */
  lemma Apart(desk: Desk, u: Uid, t: Uid)
    requires Core(desk) && Linked(desk, t) && u in desk.threads && u != t
    ensures Linked(desk, u) && desk.threads[u].session != desk.threads[t].session
  {
  }

  lemma PlannedSteady(cfg: Config, desk: Desk, u: Uid, drafts: seq<Draft>, draw: nat, g: Graph, t: Uid)
    requires Core(desk) && Undrawn(desk.proposals, draw) && Linked(desk, t) && Linked(desk, u) && u != t
    requires desk.threads[u].session != desk.threads[t].session
    ensures Steady(desk, PlannedSaved(cfg, desk, u, drafts, draw, g), t)
  {
    hide Core, Undrawn;
    var after, sid := PlannedSaved(cfg, desk, u, drafts, draw, g), desk.threads[t].session;
    PlannedQueues(cfg, desk, desk.threads[u].session, drafts, draw, sid);
    assert Queue(after, sid) == Queue(PlannedDesk(cfg, desk, desk.threads[u].session, drafts, draw), sid);
    assert Queue(desk, sid) + [] == Queue(desk, sid);
    MovedSteady(desk, after, u, t);
  }

  lemma FailedJobSteady(desk: Desk, u: Uid, g: Graph, t: Uid)
    requires Linked(desk, t) && u != t
    ensures Steady(desk, Saved(desk, u, g), t)
  {
  }

  lemma SignalSteady(cfg: Config, db: Db, u: Uid, env: Env, source: Source, payload: Payload, t: Uid)
    requires Core(db.desk) && Undrawn(db.desk.proposals, env.draw)
    requires Resolve(cfg, db.desk, u, env.principal) == 0 && SessionOf(db.desk, u).state == Monitoring
    requires Linked(db.desk, t) && Linked(db.desk, u) && u != t
    requires db.desk.threads[u].session != db.desk.threads[t].session
    ensures Steady(db.desk, TriggerEvent(cfg, db, u, env, source, payload).0.desk, t)
  {
    var s := SensedBy(db, u, source, payload);
    EventEffect(cfg, db, u, env, source, payload);
    match cfg.Agent(s.signal.value, s.context.value, env.seed)
    case None => FailedJobSteady(db.desk, u, s.(place := Broken), t);
    case Some(items) =>
      PlannedSteady(cfg, db.desk, u, Drafts(items), env.draw, AfterEvent(s, items, env.draw), t);
  }

  lemma EventSteady(cfg: Config, db: Db, u: Uid, env: Env, source: Source, payload: Payload, t: Uid)
    requires Inv(db.desk) && Undrawn(db.desk.proposals, env.draw) && IsOpen(db.desk, t)
    ensures Steady(db.desk, TriggerEvent(cfg, db, u, env, source, payload).0.desk, t)
  {
    if Resolve(cfg, db.desk, u, env.principal) == 0 && SessionOf(db.desk, u).state == Monitoring {
      Apart(db.desk, u, t);
      SignalSteady(cfg, db, u, env, source, payload, t);
    }
  }

  lemma DecidedSteady(cfg: Config, desk: Desk, u: Uid, p: Uid, d: Decision, subject: string, g: Graph, t: Uid)
    requires Core(desk) && Linked(desk, t) && Linked(desk, u) && u != t
    requires desk.threads[u].session != desk.threads[t].session
    requires Heads(desk, desk.threads[u].session, p)
    ensures Steady(desk, DecidedSaved(cfg, desk, u, p, d, subject, g), t)
  {
    hide Core;
    var after, sid := DecidedSaved(cfg, desk, u, p, d, subject, g), desk.threads[t].session;
    DecisionQueues(cfg, desk, desk.threads[u].session, p, d, subject, sid);
    assert Queue(after, sid) == Queue(DecidedDesk(cfg, desk, p, d, subject), sid);
    MovedSteady(desk, after, u, t);
  }

  lemma OtherDecisionSteady(cfg: Config, db: Db, r: Request, u: Uid, t: Uid)
    requires Inv(db.desk) && Accepts(cfg, db.desk, r, u) && Linked(db.desk, t) && u != t
    requires db.desk.threads[u].session != db.desk.threads[t].session
    ensures Steady(db.desk, SubmitDecision(cfg, db, u, r.env, r.decision, r.target).0.desk, t)
  {
    hide SubmitDecision;
    DecisionEffect(cfg, db, u, r.env, r.decision, r.target);
    var q := QueueOf(db.desk, u);
    var g := AfterDecision(cfg, db.desk.checkpoints[u], r.decision, q[0], db.desk.proposals[q[0]].kind, Head(q[1..]));
    DecidedSteady(cfg, db.desk, u, q[0], r.decision, r.env.principal.subject, g, t);
  }

  lemma DecideSteady(cfg: Config, db: Db, r: Request, t: Uid)
    requires r.Decide? && Inv(db.desk) && IsOpen(db.desk, t)
    requires !Accepts(cfg, db.desk, r, t)
    ensures Steady(db.desk, SubmitDecision(cfg, db, r.thread, r.env, r.decision, r.target).0.desk, t)
  {
    if Accepts(cfg, db.desk, r, r.thread) {
      Apart(db.desk, r.thread, t);
      OtherDecisionSteady(cfg, db, r, r.thread, t);
    } else {
      RefusedDecision(cfg, db, r);
    }
  }

  lemma RefusedDecision(cfg: Config, db: Db, r: Request)
    requires r.Decide? && !Accepts(cfg, db.desk, r, r.thread)
    ensures SubmitDecision(cfg, db, r.thread, r.env, r.decision, r.target).0 == db
  {
  }

  /** A message posted while an approval is open changes nothing; otherwise it is an event. */
  lemma MessageIsEvent(cfg: Config, db: Db, u: Uid, env: Env, text: string)
    ensures PostMessage(cfg, db, u, env, text).0 == TriggerEvent(cfg, db, u, env, FromUser, Payload("", text)).0
  {
    hide Drive;
  }

  lemma SignalsSteady(cfg: Config, db: Db, r: Request, t: Uid)
    requires Inv(db.desk) && Undrawn(db.desk.proposals, r.env.draw) && IsOpen(db.desk, t)
    requires r.Event? || r.Message?
    ensures Steady(db.desk, Serve(cfg, db, r).0.desk, t)
  {
    hide Inv, TriggerEvent, PostMessage;
    match r
    case Event(env, u, source, payload) => EventSteady(cfg, db, u, env, source, payload, t);
    case Message(env, u, text) =>
      MessageIsEvent(cfg, db, u, env, text);
      EventSteady(cfg, db, u, env, FromUser, Payload("", text), t);
  }

  /** An open approval is moved by nothing but an accepted decision on its own thread and the loss of its checkpoint. */
  lemma OnlyDecisionsMove(cfg: Config, db: Db, r: Request, t: Uid)
    requires Inv(db.desk) && Fresh(db, r.env.draw) && IsOpen(db.desk, t)
    requires !Accepts(cfg, db.desk, r, t) && (r.Restart? ==> t !in db.desk.checkpoints)
    ensures Steady(db.desk, Serve(cfg, db, r).0.desk, t)
  {
    hide Inv, Undrawn, CreateOrReuse, TriggerEvent, PostMessage, SubmitDecision, Steady, Restarted;
    match r
    case Create(_, _, _) => CreateSteady(cfg, db, r, t);
    case Event(_, _, _, _) => SignalsSteady(cfg, db, r, t);
    case Message(_, _, _) => SignalsSteady(cfg, db, r, t);
    case Decide(_, _, _, _) => DecideSteady(cfg, db, r, t);
    case Read(_, _) => SameSteady(db.desk, t);
    case Restart(_) => RestartSteady(db.desk, t);
  }

  lemma RestartSteady(desk: Desk, t: Uid)
    requires Linked(desk, t) && t !in desk.checkpoints
    ensures Steady(desk, Restarted(desk), t)
  {
  }

  /* ---------- thread rows ---------- */

  lemma FreshUndrawn(db: Db, draw: nat)
    requires Fresh(db, draw)
    ensures Undrawn(db.desk.proposals, draw)
    ensures Uid(draw, ForSession, 0) !in db.desk.sessions && Uid(draw, ForThread, 0) !in db.desk.threads
  {
  }

  lemma EventThreads(cfg: Config, db: Db, t: Uid, env: Env, source: Source, payload: Payload)
    requires Inv(db.desk) && Undrawn(db.desk.proposals, env.draw)
    ensures TriggerEvent(cfg, db, t, env, source, payload).0.desk.threads == db.desk.threads
  {
    hide LinkedThreads, LinkedProposals, Recorded, QueueShown, CopiesAgree, Undrawn, Drive;
    if Resolve(cfg, db.desk, t, env.principal) == 0 && SessionOf(db.desk, t).state == Monitoring {
      EventEffect(cfg, db, t, env, source, payload);
    }
  }

  lemma DecisionThreads(cfg: Config, db: Db, r: Request, t: Uid)
    requires Inv(db.desk) && Accepts(cfg, db.desk, r, t)
    ensures SubmitDecision(cfg, db, t, r.env, r.decision, r.target).0.desk.threads == db.desk.threads
  {
    hide Inv, SubmitDecision;
    DecisionEffect(cfg, db, t, r.env, r.decision, r.target);
  }

  lemma CreateThreads(cfg: Config, db: Db, r: Request, t: Uid)
    requires r.Create? && Fresh(db, r.env.draw) && t in db.desk.threads
    ensures StillThere(db.desk, CreateOrReuse(cfg, db, r.customer, r.env.principal, r.forceNew, r.env.draw).0.desk, t)
  {
    hide PickReusable, Undrawn, Describe;
  }

  /** No request removes a thread, moves it to another session or customer, or revives it. */
  lemma StepKeepsThread(cfg: Config, db: Db, r: Request, t: Uid)
    requires Inv(db.desk) && Fresh(db, r.env.draw) && t in db.desk.threads
    ensures StillThere(db.desk, Serve(cfg, db, r).0.desk, t)
  {
    hide Inv, TriggerEvent, PostMessage, SubmitDecision, CreateOrReuse, Undrawn, Accepts;
    FreshUndrawn(db, r.env.draw);
    match r
    case Create(_, _, _) => CreateThreads(cfg, db, r, t);
    case Event(env, u, source, payload) => EventThreads(cfg, db, u, env, source, payload);
    case Message(env, u, text) =>
      MessageIsEvent(cfg, db, u, env, text);
      EventThreads(cfg, db, u, env, FromUser, Payload("", text));
    case Decide(_, u, _, _) =>
      if Accepts(cfg, db.desk, r, u) {
        DecisionThreads(cfg, db, r, u);
      } else {
        RefusedDecision(cfg, db, r);
      }
    case Read(_, _) =>
    case Restart(_) =>
  }

  lemma {:induction false} RunKeepsThread(cfg: Config, db: Db, rs: seq<Request>, t: Uid)
    requires Inv(db.desk) && Admissible(cfg, db, rs) && t in db.desk.threads
    ensures var end := Run(cfg, db, rs).desk;
            StillThere(db.desk, end, t) && Linked(end, t)
    decreases |rs|
  {
    hide Fresh, Serve;
    if rs != [] {
      StepKeepsInv(cfg, db, rs[0]);
      StepKeepsThread(cfg, db, rs[0], t);
      RunKeepsThread(cfg, Serve(cfg, db, rs[0]).0, rs[1..], t);
    }
  }

  /* ---------- approvals whose checkpoint is lost ---------- */

  lemma QueueStored(desk: Desk, session: Uid)
    ensures forall p :: p in Queue(desk, session) ==> p in desk.proposals && desk.proposals[p].status == Proposed
  {
    forall p | p in Queue(desk, session) ensures p in desk.proposals && desk.proposals[p].status == Proposed {
      assert AwaitsApproval(desk.proposals, session)(p);
    }
  }

  lemma RestartFreezes(desk: Desk, t: Uid)
    requires IsOpen(desk, t)
    ensures var next := Restarted(desk);
            && IsOpen(next, t) && t !in next.checkpoints && next.threads[t] == desk.threads[t]
            && QueueOf(next, t) == QueueOf(desk, t) && SessionOf(next, t) == SessionOf(desk, t)
  {
  }

  /**
   * An open approval without checkpoint stays as it is for good: through any run, with restarts
   * or not, its session goes on waiting for the same proposals and no decision is taken on it.
   */
  lemma {:induction false} FrozenForever(cfg: Config, db: Db, rs: seq<Request>, t: Uid)
    requires Inv(db.desk) && Admissible(cfg, db, rs)
    requires IsOpen(db.desk, t) && t !in db.desk.checkpoints
    ensures var end := Run(cfg, db, rs).desk;
            && IsOpen(end, t) && t !in end.checkpoints && Steady(db.desk, end, t)
            && SessionOf(end, t) == SessionOf(db.desk, t) && QueueOf(end, t) == QueueOf(db.desk, t)
    ensures OpenThroughout(cfg, db, rs, t) && Taken(cfg, db, rs, t) == []
    decreases |rs|
  {
    hide Inv, Fresh, Serve, Queue;
    if rs == [] {
      SameSteady(db.desk, t);
    } else {
      var next := Serve(cfg, db, rs[0]).0;
      StepKeepsInv(cfg, db, rs[0]);
      OnlyDecisionsMove(cfg, db, rs[0], t);
      FrozenForever(cfg, next, rs[1..], t);
      SteadyTrans(db.desk, next.desk, Run(cfg, next, rs[1..]).desk, t);
    }
  }

  /** What such an approval asks about is never decided and never run. */
  lemma NeverDecided(cfg: Config, db: Db, rs: seq<Request>, t: Uid, p: Uid)
    requires Inv(db.desk) && Admissible(cfg, db, rs)
    requires IsOpen(db.desk, t) && t !in db.desk.checkpoints && p in QueueOf(db.desk, t)
    ensures var end := Run(cfg, db, rs).desk;
            && p in db.desk.proposals && p in end.proposals && end.proposals[p] == db.desk.proposals[p]
            && end.proposals[p].status == Proposed && History(end, p) == []
  {
    hide Inv, Fresh, Serve, Core;
    var end := Run(cfg, db, rs).desk;
    FrozenForever(cfg, db, rs, t);
    RunKeepsInv(cfg, db, rs);
    RunExtends(cfg, db, rs);
    QueueStored(db.desk, db.desk.threads[t].session);
    QueueStored(end, db.desk.threads[t].session);
    NoHistoryYet(end, p);
  }

  lemma NoHistoryYet(desk: Desk, p: Uid)
    requires Inv(desk) && p in desk.proposals && desk.proposals[p].status == Proposed
    ensures History(desk, p) == []
  {
    assert HistoryFits(desk.proposals[p], History(desk, p));
  }

  /** The decisions a run takes on an approval are those taken before the process is first restarted. */
  lemma {:induction false} TakenBeforeRestart(cfg: Config, db: Db, rs: seq<Request>, t: Uid, n: nat)
    requires Inv(db.desk) && Admissible(cfg, db, rs) && n < |rs| && rs[n].Restart?
    ensures Taken(cfg, db, rs, t) == Taken(cfg, db, rs[..n], t)
    decreases |rs|
  {
    hide Inv, Fresh, Serve, Queue;
    if IsOpen(db.desk, t) {
      StepKeepsInv(cfg, db, rs[0]);
      if n == 0 {
        RestartFreezes(db.desk, t);
        RestartServed(cfg, db, rs[0]);
        FrozenForever(cfg, Serve(cfg, db, rs[0]).0, rs[1..], t);
      } else {
        assert rs[..n][1..] == rs[1..][..n - 1];
        TakenBeforeRestart(cfg, Serve(cfg, db, rs[0]).0, rs[1..], t, n - 1);
      }
    }
  }

  lemma RestartTakesNone(cfg: Config, db: Db, rs: seq<Request>, t: Uid)
    requires Inv(db.desk) && Admissible(cfg, db, rs) && rs != [] && rs[0].Restart?
    ensures Taken(cfg, db, rs, t) == []
  {
    hide Inv, Fresh, Serve, Queue;
    TakenBeforeRestart(cfg, db, rs, t, 0);
  }

  lemma RestartServed(cfg: Config, db: Db, r: Request)
    requires r.Restart?
    ensures Serve(cfg, db, r).0 == db.(desk := Restarted(db.desk))
  {
  }

  /* ---------- the decisions themselves ---------- */

  /** An accepted decision settles the head of the queue and moves on to the rest. */
  ghost predicate MovedOn(cfg: Config, desk: Desk, desk': Desk, t: Uid, d: Decision)
    requires Linked(desk, t) && t in desk.checkpoints && QueueOf(desk, t) != []
  {
    var sid, q := desk.threads[t].session, QueueOf(desk, t);
    && q[0] in desk.proposals
    && t in desk'.threads && desk'.threads[t] == desk.threads[t] && sid in desk'.sessions
    && Queue(desk', sid) == q[1..]
    && t in desk'.checkpoints
    && desk'.checkpoints[t].results == desk.checkpoints[t].results + RunsOf(cfg, q[0], desk.proposals[q[0]].kind, d)
    && q[0] in desk'.proposals && desk'.proposals[q[0]].status == FinalStatus(cfg, d)
  }

  lemma DecidedMovesOn(cfg: Config, desk: Desk, t: Uid, d: Decision, subject: string)
    requires Core(desk) && Linked(desk, t) && t in desk.checkpoints && QueueOf(desk, t) != []
    requires Heads(desk, desk.threads[t].session, QueueOf(desk, t)[0])
    ensures var p := QueueOf(desk, t)[0];
            var g := AfterDecision(cfg, desk.checkpoints[t], d, p, desk.proposals[p].kind, Head(QueueOf(desk, t)[1..]));
            MovedOn(cfg, desk, DecidedSaved(cfg, desk, t, p, d, subject, g), t, d)
  {
    hide Core;
    var p, sid := QueueOf(desk, t)[0], desk.threads[t].session;
    var g := AfterDecision(cfg, desk.checkpoints[t], d, p, desk.proposals[p].kind, Head(QueueOf(desk, t)[1..]));
    DecisionQueues(cfg, desk, sid, p, d, subject, sid);
    assert Queue(DecidedSaved(cfg, desk, t, p, d, subject, g), sid)
        == Queue(DecidedDesk(cfg, desk, p, d, subject), sid);
  }

  lemma AcceptedMovesOn(cfg: Config, db: Db, r: Request, t: Uid)
    requires Inv(db.desk) && Accepts(cfg, db.desk, r, t)
    ensures QueueOf(db.desk, t) != []
    ensures MovedOn(cfg, db.desk, Serve(cfg, db, r).0.desk, t, r.decision)
  {
    hide SubmitDecision, MovedOn, Core, CopiesAgree, QueueShown;
    OpenApproval(db.desk, t);
    DecisionEffect(cfg, db, t, r.env, r.decision, r.target);
    DecidedMovesOn(cfg, db.desk, t, r.decision, r.env.principal.subject);
  }

  /**
   * What an accepted decision leaves on record: who decided what about the pending proposal and, if it
   * was approved, one execution of it. Only an approval in mock mode moves the finance tables, by the
   * handler of that proposal, with its stored parameters, for the customer of the thread.
   */
  lemma DecisionIsRecorded(cfg: Config, db: Db, r: Request, t: Uid)
    requires Inv(db.desk) && Accepts(cfg, db.desk, r, t)
    ensures SessionOf(db.desk, t).pending.Some? && SessionOf(db.desk, t).pending.value in db.desk.proposals
    ensures var db' := Serve(cfg, db, r).0;
            var p := SessionOf(db.desk, t).pending.value;
            var row := db.desk.proposals[p];
            && db'.desk.journal
               == db.desk.journal + [Decided(p, r.decision, r.env.principal.subject)]
                  + (if r.decision != Approve then []
                     else if cfg.mode == MockApply then [Ran(p, MockHandler(row.kind), true)]
                     else [Ran(p, ExternalRequestExecutor, false)])
            && db'.book == if r.decision == Approve && cfg.mode == MockApply
                           then Handle(db.book, db.desk.threads[t].customer, row.kind, row.params,
                                       PolicyId(r.env.draw, 0), cfg.before)
                           else db.book
  {
    hide LinkedProposals, Recorded, QueueShown, CopiesAgree, Settled, SubmitDecision, Handle, Queue, Describe;
    OpenApproval(db.desk, t);
    DecisionEffect(cfg, db, t, r.env, r.decision, r.target);
  }

  /** Execution rows name the kind of the proposal, and the kind never changes. */
  lemma {:induction false} CarriedLater(
      cfg: Config, a: map<Uid, Proposal>, b: map<Uid, Proposal>, q: seq<Uid>, ds: seq<Decision>)
    requires forall p :: p in q ==> p in a && p in b && a[p].kind == b[p].kind
    ensures Carried(cfg, a, q, ds) == Carried(cfg, b, q, ds)
  {
    if q != [] && ds != [] {
      CarriedLater(cfg, a, b, q[1..], ds[1..]);
    }
  }

  /**
   * Where the queue of `t` stands after the decisions `ds` of a run. `open`: the run ends no later
   * than the approval; `up`: it holds no restart.
   */
  ghost predicate Worked(cfg: Config, desk: Desk, end: Desk, t: Uid, ds: seq<Decision>, open: bool, up: bool)
    requires Linked(desk, t) && t in desk.checkpoints
  {
    var q := QueueOf(desk, t);
    && |ds| <= |q| && (|ds| < |q| ==> open)
    && StillThere(desk, end, t) && Linked(end, t)
    && (forall j :: 0 <= j < |ds| ==> q[j] in end.proposals && end.proposals[q[j]].status == FinalStatus(cfg, ds[j]))
    && (open ==> QueueOf(end, t) == q[|ds|..] && (t in end.checkpoints <==> up))
    && (open && up ==>
          && end.threads[t] == desk.threads[t]
          && end.checkpoints[t].results == desk.checkpoints[t].results + Carried(cfg, desk.proposals, q, ds))
  }

  lemma WorkedAfterOther(cfg: Config, desk: Desk, next: Desk, end: Desk, t: Uid, ds: seq<Decision>,
                         open: bool, up: bool)
    requires Linked(desk, t) && t in desk.checkpoints && Steady(desk, next, t) && Extends(desk, next)
    requires Linked(next, t) && Worked(cfg, next, end, t, ds, open, up)
    ensures Worked(cfg, desk, end, t, ds, open, up)
  {
    hide Queue;
    QueueStored(desk, desk.threads[t].session);
    CarriedLater(cfg, desk.proposals, next.proposals, QueueOf(desk, t), ds);
  }

  /** One decision in front of the others: results and statuses. */
  lemma CarriedCons(cfg: Config, a: map<Uid, Proposal>, b: map<Uid, Proposal>, q: seq<Uid>, d: Decision,
                    ds: seq<Decision>, before: seq<Entry>)
    requires q != [] && forall p :: p in q ==> p in a && p in b && a[p].kind == b[p].kind
    ensures before + RunsOf(cfg, q[0], a[q[0]].kind, d) + Carried(cfg, b, q[1..], ds)
            == before + Carried(cfg, a, q, [d] + ds)
  {
    CarriedLater(cfg, a, b, q[1..], ds);
    assert ([d] + ds)[1..] == ds;
    var run := RunsOf(cfg, q[0], a[q[0]].kind, d);
    assert before + run + Carried(cfg, b, q[1..], ds) == before + (run + Carried(cfg, b, q[1..], ds));
  }

  lemma StatusesCons(cfg: Config, next: map<Uid, Proposal>, end: map<Uid, Proposal>, q: seq<Uid>, d: Decision,
                     ds: seq<Decision>, j: nat)
    requires |ds| < |q| && j <= |ds|
    requires q[0] in next && q[0] in end && Later(next[q[0]], end[q[0]]) && next[q[0]].status == FinalStatus(cfg, d)
    requires j > 0 ==> q[1..][j - 1] in end && end[q[1..][j - 1]].status == FinalStatus(cfg, ds[j - 1])
    ensures q[j] in end && end[q[j]].status == FinalStatus(cfg, ([d] + ds)[j])
  {
  }

  lemma WorkedAfterDecision(cfg: Config, desk: Desk, next: Desk, end: Desk, t: Uid, d: Decision, ds: seq<Decision>,
                            open: bool, up: bool)
    requires Linked(desk, t) && t in desk.checkpoints && QueueOf(desk, t) != []
    requires MovedOn(cfg, desk, next, t, d) && Extends(desk, next) && Extends(next, end)
    requires Worked(cfg, next, end, t, ds, open, up)
    ensures Worked(cfg, desk, end, t, [d] + ds, open, up)
  {
    hide Queue;
    var q := QueueOf(desk, t);
    QueueStored(desk, desk.threads[t].session);
    CarriedCons(cfg, desk.proposals, next.proposals, q, d, ds, desk.checkpoints[t].results);
    assert q[1..][|ds|..] == q[1 + |ds|..];
    forall j | 0 <= j < 1 + |ds|
      ensures q[j] in end.proposals && end.proposals[q[j]].status == FinalStatus(cfg, ([d] + ds)[j])
    {
      StatusesCons(cfg, next.proposals, end.proposals, q, d, ds, j);
    }
  }

  lemma WorkedAfterRestart(cfg: Config, desk: Desk, next: Desk, end: Desk, t: Uid)
    requires IsOpen(desk, t) && t in desk.checkpoints && IsOpen(next, t) && t !in next.checkpoints
    requires next.threads[t] == desk.threads[t] && QueueOf(next, t) == QueueOf(desk, t)
    requires Steady(next, end, t) && IsOpen(end, t)
    ensures Worked(cfg, desk, end, t, [], true, false)
  {
    hide Queue;
    assert QueueOf(desk, t)[0..] == QueueOf(desk, t);
  }

  lemma NothingWorked(cfg: Config, desk: Desk, t: Uid)
    requires Linked(desk, t) && t in desk.checkpoints
    ensures Worked(cfg, desk, desk, t, [], true, true)
  {
    assert desk.checkpoints[t].results + [] == desk.checkpoints[t].results;
    assert QueueOf(desk, t)[0..] == QueueOf(desk, t);
  }

  /** A session that does not wait has nothing left to work off. */
  lemma ClosedIsWorked(cfg: Config, desk: Desk, end: Desk, t: Uid, up: bool)
    requires Inv(desk) && Linked(desk, t) && t in desk.checkpoints && !IsOpen(desk, t)
    requires StillThere(desk, end, t) && Linked(end, t)
    ensures Worked(cfg, desk, end, t, [], false, up)
  {
    hide Core, Queue;
    assert QueueShown(desk, desk.threads[t].session);
  }

  /**
   * The approval loop over whole runs, whatever other requests come in between: each accepted
   * decision settles exactly the next waiting proposal, in plan order. As long as the approval is
   * open the rest goes on waiting, and unless the process is restarted the results list exactly
   * the approved ones, in the order of the decisions.
   */
  lemma {:induction false} ApprovalLoop(cfg: Config, db: Db, rs: seq<Request>, t: Uid)
    requires Inv(db.desk) && Admissible(cfg, db, rs)
    requires Linked(db.desk, t) && t in db.desk.checkpoints
    ensures Worked(cfg, db.desk, Run(cfg, db, rs).desk, t, Taken(cfg, db, rs, t),
                   OpenThroughout(cfg, db, rs, t), StaysUp(rs))
    decreases |rs|
  {
    hide Inv, Fresh, Steady, MovedOn, Extends, Serve, Worked, Accepts;
    if rs == [] {
      NothingWorked(cfg, db.desk, t);
    } else if !IsOpen(db.desk, t) {
      RunKeepsThread(cfg, db, rs, t);
      ClosedIsWorked(cfg, db.desk, Run(cfg, db, rs).desk, t, StaysUp(rs));
    } else {
      var r, next := rs[0], Serve(cfg, db, rs[0]).0;
      StepKeepsInv(cfg, db, r);
      if r.Restart? {
        RestartServed(cfg, db, r);
        RestartFreezes(db.desk, t);
        FrozenForever(cfg, next, rs[1..], t);
        RestartAccepts(cfg, db.desk, r, t);
        WorkedAfterRestart(cfg, db.desk, next.desk, Run(cfg, next, rs[1..]).desk, t);
      } else {
        LoopStep(cfg, db, r, t);
        ApprovalLoop(cfg, next, rs[1..], t);
        RunExtends(cfg, next, rs[1..]);
        StepIsWorked(cfg, db, r, Run(cfg, next, rs[1..]).desk, t, Taken(cfg, next, rs[1..], t),
                     OpenThroughout(cfg, next, rs[1..], t), StaysUp(rs[1..]));
      }
    }
  }

  lemma RestartAccepts(cfg: Config, desk: Desk, r: Request, t: Uid)
    requires r.Restart?
    ensures !Accepts(cfg, desk, r, t)
  {
  }

  lemma LoopStep(cfg: Config, db: Db, r: Request, t: Uid)
    requires Inv(db.desk) && Fresh(db, r.env.draw) && IsOpen(db.desk, t) && t in db.desk.checkpoints && !r.Restart?
    ensures var next := Serve(cfg, db, r).0.desk;
            && Linked(next, t) && t in next.checkpoints
            && if Accepts(cfg, db.desk, r, t) then
                 QueueOf(db.desk, t) != [] && MovedOn(cfg, db.desk, next, t, r.decision)
               else
                 Steady(db.desk, next, t)
  {
    hide Inv, Fresh, Steady, MovedOn, Serve, Queue;
    if Accepts(cfg, db.desk, r, t) {
      AcceptedMovesOn(cfg, db, r, t);
      MovedLinked(cfg, db.desk, Serve(cfg, db, r).0.desk, t, r.decision);
    } else {
      OnlyDecisionsMove(cfg, db, r, t);
      SteadyLinked(db.desk, Serve(cfg, db, r).0.desk, t);
    }
  }

  lemma StepIsWorked(cfg: Config, db: Db, r: Request, end: Desk, t: Uid, ds: seq<Decision>, open: bool, up: bool)
    requires Inv(db.desk) && Fresh(db, r.env.draw) && IsOpen(db.desk, t) && t in db.desk.checkpoints && !r.Restart?
    requires var next := Serve(cfg, db, r).0.desk;
             && Linked(next, t) && t in next.checkpoints && Extends(next, end)
             && Worked(cfg, next, end, t, ds, open, up)
    ensures Worked(cfg, db.desk, end, t, (if Accepts(cfg, db.desk, r, t) then [r.decision] else []) + ds, open, up)
  {
    hide Inv, Fresh, Steady, MovedOn, Extends, Serve, Worked, Queue;
    var next := Serve(cfg, db, r).0.desk;
    ServeExtends(cfg, db, r);
    LoopStep(cfg, db, r, t);
    if Accepts(cfg, db.desk, r, t) {
      WorkedAfterDecision(cfg, db.desk, next, end, t, r.decision, ds, open, up);
    } else {
      WorkedAfterOther(cfg, db.desk, next, end, t, ds, open, up);
      assert [] + ds == ds;
    }
  }

  lemma MovedLinked(cfg: Config, desk: Desk, next: Desk, t: Uid, d: Decision)
    requires Linked(desk, t) && t in desk.checkpoints && QueueOf(desk, t) != [] && MovedOn(cfg, desk, next, t, d)
    ensures Linked(next, t) && t in next.checkpoints
  {
  }

  /* ---------- from the plan to the end of its loop ---------- */

  /** In a monitored session nothing is left waiting, not even for lack of approval. */
  lemma MonitoredIsDone(desk: Desk, session: Uid)
    requires Inv(desk) && session in desk.sessions
    ensures desk.sessions[session].state == Monitoring
            <==> forall p :: p in desk.proposals && desk.proposals[p].session == session
                             ==> desk.proposals[p].status != Proposed
    ensures desk.sessions[session].pending.Some? <==> desk.sessions[session].state == UserApproval
    ensures desk.sessions[session].pending.Some? ==> Heads(desk, session, desk.sessions[session].pending.value)
  {
    assert QueueShown(desk, session);
    if Queue(desk, session) != [] {
      HeadWaits(desk, session);
    } else {
      forall p | p in desk.proposals && desk.proposals[p].session == session
        ensures desk.proposals[p].status != Proposed
      {
        assert !AwaitsApproval(desk.proposals, session)(p) by {
          assert p in desk.created && p !in Queue(desk, session);
        }
      }
    }
  }

  /** The rows an accepted event adds, and where its approvals start. */
  ghost predicate PlanStored(cfg: Config, desk: Desk, t: Uid, drafts: seq<Draft>, draw: nat)
    requires Linked(desk, t)
  {
    && QueueOf(desk, t) == NeedingIds(drafts, draw)
    && t in desk.checkpoints && desk.checkpoints[t].results == []
    && forall i :: 0 <= i < |drafts| ==>
         ProposalId(draw, i) in desk.proposals
         && desk.proposals[ProposalId(draw, i)] == PlannedRow(cfg, desk.threads[t].session, drafts[i])
  }

  lemma StoredRow(cfg: Config, old_: map<Uid, Proposal>, session: Uid, drafts: seq<Draft>, draw: nat, i: nat)
    requires i < |drafts|
    ensures var p, all := ProposalId(draw, i), old_ + Rows(cfg, session, drafts, draw, |drafts|);
            p in all && all[p] == PlannedRow(cfg, session, drafts[i])
  {
  }

  lemma PlannedIsStored(cfg: Config, desk: Desk, t: Uid, drafts: seq<Draft>, draw: nat, g: Graph)
    requires Inv(desk) && Linked(desk, t) && SessionOf(desk, t).state == Monitoring && Undrawn(desk.proposals, draw)
    requires g.results == []
    ensures PlanStored(cfg, PlannedSaved(cfg, desk, t, drafts, draw, g), t, drafts, draw)
  {
    hide Core, Rows, Queue, NewIds;
    PlannedSavedQueues(cfg, desk, t, drafts, draw, g);
    forall i | 0 <= i < |drafts|
      ensures var p, after := ProposalId(draw, i), PlannedSaved(cfg, desk, t, drafts, draw, g);
              p in after.proposals && after.proposals[p] == PlannedRow(cfg, desk.threads[t].session, drafts[i])
    {
      StoredRow(cfg, desk.proposals, desk.threads[t].session, drafts, draw, i);
    }
  }

  lemma EventStores(cfg: Config, db: Db, t: Uid, env: Env, source: Source, payload: Payload, items: seq<Item>)
    requires Inv(db.desk) && Undrawn(db.desk.proposals, env.draw)
    requires Resolve(cfg, db.desk, t, env.principal) == 0 && SessionOf(db.desk, t).state == Monitoring
    requires var s := SensedBy(db, t, source, payload);
             cfg.Agent(s.signal.value, s.context.value, env.seed) == Some(items)
    ensures var next := TriggerEvent(cfg, db, t, env, source, payload).0.desk;
            Linked(next, t) && next.threads[t] == db.desk.threads[t]
            && PlanStored(cfg, next, t, Drafts(items), env.draw)
  {
    hide Core, TriggerEvent, PlanStored;
    var s := SensedBy(db, t, source, payload);
    SensedStart(db, t, source, payload);
    EventEffect(cfg, db, t, env, source, payload);
    PlannedIsStored(cfg, db.desk, t, Drafts(items), env.draw, AfterEvent(s, items, env.draw));
  }

  /** The state of a plan after the decisions `ds` on it: nothing but what was decided has moved. */
  ghost predicate PlanSplit(cfg: Config, end: Desk, t: Uid, drafts: seq<Draft>, draw: nat, ds: seq<Decision>,
                            open: bool, up: bool)
    requires Linked(end, t)
  {
    var needs := NeedingIds(drafts, draw);
    && |ds| <= |needs| && (|ds| < |needs| ==> open)
    && (open ==>
          && SessionOf(end, t).pending == Head(needs[|ds|..])
          && (SessionOf(end, t).state == Monitoring <==> |ds| == |needs|)
          && (t in end.checkpoints <==> up))
    && (open && up ==> end.checkpoints[t].results == Carried(cfg, end.proposals, needs, ds))
    && (forall i :: 0 <= i < |drafts| && !NeedsDraft(drafts[i]) ==>
          ProposalId(draw, i) in end.proposals && end.proposals[ProposalId(draw, i)].status == StatusAfter(cfg))
    && (forall j :: 0 <= j < |ds| ==>
          needs[j] in end.proposals && end.proposals[needs[j]].status == FinalStatus(cfg, ds[j]))
    && (forall j :: |ds| <= j < |needs| ==>
          needs[j] in end.proposals && end.proposals[needs[j]].status == Proposed)
  }

  lemma WorkedSplits(cfg: Config, next: Desk, end: Desk, t: Uid, drafts: seq<Draft>, draw: nat, ds: seq<Decision>,
                     open: bool, up: bool)
    requires Linked(next, t) && PlanStored(cfg, next, t, drafts, draw) && Worked(cfg, next, end, t, ds, open, up)
    requires Extends(next, end) && QueueShown(end, next.threads[t].session)
    ensures PlanSplit(cfg, end, t, drafts, draw, ds, open, up)
  {
    hide Queue;
    var needs, sid := NeedingIds(drafts, draw), next.threads[t].session;
    QueueStored(next, sid);
    QueueStored(end, sid);
    CarriedLater(cfg, next.proposals, end.proposals, needs, ds);
    assert [] + Carried(cfg, end.proposals, needs, ds) == Carried(cfg, end.proposals, needs, ds);
    forall j | |ds| <= j < |needs|
      ensures needs[j] in end.proposals && end.proposals[needs[j]].status == Proposed
    {
      assert needs[|ds|..][j - |ds|] in QueueOf(end, t);
    }
  }

  /**
   * An event whose plan has k proposals that need approval takes exactly k decisions, in plan
   * order, in any run: the automatic ones have run, each decision settles the next proposal, and
   * what is not decided goes on waiting. While the loop is open the session is monitored exactly
   * after the k-th decision, the checkpoint is there exactly if there was no restart, and then
   * the results list exactly the approved ones.
   */
  lemma PlanIsWorkedOff(
      cfg: Config, db: Db, t: Uid, env: Env, source: Source, payload: Payload, items: seq<Item>, rs: seq<Request>)
    requires Inv(db.desk) && Fresh(db, env.draw)
    requires Resolve(cfg, db.desk, t, env.principal) == 0 && SessionOf(db.desk, t).state == Monitoring
    requires var s := SensedBy(db, t, source, payload);
             cfg.Agent(s.signal.value, s.context.value, env.seed) == Some(items)
    requires Admissible(cfg, TriggerEvent(cfg, db, t, env, source, payload).0, rs)
    ensures var next := TriggerEvent(cfg, db, t, env, source, payload).0;
            var end := Run(cfg, next, rs).desk;
            && Linked(end, t)
            && PlanSplit(cfg, end, t, Drafts(items), env.draw, Taken(cfg, next, rs, t),
                         OpenThroughout(cfg, next, rs, t), StaysUp(rs))
  {
    hide Core, Undrawn, TriggerEvent, PlanSplit, Worked, Extends, CopiesAgree, QueueShown;
    var next := TriggerEvent(cfg, db, t, env, source, payload).0;
    EventKeepsInv(cfg, db, t, env, source, payload);
    EventStores(cfg, db, t, env, source, payload, items);
    ApprovalLoop(cfg, next, rs, t);
    RunKeepsInv(cfg, next, rs);
    RunExtends(cfg, next, rs);
    var end, ds := Run(cfg, next, rs).desk, Taken(cfg, next, rs, t);
    var open := OpenThroughout(cfg, next, rs, t);
    WorkedLinked(cfg, next.desk, end, t, ds, open, StaysUp(rs));
    WorkedSplits(cfg, next.desk, end, t, Drafts(items), env.draw, ds, open, StaysUp(rs));
  }

  lemma WorkedLinked(cfg: Config, desk: Desk, end: Desk, t: Uid, ds: seq<Decision>, open: bool, up: bool)
    requires Linked(desk, t) && t in desk.checkpoints && Worked(cfg, desk, end, t, ds, open, up)
    ensures Linked(end, t) && end.threads[t].session == desk.threads[t].session
  {
  }
}
