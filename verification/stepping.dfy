/** Every request, in closed form, and the invariant it keeps. */
module Stepping {
  import opened Options
  import opened Seqs
  import opened Policy
  import opened Book
  import opened Proposals
  import opened Planner
  import opened Store
  import opened Workflow
  import opened Service
  import opened Invariants
  import opened Planning

  /* ---------- a decision ---------- */

  function FinalStatus(cfg: Config, d: Decision): Status {
    match d case Approve => StatusAfter(cfg) case Reject => Rejected case Revise => Deferred
  }

  function RunsOf(cfg: Config, p: Uid, kind: Kind, d: Decision): seq<Entry> {
    if d.Approve? then [RunRow(cfg, p, kind)] else []
  }

  /** The desk after the customer decided on `p`, before the next proposal is picked. */
  function DecidedDesk(cfg: Config, desk: Desk, p: Uid, d: Decision, subject: string): Desk
    requires p in desk.proposals
  {
    var row := desk.proposals[p];
    desk.(proposals := desk.proposals[p := row.(status := FinalStatus(cfg, d))],
          journal := desk.journal + [Decided(p, d, subject)] + RunsOf(cfg, p, row.kind, d))
  }

  /** The proposal at the head of the queue waits and needs approval. */
  ghost predicate Heads(desk: Desk, session: Uid, p: Uid) {
    && p in desk.proposals && desk.proposals[p].session == session && desk.proposals[p].status == Proposed
    && Needs(desk.proposals[p]) && Queue(desk, session) != [] && Queue(desk, session)[0] == p
  }

  lemma HeadWaits(desk: Desk, session: Uid)
    requires Queue(desk, session) != []
    ensures Heads(desk, session, Queue(desk, session)[0])
  {
    var p := Queue(desk, session)[0];
    assert p in Queue(desk, session);
    assert AwaitsApproval(desk.proposals, session)(p);
  }

  lemma NotedKeepsCore(desk: Desk, p: Uid, d: Decision, subject: string)
    requires Core(desk) && p in desk.proposals && desk.proposals[p].status == Proposed && Needs(desk.proposals[p])
    ensures Core(Write(Mark(desk, p, DecidedStatus(d)), Decided(p, d, subject)))
  {
    var h := History(desk, p);
    assert h == [];
    assert [] + [Decided(p, d, subject)] == [Decided(p, d, subject)];
    CoreAfterEntry(desk, p, DecidedStatus(d), Decided(p, d, subject));
  }

  /** The gate lets an approved proposal through. */
  lemma ApprovedGateOpens(cfg: Config, db: Db, p: Uid, newId: Uid)
    requires p in db.desk.proposals && db.desk.proposals[p].session in db.desk.sessions
    requires db.desk.proposals[p].status == Approved
    ensures var row := db.desk.proposals[p];
            ExecuteScoped(cfg, db, p, db.desk.sessions[row.session].customer, true, newId)
            == Done(Execute(cfg, db, p, newId), RunRow(cfg, p, row.kind))
  {
  }

  lemma RefusedDesk(cfg: Config, desk: Desk, p: Uid, d: Decision, subject: string)
    requires p in desk.proposals && !d.Approve?
    ensures Write(Mark(desk, p, DecidedStatus(d)), Decided(p, d, subject)) == DecidedDesk(cfg, desk, p, d, subject)
  {
    assert desk.journal + [Decided(p, d, subject)] + [] == desk.journal + [Decided(p, d, subject)];
  }

  lemma RunKeepsCore(cfg: Config, noted: Desk, p: Uid)
    requires Core(noted) && p in noted.proposals && noted.proposals[p].status == Approved
    ensures Core(Write(Mark(noted, p, StatusAfter(cfg)), RunRow(cfg, p, noted.proposals[p].kind)))
  {
    CoreAfterEntry(noted, p, StatusAfter(cfg), RunRow(cfg, p, noted.proposals[p].kind));
  }

  lemma DecidedKeepsCore(cfg: Config, desk: Desk, p: Uid, d: Decision, subject: string)
    requires Core(desk) && p in desk.proposals && desk.proposals[p].status == Proposed && Needs(desk.proposals[p])
    ensures Core(DecidedDesk(cfg, desk, p, d, subject))
  {
    NotedKeepsCore(desk, p, d, subject);
    if d.Approve? {
      RunKeepsCore(cfg, Write(Mark(desk, p, Approved), Decided(p, d, subject)), p);
      RemarkedDesk(cfg, desk, p, subject);
    } else {
      RefusedDesk(cfg, desk, p, d, subject);
    }
  }

  /** The tables once the decision is written and, if it is an approval, carried out. */
  function DecidedDb(cfg: Config, db: Db, p: Uid, d: Decision, env: Env): Db
    requires p in db.desk.proposals && db.desk.proposals[p].session in db.desk.sessions
  {
    var row := db.desk.proposals[p];
    Db(DecidedDesk(cfg, db.desk, p, d, env.principal.subject),
       if d.Approve? && cfg.mode.MockApply?
       then Handle(db.book, db.desk.sessions[row.session].customer, row.kind, row.params, PolicyId(env.draw, 0),
                   cfg.before)
       else db.book)
  }

  lemma DecisionTaken(cfg: Config, env: Env, db: Db, g: Graph, p: Uid)
    requires p in db.desk.proposals && db.desk.proposals[p].session == g.scope.session
    requires g.scope.session in db.desk.sessions
    requires g.pending == Some(p) && g.answer.Some?
    requires g.answer.value.proposal == None || g.answer.value.proposal == Some(p)
    ensures var d := g.answer.value.decision;
            TakeDecision(cfg, env, db, g)
            == Advance(DecidedDb(cfg, db, p, d, env),
                       g.(results := g.results + RunsOf(cfg, p, db.desk.proposals[p].kind, d)))
  {
    var d := g.answer.value.decision;
    var noted := Write(Mark(db.desk, p, DecidedStatus(d)), Decided(p, d, env.principal.subject));
    if d.Approve? {
      ApprovedGateOpens(cfg, db.(desk := noted), p, PolicyId(env.draw, 0));
      RemarkedDesk(cfg, db.desk, p, env.principal.subject);
    } else {
      assert DecidedDesk(cfg, db.desk, p, d, env.principal.subject).journal == noted.journal;
      assert g.results + [] == g.results;
    }
  }

  /** A decision on the pending proposal is never refused by the graph. */
  lemma DecisionNode(cfg: Config, env: Env, db: Db, g: Graph, p: Uid)
    requires Core(db.desk) && Heads(db.desk, g.scope.session, p)
    requires g.pending == Some(p) && g.answer.Some?
    requires g.answer.value.proposal == None || g.answer.value.proposal == Some(p)
    ensures var e := TakeDecision(cfg, env, db, g);
            var d := g.answer.value.decision;
            var sid := g.scope.session;
            var decided := DecidedDesk(cfg, db.desk, p, d, env.principal.subject);
            var next := Head(Queue(decided, sid));
            && e.Next?
            && sid in decided.sessions
            && e.db == Db(Parked(decided, sid, next), DecidedDb(cfg, db, p, d, env).book)
            && Core(e.db.desk)
            && e.g == g.(pending := next, answer := None,
                         results := g.results + RunsOf(cfg, p, db.desk.proposals[p].kind, d))
  {
    var d := g.answer.value.decision;
    var decided := DecidedDesk(cfg, db.desk, p, d, env.principal.subject);
    DecisionTaken(cfg, env, db, g, p);
    DecidedKeepsCore(cfg, db.desk, p, d, env.principal.subject);
    ParkedKeepsCore(decided, g.scope.session, Head(Queue(decided, g.scope.session)));
  }

  lemma RemarkedDesk(cfg: Config, desk: Desk, p: Uid, subject: string)
    requires p in desk.proposals
    ensures var noted := Write(Mark(desk, p, Approved), Decided(p, Approve, subject));
            Write(Mark(noted, p, StatusAfter(cfg)), RunRow(cfg, p, desk.proposals[p].kind))
            == DecidedDesk(cfg, desk, p, Approve, subject)
  {
    var row := desk.proposals[p];
    assert desk.proposals[p := row.(status := Approved)][p := row.(status := StatusAfter(cfg))]
           == desk.proposals[p := row.(status := StatusAfter(cfg))];
  }

  /** A decision takes the head off its session's queue and leaves every other queue alone. */
  lemma DecisionQueues(cfg: Config, desk: Desk, session: Uid, p: Uid, d: Decision, subject: string, s: Uid)
    requires Core(desk) && Heads(desk, session, p)
    ensures Queue(DecidedDesk(cfg, desk, p, d, subject), s)
            == if s == session then Queue(desk, s)[1..] else Queue(desk, s)
  {
    var before, after := AwaitsApproval(desk.proposals, s),
        AwaitsApproval(DecidedDesk(cfg, desk, p, d, subject).proposals, s);
    if s == session {
      KeepWithoutFirst(desk.created, before, after);
    } else {
      KeepCongruent(desk.created, after, before);
    }
  }

  /* ---------- runs of the graph ---------- */

  ghost predicate Shown(desk: Desk, session: Uid, pending: Option<Uid>) {
    && session in desk.sessions && desk.sessions[session].pending == pending
    && desk.sessions[session].state == StateFor(pending)
    && (pending.Some? ==> pending.value in desk.proposals)
  }

  function StopAt(db: Db, g: Graph): Stop {
    if g.pending.Some? then Paused(db, g.(place := Waiting)) else Finished(db, g.(place := Ended))
  }

  /** After a node that parked a proposal the run stops at the interrupt; after one that parked none, at the end. */
  lemma TailStops(cfg: Config, env: Env, db: Db, g: Graph, node: Node)
    requires node.PolicyCheck? || node.ExecuteAction?
    requires Shown(db.desk, g.scope.session, g.pending)
    ensures Drive(cfg, env, db, g, Edge(node, g), None) == StopAt(db, g)
  {
    if g.pending.None? {
      var sid := g.scope.session;
      var s := db.desk.sessions[sid];
      assert s.(state := Monitoring) == s;
      assert db.desk.sessions[sid := s] == db.desk.sessions;
      assert Remember(db, g) == Next(db, g);
      assert Drive(cfg, env, db, g, End, None) == Finished(db, g.(place := Ended));
      assert Drive(cfg, env, db, g, UpdateMemory, None) == Drive(cfg, env, db, g, End, None);
    }
  }

  function Sensed(db: Db, g: Graph): Graph
    requires g.scope.session in db.desk.sessions
  {
    var customer := db.desk.sessions[g.scope.session].customer;
    var ctx := ReadContext(db.book, customer, FactsOf(db.desk, customer));
    g.(context := Some(ctx), signal := Some(Detect(g.source, g.payload, ctx)))
  }

  /** From the start of the graph to the policy node, or to a failed agent job. */
  lemma TriggerReachesPolicy(cfg: Config, env: Env, db: Db, g: Graph)
    requires g.scope.session in db.desk.sessions && db.desk.sessions[g.scope.session].customer == g.scope.customer
    ensures var s := Sensed(db, g);
            Drive(cfg, env, db, g, DataRefresh, None)
            == match cfg.Agent(s.signal.value, s.context.value, env.seed)
               case None => Failure(db, s.(place := Broken), 500)
               case Some(items) => Drive(cfg, env, db, s.(plan := items), PolicyCheck, None)
  {
    hide ReadContext, Detect, CheckPolicy;
    var s := Sensed(db, g);
    var g1 := g.(context := s.context);
    assert RefreshData(db, g) == Next(db, g1);
    assert DetectSignal(db, g1) == Next(db, s);
    assert Drive(cfg, env, db, g, DataRefresh, None) == Drive(cfg, env, db, g1, SignalDetect, None);
    assert Drive(cfg, env, db, g1, SignalDetect, None) == Drive(cfg, env, db, s, SignalGate, None);
    assert Drive(cfg, env, db, s, SignalGate, None) == Drive(cfg, env, db, s, BuildContext, None);
    assert Drive(cfg, env, db, s, BuildContext, None) == Drive(cfg, env, db, s, SpawnAgent, None);
    match cfg.Agent(s.signal.value, s.context.value, env.seed)
    case None =>
    case Some(items) =>
      var g2 := s.(plan := items);
      assert Drive(cfg, env, db, s, SpawnAgent, None) == Drive(cfg, env, db, g2, ValidateOutput, None);
      assert Drive(cfg, env, db, g2, ValidateOutput, None) == Drive(cfg, env, db, g2, PolicyCheck, None);
  }

  /* ---------- the invariant, desk by desk ---------- */

  ghost predicate AllQueuesShown(desk: Desk) {
    forall s {:trigger QueueShown(desk, s)} :: s in desk.sessions ==> QueueShown(desk, s)
  }

  ghost predicate AllCopiesAgree(desk: Desk)
    requires forall t :: t in desk.threads ==> desk.threads[t].session in desk.sessions
  {
    forall t {:trigger CopiesAgree(desk, t)} :: t in desk.threads ==> CopiesAgree(desk, t)
  }

  /** The graph state where a run that parked `pending` stops. */
  predicate Stopped(g: Graph, pending: Option<Uid>) {
    g.pending == pending && g.place == if pending.Some? then Waiting else Ended
  }

  function Saved(desk: Desk, t: Uid, g: Graph): Desk { desk.(checkpoints := desk.checkpoints[t := g]) }

  lemma SavedKeepsCore(desk: Desk, t: Uid, g: Graph)
    requires Core(desk) && t in desk.threads && g.scope == ScopeOf(desk, t)
    ensures Core(Saved(desk, t, g))
  {
  }

  /** Only thread `t`, its session and its checkpoint change, and they change together. */
  lemma CopiesAfter(desk: Desk, desk': Desk, t: Uid, g: Graph, pending: Option<Uid>)
    requires Core(desk) && AllCopiesAgree(desk) && t in desk.threads
    requires desk'.threads == desk.threads
    requires var sid := desk.threads[t].session;
             desk'.sessions == desk.sessions[sid := desk.sessions[sid].(pending := pending, state := StateFor(pending))]
    requires desk'.checkpoints == desk.checkpoints[t := g] && Stopped(g, pending)
    ensures AllCopiesAgree(desk')
  {
    forall u | u in desk'.threads ensures CopiesAgree(desk', u) {
      if u != t {
        assert desk.threads[u].session != desk.threads[t].session;
        assert CopiesAgree(desk, u);
      }
    }
  }

  lemma QueuesAfter(desk: Desk, desk': Desk, session: Uid)
    requires AllQueuesShown(desk) && session in desk.sessions
    requires var next := Head(Queue(desk', session));
             desk'.sessions
                 == desk.sessions[session := desk.sessions[session].(pending := next, state := StateFor(next))]
    requires forall s :: s in desk.sessions && s != session ==> Queue(desk', s) == Queue(desk, s)
    ensures AllQueuesShown(desk')
  {
    forall s | s in desk'.sessions ensures QueueShown(desk', s) {
      if s != session {
        assert QueueShown(desk, s);
      }
    }
  }

  lemma QueuesSame(desk: Desk, desk': Desk)
    requires AllQueuesShown(desk)
    requires desk'.sessions == desk.sessions && desk'.proposals == desk.proposals && desk'.created == desk.created
    ensures AllQueuesShown(desk')
  {
    forall s | s in desk'.sessions ensures QueueShown(desk', s) {
      assert QueueShown(desk, s);
      assert Queue(desk', s) == Queue(desk, s);
    }
  }

  /** One session moved on, with its thread's checkpoint; everything else between sessions is as before. */
  lemma InvAfter(desk: Desk, desk': Desk, t: Uid, g: Graph)
    requires Inv(desk) && t in desk.threads
    requires Core(desk') && Settled(desk'.proposals)
    requires desk'.threads == desk.threads
    requires desk.threads[t].session in desk.sessions
    requires var sid := desk.threads[t].session;
             var next := Head(Queue(desk', sid));
             && desk'.sessions == desk.sessions[sid := desk.sessions[sid].(pending := next, state := StateFor(next))]
             && desk'.checkpoints == desk.checkpoints[t := g]
             && Stopped(g, next)
             && forall s :: s in desk.sessions && s != sid ==> Queue(desk', s) == Queue(desk, s)
    ensures Inv(desk')
  {
    QueuesAfter(desk, desk', desk.threads[t].session);
    CopiesAfter(desk, desk', t, g, Head(Queue(desk', desk.threads[t].session)));
  }

  lemma RowsSettled(cfg: Config, old_: map<Uid, Proposal>, session: Uid, drafts: seq<Draft>, draw: nat)
    requires Settled(old_)
    ensures Settled(old_ + Rows(cfg, session, drafts, draw, |drafts|))
  {
    var rows := Rows(cfg, session, drafts, draw, |drafts|);
    forall p | p in rows
      ensures rows[p].status != Approved && (rows[p].status == Proposed ==> Needs(rows[p]))
    {
      assert rows[p] == PlannedRow(cfg, session, drafts[p.n]);
    }
  }

  function PlannedSaved(cfg: Config, desk: Desk, t: Uid, drafts: seq<Draft>, draw: nat, g: Graph): Desk
    requires t in desk.threads && desk.threads[t].session in desk.sessions
  {
    Saved(PlannedDesk(cfg, desk, desk.threads[t].session, drafts, draw), t, g)
  }

  lemma PlannedSavedQueues(cfg: Config, desk: Desk, t: Uid, drafts: seq<Draft>, draw: nat, g: Graph)
    requires Inv(desk) && t in desk.threads && Undrawn(desk.proposals, draw)
    requires desk.sessions[desk.threads[t].session].state == Monitoring
    ensures var after := PlannedSaved(cfg, desk, t, drafts, draw, g);
            var sid := desk.threads[t].session;
            && Queue(after, sid) == NeedingIds(drafts, draw)
            && forall s :: s in desk.sessions && s != sid ==> Queue(after, s) == Queue(desk, s)
  {
    var sid := desk.threads[t].session;
    var planned, after := PlannedDesk(cfg, desk, sid, drafts, draw), PlannedSaved(cfg, desk, t, drafts, draw, g);
    assert QueueShown(desk, sid);
    assert [] + NeedingIds(drafts, draw) == NeedingIds(drafts, draw);
    forall s | s in desk.sessions
      ensures Queue(after, s) == if s == sid then NeedingIds(drafts, draw) else Queue(desk, s)
    {
      PlannedQueues(cfg, desk, sid, drafts, draw, s);
      assert Queue(after, s) == Queue(planned, s);
    }
  }

  lemma PlannedKeepsInv(cfg: Config, desk: Desk, t: Uid, drafts: seq<Draft>, draw: nat, g: Graph)
    requires Inv(desk) && t in desk.threads && Undrawn(desk.proposals, draw)
    requires desk.sessions[desk.threads[t].session].state == Monitoring
    requires Core(PlannedDesk(cfg, desk, desk.threads[t].session, drafts, draw))
    requires g.scope == ScopeOf(desk, t) && Stopped(g, Head(NeedingIds(drafts, draw)))
    ensures Inv(PlannedSaved(cfg, desk, t, drafts, draw, g))
  {
    var sid := desk.threads[t].session;
    SavedKeepsCore(PlannedDesk(cfg, desk, sid, drafts, draw), t, g);
    RowsSettled(cfg, desk.proposals, sid, drafts, draw);
    PlannedSavedQueues(cfg, desk, t, drafts, draw, g);
    InvAfter(desk, PlannedSaved(cfg, desk, t, drafts, draw, g), t, g);
  }

  function DecidedSaved(cfg: Config, desk: Desk, t: Uid, p: Uid, d: Decision, subject: string, g: Graph): Desk
    requires t in desk.threads && desk.threads[t].session in desk.sessions && p in desk.proposals
  {
    var sid, decided := desk.threads[t].session, DecidedDesk(cfg, desk, p, d, subject);
    Saved(Parked(decided, sid, Head(Queue(decided, sid))), t, g)
  }

  lemma DecidedSavedQueues(cfg: Config, desk: Desk, t: Uid, p: Uid, d: Decision, subject: string, g: Graph)
    requires Core(desk) && t in desk.threads && Heads(desk, desk.threads[t].session, p)
    ensures var after := DecidedSaved(cfg, desk, t, p, d, subject, g);
            var sid := desk.threads[t].session;
            && Queue(after, sid) == Queue(desk, sid)[1..]
            && forall s :: s in desk.sessions && s != sid ==> Queue(after, s) == Queue(desk, s)
  {
    var sid, decided := desk.threads[t].session, DecidedDesk(cfg, desk, p, d, subject);
    var after := DecidedSaved(cfg, desk, t, p, d, subject, g);
    forall s | s in desk.sessions
      ensures Queue(after, s) == if s == sid then Queue(desk, s)[1..] else Queue(desk, s)
    {
      DecisionQueues(cfg, desk, sid, p, d, subject, s);
      assert Queue(after, s) == Queue(decided, s);
    }
  }

  lemma DecidedSavedCore(cfg: Config, desk: Desk, t: Uid, p: Uid, d: Decision, subject: string, g: Graph)
    requires Core(desk) && Settled(desk.proposals)
    requires t in desk.threads && Heads(desk, desk.threads[t].session, p) && g.scope == ScopeOf(desk, t)
    ensures var after := DecidedSaved(cfg, desk, t, p, d, subject, g);
            Core(after) && Settled(after.proposals)
  {
    var sid, decided := desk.threads[t].session, DecidedDesk(cfg, desk, p, d, subject);
    DecidedKeepsCore(cfg, desk, p, d, subject);
    ParkedSavedCore(decided, sid, Head(Queue(decided, sid)), t, g);
    DecidedSettled(cfg, desk.proposals, p, d);
  }

  lemma ParkedSavedCore(desk: Desk, session: Uid, next: Option<Uid>, t: Uid, g: Graph)
    requires Core(desk) && session in desk.sessions && t in desk.threads && g.scope == ScopeOf(desk, t)
    ensures Core(Saved(Parked(desk, session, next), t, g))
  {
    ParkedKeepsCore(desk, session, next);
    SavedKeepsCore(Parked(desk, session, next), t, g);
  }

  lemma DecidedSettled(cfg: Config, proposals: map<Uid, Proposal>, p: Uid, d: Decision)
    requires Settled(proposals) && p in proposals
    ensures Settled(proposals[p := proposals[p].(status := FinalStatus(cfg, d))])
  {
  }

  lemma DecidedKeepsInv(cfg: Config, desk: Desk, t: Uid, p: Uid, d: Decision, subject: string, g: Graph)
    requires Inv(desk) && t in desk.threads && Heads(desk, desk.threads[t].session, p)
    requires g.scope == ScopeOf(desk, t)
    requires Stopped(g, Head(Queue(desk, desk.threads[t].session)[1..]))
    ensures Inv(DecidedSaved(cfg, desk, t, p, d, subject, g))
  {
    DecidedSavedCore(cfg, desk, t, p, d, subject, g);
    DecisionQueues(cfg, desk, desk.threads[t].session, p, d, subject, desk.threads[t].session);
    DecidedSavedQueues(cfg, desk, t, p, d, subject, g);
    InvAfter(desk, DecidedSaved(cfg, desk, t, p, d, subject, g), t, g);
  }
}
