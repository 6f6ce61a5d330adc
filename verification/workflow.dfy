/** The executor's gate, the graph's nodes and edges, and the run of a graph to its next stop. */
module Workflow {
  import opened Options
  import opened Seqs
  import opened Policy
  import opened Book
  import opened Proposals
  import opened Planner
  import opened Store

  /* ---------- executor ---------- */

  function Mark(desk: Desk, p: Uid, status: Status): Desk
    requires p in desk.proposals
  {
    desk.(proposals := desk.proposals[p := desk.proposals[p].(status := status)])
  }

  function Write(desk: Desk, e: Entry): Desk { desk.(journal := desk.journal + [e]) }

  function HandlerFor(mode: Mode, kind: Kind): Handler {
    if mode.ExternalRequest? then ExternalRequestExecutor else MockHandler(kind)
  }

  /** The execution row: mock handlers succeed, external requests are not implemented and fail. */
  function RunRow(cfg: Config, p: Uid, kind: Kind): Entry {
    Ran(p, HandlerFor(cfg.mode, kind), cfg.mode.MockApply?)
  }

  function StatusAfter(cfg: Config): Status { if cfg.mode.MockApply? then Executed else Failed }

  /** `execute`: run the handler, set the status, add the row. */
  function Execute(cfg: Config, db: Db, p: Uid, newId: Uid): Db
    requires p in db.desk.proposals && db.desk.proposals[p].session in db.desk.sessions
  {
    var row := db.desk.proposals[p];
    var customer := db.desk.sessions[row.session].customer;
    Db(Write(Mark(db.desk, p, StatusAfter(cfg)), RunRow(cfg, p, row.kind)),
       if cfg.mode.MockApply? then Handle(db.book, customer, row.kind, row.params, newId, cfg.before)
       else db.book)
  }

  datatype Gate = Done(db: Db, run: Entry) | Refused(code: nat)

  /** `execute_scoped`: authority is derived from the rows again before anything runs. */
  function ExecuteScoped(cfg: Config, db: Db, p: Uid, customer: string, requireApproval: bool, newId: Uid): Gate {
    if p !in db.desk.proposals then Refused(404)
    else
      var row := db.desk.proposals[p];
      if row.session !in db.desk.sessions || db.desk.sessions[row.session].customer != customer then Refused(403)
      else if row.status == Executed then
        var runs := Keep(db.desk.journal, RunOf(p));
        if runs != [] then Done(db, runs[0]) else Refused(409)
      else if row.status != Proposed && row.status != Approved then Refused(409)
      else if Needs(row) && requireApproval && row.status != Approved then Refused(409)
      else if Needs(row) && !requireApproval then Refused(409)
      else Done(Execute(cfg, db, p, newId), RunRow(cfg, p, row.kind))
  }

  /* ---------- policy_check ---------- */

  function NewRow(session: Uid, draft: Draft): Proposal {
    Proposal(session, draft.kind, draft.external, draft.params, Proposed)
  }

  function Insert(desk: Desk, p: Uid, row: Proposal): Desk {
    desk.(proposals := desk.proposals[p := row], created := desk.created + [p])
  }

  /** `_persist_plan`: a row per item, in plan order. */
  function Persisted(desk: Desk, session: Uid, drafts: seq<Draft>, draw: nat): Desk {
    if drafts == [] then desk
    else
      var last := |drafts| - 1;
      Insert(Persisted(desk, session, drafts[..last], draw), ProposalId(draw, last), NewRow(session, drafts[last]))
  }

  function NewIds(draw: nat, n: nat): (ids: seq<Uid>)
    ensures |ids| == n
    ensures forall i :: 0 <= i < n ==> ids[i] == ProposalId(draw, i)
  {
    seq(n, i requires 0 <= i < n => ProposalId(draw, i))
  }

  datatype Sweep = Sweep(db: Db, pending: Option<Uid>, runs: seq<Entry>, code: Option<nat>)

  /** One turn of the loop over the stored proposals: run what needs no approval, remember the first that does. */
  function Turn(cfg: Config, s: Sweep, customer: string, draw: nat, i: nat): Sweep {
    var p := ProposalId(draw, i);
    if s.code.Some? then s
    else if p in s.db.desk.proposals && Needs(s.db.desk.proposals[p]) then
      if s.pending.None? then s.(pending := Some(p)) else s
    else
      match ExecuteScoped(cfg, s.db, p, customer, false, PolicyId(draw, i))
      case Done(db', run) => s.(db := db', runs := s.runs + [run])
      case Refused(code) => s.(code := Some(code))
  }

  /** The loop after `n` turns. */
  function Swept(cfg: Config, db: Db, customer: string, draw: nat, n: nat): Sweep {
    if n == 0 then Sweep(db, None, [], None)
    else Turn(cfg, Swept(cfg, db, customer, draw, n - 1), customer, draw, n - 1)
  }

  function StateFor(pending: Option<Uid>): SessionState {
    if pending.Some? then UserApproval else Monitoring
  }

  /** The session row once the next pending proposal is known. */
  function Parked(desk: Desk, session: Uid, pending: Option<Uid>): Desk
    requires session in desk.sessions
  {
    desk.(sessions := desk.sessions[session := desk.sessions[session].(pending := pending, state := StateFor(pending))])
  }

  /* ---------- nodes ---------- */

  datatype Node =
    | DataRefresh | SignalDetect | SignalGate | BuildContext | SpawnAgent | ValidateOutput
    | PolicyCheck | ApprovalInterrupt | ExecuteAction | VerifyResult | UpdateMemory | End

  datatype Effect =
    | Next(db: Db, g: Graph)
    | Pause
    | Raise(db: Db, code: nat)

  function RefreshData(db: Db, g: Graph): Effect {
    if g.scope.session !in db.desk.sessions then Raise(db, 404)
    else
      var s := db.desk.sessions[g.scope.session];
      if s.customer != g.scope.customer then Raise(db, 403)
      else Next(db, g.(context := Some(ReadContext(db.book, s.customer, FactsOf(db.desk, s.customer)))))
  }

  function DetectSignal(db: Db, g: Graph): Effect {
    if g.scope.session !in db.desk.sessions || g.context.None? then Raise(db, 404)
    else Next(db, g.(signal := Some(Detect(g.source, g.payload, g.context.value))))
  }

  function SpawnJob(cfg: Config, env: Env, db: Db, g: Graph): Effect {
    if g.scope.session !in db.desk.sessions || g.context.None? || g.signal.None? then Raise(db, 404)
    else match cfg.Agent(g.signal.value, g.context.value, env.seed)
      case Some(items) => Next(db, g.(plan := items))
      case None => Raise(db, 500)
  }

  function OnlyLogs(db: Db, g: Graph): Effect {
    if g.scope.session !in db.desk.sessions then Raise(db, 404) else Next(db, g)
  }

  function CheckPolicy(cfg: Config, env: Env, db: Db, g: Graph): Effect {
    CheckDrafts(cfg, env, db, g, Drafts(g.plan))
  }

  function CheckDrafts(cfg: Config, env: Env, db: Db, g: Graph, drafts: seq<Draft>): Effect {
    var sid := g.scope.session;
    if sid !in db.desk.sessions then Raise(db, 404)
    else
      var stored := db.(desk := Persisted(db.desk, sid, drafts, env.draw));
      var s := Swept(cfg, stored, db.desk.sessions[sid].customer, env.draw, |drafts|);
      if s.code.Some? then Raise(s.db, s.code.value)
      else if sid !in s.db.desk.sessions then Raise(s.db, 404)
      else Next(s.db.(desk := Parked(s.db.desk, sid, s.pending)),
                g.(proposalIds := NewIds(env.draw, |drafts|), pending := s.pending))
  }

  /** First visit: stop and ask. Resumed: take the answer. Without a pending proposal: skip. */
  function AskApproval(db: Db, g: Graph, resume: Option<Answer>): Effect {
    match g.pending
    case None => Next(db, g)
    case Some(p) =>
      if g.scope.session !in db.desk.sessions || p !in db.desk.proposals then Raise(db, 404)
      else match resume
        case None => Pause
        case Some(a) => Next(db, g.(answer := Some(a)))
  }

  function DecidedStatus(d: Decision): Status {
    match d case Approve => Approved case Reject => Rejected case Revise => Deferred
  }

  function TakeDecision(cfg: Config, env: Env, db: Db, g: Graph): Effect {
    var sid := g.scope.session;
    if sid !in db.desk.sessions then Raise(db, 404)
    else match g.pending
      case None => Next(db, g)
      case Some(p) =>
        if g.answer.Some? && g.answer.value.proposal.Some? && g.answer.value.proposal.value != p then Raise(db, 409)
        else if p !in db.desk.proposals then Raise(db, 404)
        else if g.answer.None? then Raise(db, 400)
        else
          var d := g.answer.value.decision;
          var noted := Write(Mark(db.desk, p, DecidedStatus(d)), Decided(p, d, env.principal.subject));
          match d
          case Approve => (
            match ExecuteScoped(cfg, db.(desk := noted), p, db.desk.sessions[sid].customer, true, PolicyId(env.draw, 0))
            case Done(db', run) => Advance(db', g.(results := g.results + [run]))
            case Refused(code) => Raise(db.(desk := noted), code))
          case _ => Advance(db.(desk := noted), g)
  }

  /** Pick the session's next pending proposal, oldest first, and park it. */
  function Advance(db: Db, g: Graph): Effect {
    var sid := g.scope.session;
    if sid !in db.desk.sessions then Raise(db, 404)
    else
      var queue := Queue(db.desk, sid);
      var next := if queue == [] then None else Some(queue[0]);
      Next(db.(desk := Parked(db.desk, sid, next)), g.(pending := next, answer := None))
  }

  function Remember(db: Db, g: Graph): Effect {
    var sid := g.scope.session;
    if sid !in db.desk.sessions then Raise(db, 404)
    else
      var s := db.desk.sessions[sid];
      Next(if s.pending.None?
           then db.(desk := db.desk.(sessions := db.desk.sessions[sid := s.(state := Monitoring)]))
           else db, g)
  }

  function RunNode(cfg: Config, env: Env, db: Db, g: Graph, node: Node, resume: Option<Answer>): Effect {
    match node
    case DataRefresh => RefreshData(db, g)
    case SignalDetect => DetectSignal(db, g)
    case SignalGate => OnlyLogs(db, g)
    case BuildContext => OnlyLogs(db, g)
    case SpawnAgent => SpawnJob(cfg, env, db, g)
    case ValidateOutput => OnlyLogs(db, g)
    case PolicyCheck => CheckPolicy(cfg, env, db, g)
    case ApprovalInterrupt => AskApproval(db, g, resume)
    case ExecuteAction => TakeDecision(cfg, env, db, g)
    case VerifyResult => OnlyLogs(db, g)
    case UpdateMemory => Remember(db, g)
    case End => Next(db, g)
  }

  /** The graph's edges; two of them depend on the pending proposal. */
  function Edge(node: Node, g: Graph): Node {
    match node
    case DataRefresh => SignalDetect
    case SignalDetect => SignalGate
    case SignalGate => BuildContext
    case BuildContext => SpawnAgent
    case SpawnAgent => ValidateOutput
    case ValidateOutput => PolicyCheck
    case PolicyCheck => if g.pending.Some? then ApprovalInterrupt else VerifyResult
    case ApprovalInterrupt => ExecuteAction
    case ExecuteAction => if g.pending.Some? then ApprovalInterrupt else VerifyResult
    case VerifyResult => UpdateMemory
    case UpdateMemory => End
    case End => End
  }

  /** Distance to the next stop when no answer is at hand. */
  function Rank(node: Node, g: Graph): nat {
    match node
    case DataRefresh => 12
    case SignalDetect => 11
    case SignalGate => 10
    case BuildContext => 9
    case SpawnAgent => 8
    case ValidateOutput => 7
    case PolicyCheck => 6
    case ApprovalInterrupt => if g.pending.Some? then 3 else 5
    case ExecuteAction => 4
    case VerifyResult => 2
    case UpdateMemory => 1
    case End => 0
  }

  datatype Stop =
    | Paused(db: Db, g: Graph)
    | Finished(db: Db, g: Graph)
    | Failure(db: Db, g: Graph, code: nat)

  /** What is left of the answer after a node ran: the interrupt consumes it. */
  function Left(node: Node, g: Graph, resume: Option<Answer>): Option<Answer> {
    if node.ApprovalInterrupt? && g.pending.Some? then None else resume
  }

  /** Along every edge the run comes closer to a stop, or the answer has been used up. */
  lemma Closer(cfg: Config, env: Env, db: Db, g: Graph, node: Node, resume: Option<Answer>)
    requires !node.End? && RunNode(cfg, env, db, g, node, resume).Next?
    ensures var g' := RunNode(cfg, env, db, g, node, resume).g;
            || (resume.Some? && Left(node, g, resume).None?)
            || (Left(node, g, resume) == resume && Rank(Edge(node, g'), g') < Rank(node, g))
  {
    var g' := RunNode(cfg, env, db, g, node, resume).g;
    if node.ApprovalInterrupt? {
      assert AskApproval(db, g, resume).Next?;
    } else {
      EdgeCloser(node, g, g');
    }
  }

  lemma EdgeCloser(node: Node, g: Graph, g': Graph)
    requires !node.End? && !node.ApprovalInterrupt?
    ensures Rank(Edge(node, g'), g') < Rank(node, g)
  {
  }

  /** The approval loop always reaches a stop: this is a total function. */
  function Drive(cfg: Config, env: Env, db: Db, g: Graph, node: Node, resume: Option<Answer>): Stop
    decreases resume.Some?, Rank(node, g)
  {
    if node.End? then Finished(db, g.(place := Ended))
    else
      match RunNode(cfg, env, db, g, node, resume)
      case Next(db', g') =>
        Closer(cfg, env, db, g, node, resume);
        Drive(cfg, env, db', g', Edge(node, g'), Left(node, g, resume))
      case Pause => Paused(db, g.(place := Waiting))
      case Raise(db', code) => Failure(db', g.(place := Broken), code)
  }
}
