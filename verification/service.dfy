/** Requests: scope resolution, the state gates in front of the graph, and whole runs. */
module Service {
  import opened Options
  import opened Seqs
  import opened Book
  import opened Planner
  import opened Store
  import opened Workflow
  import Token

  /** What a thread's page is shown: its session, the session's proposals, and their executions. */
  datatype View = View(
    thread: Uid,
    session: Uid,
    customer: string,
    state: SessionState,
    pending: Option<Uid>,
    proposals: seq<(Uid, Proposal)>,
    executions: seq<Entry>)

  /** A refusal, a serialized thread, or nobody to reply to. */
  datatype Reply = Http(code: nat) | Serialized(view: View) | NoReply

  function ScopeOf(desk: Desk, t: Uid): Scope
    requires t in desk.threads
  {
    Scope(desk.threads[t].customer, desk.threads[t].session, t)
  }

  /** `resolve_thread`: nothing is done for a thread before these checks; 0 means resolved. */
  function Resolve(cfg: Config, desk: Desk, t: Uid, principal: Token.Principal): (code: nat)
    ensures code == 0 ==> t in desk.threads && desk.threads[t].session in desk.sessions
  {
    if t !in desk.threads || !desk.threads[t].active then 404
    else
      var thread := desk.threads[t];
      if !CanAccess(principal, thread.customer) then 403
      else if thread.session !in desk.sessions || desk.sessions[thread.session].customer != thread.customer then 403
      else if thread.hash != "" && thread.hash != cfg.digest(ScopeOf(desk, t)) then 403
      else 0
  }

  function SessionOf(desk: Desk, t: Uid): Session
    requires t in desk.threads && desk.threads[t].session in desk.sessions
  {
    desk.sessions[desk.threads[t].session]
  }

  function InSession(proposals: map<Uid, Proposal>, s: Uid): Uid -> bool {
    (p: Uid) => p in proposals && proposals[p].session == s
  }

  function RanIn(proposals: map<Uid, Proposal>, s: Uid): Entry -> bool {
    (e: Entry) => e.Ran? && e.proposal in proposals && proposals[e.proposal].session == s
  }

  /** The rows of `ids`, each with its id. */
  function Listed(ids: seq<Uid>, proposals: map<Uid, Proposal>): seq<(Uid, Proposal)> {
    if ids == [] then []
    else (if ids[0] in proposals then [(ids[0], proposals[ids[0]])] else []) + Listed(ids[1..], proposals)
  }

  /** `serialize_thread`: everything a reply tells about a thread. */
  function Describe(desk: Desk, t: Uid): Reply {
    if t in desk.threads && desk.threads[t].session in desk.sessions then
      var s, row := desk.threads[t].session, SessionOf(desk, t);
      Serialized(View(t, s, desk.threads[t].customer, row.state, row.pending,
                      Listed(Keep(desk.created, InSession(desk.proposals, s)), desk.proposals),
                      Keep(desk.journal, RanIn(desk.proposals, s))))
    else Http(404)
  }

  /** A reply that shows thread `t` in this state. */
  predicate Says(reply: Reply, t: Uid, state: SessionState, pending: Option<Uid>) {
    reply.Serialized? && reply.view.thread == t && reply.view.state == state && reply.view.pending == pending
  }

  function ReadThread(cfg: Config, db: Db, t: Uid, env: Env): (Db, Reply) {
    var code := Resolve(cfg, db.desk, t, env.principal);
    (db, if code != 0 then Http(code) else Describe(db.desk, t))
  }

  /** The input's keys overwrite what an earlier run of the thread left behind. */
  function Begin(desk: Desk, t: Uid, source: Source, payload: Payload): Graph
    requires t in desk.threads
  {
    if t in desk.checkpoints then
      desk.checkpoints[t].(scope := ScopeOf(desk, t), source := source, payload := payload, results := [])
    else
      Graph(ScopeOf(desk, t), source, payload, None, None, [], [], None, None, [], Broken)
  }

  /** The checkpointer saves where the run stopped. */
  function Save(stop: Stop, t: Uid): (Db, Reply) {
    var db := stop.db.(desk := stop.db.desk.(checkpoints := stop.db.desk.checkpoints[t := stop.g]));
    (db, if stop.Failure? then Http(stop.code) else Describe(db.desk, t))
  }

  function TriggerEvent(cfg: Config, db: Db, t: Uid, env: Env, source: Source, payload: Payload): (Db, Reply) {
    var code := Resolve(cfg, db.desk, t, env.principal);
    if code != 0 then (db, Http(code))
    else if SessionOf(db.desk, t).state == UserApproval then (db, Http(409))
    else Save(Drive(cfg, env, db, Begin(db.desk, t, source, payload), DataRefresh, None), t)
  }

  function SubmitDecision(cfg: Config, db: Db, t: Uid, env: Env, decision: Decision, target: Option<Uid>): (Db, Reply) {
    var code := Resolve(cfg, db.desk, t, env.principal);
    if code != 0 then (db, Http(code))
    else
      var s := SessionOf(db.desk, t);
      if s.state != UserApproval || s.pending.None? then (db, Http(409))
      else if target.Some? && target != s.pending then (db, Http(409))
      else if t !in db.desk.checkpoints || db.desk.checkpoints[t].place != Waiting then (db, Http(500))
      else Save(Drive(cfg, env, db, db.desk.checkpoints[t], ApprovalInterrupt, Some(Answer(decision, s.pending))), t)
  }

  /** A chat message: recorded while an approval is open, a signal otherwise. */
  function PostMessage(cfg: Config, db: Db, t: Uid, env: Env, text: string): (Db, Reply) {
    var code := Resolve(cfg, db.desk, t, env.principal);
    if code != 0 then (db, Http(code))
    else if SessionOf(db.desk, t).state == UserApproval then (db, Describe(db.desk, t))
    else TriggerEvent(cfg, db, t, env, FromUser, Payload("", text))
  }

  /* ---------- threads ---------- */

  function ActiveOf(desk: Desk, customer: string): Uid -> bool {
    (t: Uid) => t in desk.threads && desk.threads[t].customer == customer && desk.threads[t].active
  }

  function AwaitingIn(desk: Desk): Uid -> bool {
    (t: Uid) => t in desk.threads && desk.threads[t].session in desk.sessions
                && desk.sessions[desk.threads[t].session].state == UserApproval
  }

  function Newest(ts: seq<Uid>): Option<Uid> {
    if ts == [] then None else Some(ts[|ts| - 1])
  }

  /** Of the active threads the newest that waits for an approval, else the newest. */
  function PickReusable(desk: Desk, customer: string): Option<Uid> {
    var active := Keep(desk.threadsByAge, ActiveOf(desk, customer));
    var waiting := Keep(active, AwaitingIn(desk));
    if waiting != [] then Newest(waiting) else Newest(active)
  }

  function Stale(desk: Desk, t: Uid): Desk
    requires t in desk.threads
  {
    desk.(threads := desk.threads[t := desk.threads[t].(active := false)])
  }

  /** A new session and its thread. */
  function Open(cfg: Config, desk: Desk, customer: string, draw: nat): Desk {
    var sid, tid := Uid(draw, ForSession, 0), Uid(draw, ForThread, 0);
    desk.(sessions := desk.sessions[sid := Session(customer, Monitoring, None)],
          threads := desk.threads[tid := Thread(customer, sid, true, cfg.digest(Scope(customer, sid, tid)))],
          threadsByAge := desk.threadsByAge + [tid])
  }

  function Opened(db: Db, desk: Desk, draw: nat): (Db, Reply) {
    (db.(desk := desk), Describe(desk, Uid(draw, ForThread, 0)))
  }

  function CreateOrReuse(cfg: Config, db: Db, customer: string, principal: Token.Principal, forceNew: bool, draw: nat)
    : (Db, Reply)
  {
    if customer !in db.desk.customers then (db, Http(404))
    else if !CanAccess(principal, customer) then (db, Http(403))
    else
      match (if forceNew then None else PickReusable(db.desk, customer))
      case None => Opened(db, Open(cfg, db.desk, customer, draw), draw)
      case Some(t) =>
        if cfg.local && t !in db.desk.checkpoints && t in db.desk.threads then
          Opened(db, Open(cfg, Stale(db.desk, t), customer, draw), draw)
        else (db, Describe(db.desk, t))
  }

  /* ---------- steps and runs ---------- */

  datatype Request =
    | Create(env: Env, customer: string, forceNew: bool)
    | Event(env: Env, thread: Uid, source: Source, payload: Payload)
    | Message(env: Env, thread: Uid, text: string)
    | Decide(env: Env, thread: Uid, decision: Decision, target: Option<Uid>)
    | Read(env: Env, thread: Uid)
    | Restart(env: Env)

  /** The checkpoints are kept in memory: a restart of the process loses them all, and nothing else. */
  function Restarted(desk: Desk): Desk { desk.(checkpoints := map[]) }

  /** One request, from the route to the reply. Event routes are for operators only. */
  function Serve(cfg: Config, db: Db, r: Request): (Db, Reply) {
    match r
    case Create(env, customer, forceNew) => CreateOrReuse(cfg, db, customer, env.principal, forceNew, env.draw)
    case Event(env, t, source, payload) =>
      if !env.principal.role.Operator? then (db, Http(403)) else TriggerEvent(cfg, db, t, env, source, payload)
    case Message(env, t, text) => PostMessage(cfg, db, t, env, text)
    case Decide(env, t, decision, target) => SubmitDecision(cfg, db, t, env, decision, target)
    case Read(env, t) => ReadThread(cfg, db, t, env)
    case Restart(_) => (db.(desk := Restarted(db.desk)), NoReply)
  }

  function Run(cfg: Config, db: Db, rs: seq<Request>): Db
    decreases |rs|
  {
    if rs == [] then db else Run(cfg, Serve(cfg, db, rs[0]).0, rs[1..])
  }
}
