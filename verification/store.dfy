/** The rows the approval workflow works on, the checkpoints beside them, and the configuration. */
module Store {
  import opened Options
  import opened Seqs
  import opened Policy
  import opened Book
  import opened Proposals
  import opened Planner
  import Token

  datatype SessionState = Monitoring | UserApproval

  datatype Session = Session(customer: string, state: SessionState, pending: Option<Uid>)

  /** The namespace a run is confined to; the tenant is one constant. */
  datatype Scope = Scope(customer: string, session: Uid, thread: Uid)

  datatype Thread = Thread(customer: string, session: Uid, active: bool, hash: string)

  datatype Status = Proposed | Approved | Rejected | Deferred | Executed | Failed

  datatype Proposal = Proposal(session: Uid, kind: Kind, external: bool, params: Params, status: Status)

  datatype Decision = Approve | Reject | Revise

  /** The executor named in an execution row; every action kind has a mock handler of its own. */
  datatype Handler = ExternalRequestExecutor | MockHandler(kind: Kind)

  /** Rows of the two append-only tables, approval decisions and executions, in the order written. */
  datatype Entry =
    | Decided(proposal: Uid, decision: Decision, subject: string)
    | Ran(proposal: Uid, handler: Handler, ok: bool)

  /** What the customer's answer puts into the graph state. */
  datatype Answer = Answer(decision: Decision, proposal: Option<Uid>)

  /** Where LangGraph left a thread: waiting at the interrupt, at the end, or where a node raised. */
  datatype Place = Waiting | Ended | Broken

  /** The checkpointed graph state; a node's returned keys overwrite it. */
  datatype Graph = Graph(
    scope: Scope,
    source: Source,
    payload: Payload,
    context: Option<Context>,
    signal: Option<Signal>,
    plan: seq<Item>,
    proposalIds: seq<Uid>,
    pending: Option<Uid>,
    answer: Option<Answer>,
    results: seq<Entry>,
    place: Place)

  /** `threadsByAge` and `created` list ids by creation time, as the ordered queries return them. */
  datatype Desk = Desk(
    customers: map<string, Facts>,
    sessions: map<Uid, Session>,
    threads: map<Uid, Thread>,
    threadsByAge: seq<Uid>,
    checkpoints: map<Uid, Graph>,
    proposals: map<Uid, Proposal>,
    created: seq<Uid>,
    journal: seq<Entry>)

  datatype Db = Db(desk: Desk, book: Book)

  datatype Mode = MockApply | ExternalRequest

  /**
   * The planning worker: the local planner, or a foreign process, which may be any function of
   * the detected signal, the customer's context and a seed that resolves its nondeterminism;
   * `None` is a failed job.
   */
  datatype Worker = LocalStub | Foreign(job: (Signal, Context, nat) -> Option<seq<Item>>)

  datatype Config = Config(
    mode: Mode,
    local: bool,
    digest: Scope -> string,
    before: (string, string) -> bool,
    worker: Worker)
  {
    function Agent(signal: Signal, ctx: Context, seed: nat): Option<seq<Item>> {
      match worker
      case LocalStub => Some(StubPlan(signal, ctx))
      case Foreign(job) => job(signal, ctx, seed)
    }
  }

  /** Who asks, the block of uuids the request draws from, and the agent's seed. */
  datatype Env = Env(principal: Token.Principal, draw: nat, seed: nat)

  /** Sums over no rows are zero. */
  function FactsOf(desk: Desk, customer: string): Facts {
    if customer in desk.customers then desk.customers[customer] else Facts(0, 0, 0)
  }

  predicate Needs(p: Proposal) { NeedsApproval(p.external, p.kind) }

  predicate CanAccess(principal: Token.Principal, customer: string) {
    principal.role.Advisor? || principal.role.Operator? || principal.customer == Some(customer)
  }

  function ProposalId(draw: nat, i: nat): Uid { Uid(draw, ForProposal, i) }

  function PolicyId(draw: nat, i: nat): Uid { Uid(draw, ForPolicy, i) }

  /** Rows of `select ... where proposal_id = p`. */
  function About(p: Uid): Entry -> bool { (e: Entry) => e.proposal == p }

  function RunOf(p: Uid): Entry -> bool { (e: Entry) => e.Ran? && e.proposal == p }

  function AwaitsApproval(proposals: map<Uid, Proposal>, session: Uid): Uid -> bool {
    (p: Uid) => p in proposals && proposals[p].session == session && proposals[p].status == Proposed
                && Needs(proposals[p])
  }

  /** The session's proposals that wait for the customer, oldest first. */
  function Queue(desk: Desk, session: Uid): seq<Uid> {
    Keep(desk.created, AwaitsApproval(desk.proposals, session))
  }

  function History(desk: Desk, p: Uid): seq<Entry> { Keep(desk.journal, About(p)) }
}
