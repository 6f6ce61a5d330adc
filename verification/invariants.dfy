/** What every request keeps: links between rows, one history per status, and no loose proposals. */
module Invariants {
  import opened Options
  import opened Seqs
  import opened Book
  import opened Store
  import opened Workflow

  /** Threads, sessions and checkpoints refer to each other; a session has one thread. */
  ghost predicate LinkedThreads(
      sessions: map<Uid, Session>, threads: map<Uid, Thread>, byAge: seq<Uid>, checkpoints: map<Uid, Graph>)
  {
    && (forall t :: t in threads ==>
          threads[t].session in sessions && sessions[threads[t].session].customer == threads[t].customer)
    && (forall t, u :: t in threads && u in threads && threads[t].session == threads[u].session ==> t == u)
    && (forall t :: t in checkpoints ==>
          t in threads && checkpoints[t].scope == Scope(threads[t].customer, threads[t].session, t))
    && (forall t :: t in byAge <==> t in threads)
  }

  /** Proposals belong to sessions, are listed once, and are all that the journal speaks of. */
  ghost predicate LinkedProposals(
      sessions: map<Uid, Session>, proposals: map<Uid, Proposal>, created: seq<Uid>, journal: seq<Entry>)
  {
    && (forall p :: p in proposals ==> proposals[p].session in sessions)
    && (forall p :: p in created <==> p in proposals)
    && Distinct(created)
    && (forall e :: e in journal ==> e.proposal in proposals)
  }

  /** The decisions and executions of a proposal, exactly, for each of its statuses. */
  predicate HistoryFits(row: Proposal, h: seq<Entry>) {
    match row.status
    case Proposed => h == []
    case Approved => Needs(row) && |h| == 1 && h[0].Decided? && h[0].decision == Approve
    case Rejected => Needs(row) && |h| == 1 && h[0].Decided? && h[0].decision == Reject
    case Deferred => Needs(row) && |h| == 1 && h[0].Decided? && h[0].decision == Revise
    case _ =>
      if Needs(row) then
        |h| == 2 && h[0].Decided? && h[0].decision == Approve && h[1].Ran? && h[1].ok == row.status.Executed?
      else |h| == 1 && h[0].Ran? && h[0].ok == row.status.Executed?
  }

  ghost predicate Recorded(proposals: map<Uid, Proposal>, journal: seq<Entry>) {
    forall p {:trigger Keep(journal, About(p))} ::
      p in proposals ==> HistoryFits(proposals[p], Keep(journal, About(p)))
  }

  /** Holds at every node, also while a request is under way. */
  ghost predicate Core(desk: Desk) {
    && LinkedThreads(desk.sessions, desk.threads, desk.threadsByAge, desk.checkpoints)
    && LinkedProposals(desk.sessions, desk.proposals, desk.created, desk.journal)
    && Recorded(desk.proposals, desk.journal)
  }

  function Head(q: seq<Uid>): Option<Uid> { if q == [] then None else Some(q[0]) }

  /** The session row is exactly what its queue of waiting proposals says. */
  ghost predicate QueueShown(desk: Desk, s: Uid)
    requires s in desk.sessions
  {
    var next := Head(Queue(desk, s));
    desk.sessions[s].pending == next && desk.sessions[s].state == StateFor(next)
  }

  /** No approval is half done, and what still waits needs the customer. */
  ghost predicate Settled(proposals: map<Uid, Proposal>) {
    forall p :: p in proposals ==>
      proposals[p].status != Approved && (proposals[p].status == Proposed ==> Needs(proposals[p]))
  }

  /** Where there is a checkpoint, it and the session row hold the same pending proposal. */
  ghost predicate CopiesAgree(desk: Desk, t: Uid)
    requires t in desk.threads && desk.threads[t].session in desk.sessions
  {
    var s := desk.sessions[desk.threads[t].session];
    t in desk.checkpoints ==>
      if s.state == UserApproval then
        desk.checkpoints[t].place == Waiting && desk.checkpoints[t].pending == s.pending
      else desk.checkpoints[t].place != Waiting && desk.checkpoints[t].pending == None
  }

  /** The invariant between requests. */
  ghost predicate Inv(desk: Desk) {
    && Core(desk)
    && Settled(desk.proposals)
    && (forall s {:trigger QueueShown(desk, s)} :: s in desk.sessions ==> QueueShown(desk, s))
    && (forall t {:trigger CopiesAgree(desk, t)} :: t in desk.threads ==> CopiesAgree(desk, t))
  }

  lemma InvCore(desk: Desk)
    requires Inv(desk)
    ensures Core(desk)
  {
  }

  /* ---------- history ---------- */

  lemma HistoryGrows(journal: seq<Entry>, e: Entry, p: Uid)
    ensures Keep(journal + [e], About(p)) == Keep(journal, About(p)) + (if e.proposal == p then [e] else [])
  {
    KeepAppend(journal, [e], About(p));
    assert Keep([e], About(p)) == if e.proposal == p then [e] else [];
  }

  lemma NoHistory(journal: seq<Entry>, p: Uid)
    requires forall e :: e in journal ==> e.proposal != p
    ensures Keep(journal, About(p)) == []
  {
    KeepNone(journal, About(p));
  }

  lemma RecordedAfterEntry(proposals: map<Uid, Proposal>, journal: seq<Entry>, p: Uid, row: Proposal, e: Entry)
    requires Recorded(proposals, journal) && e.proposal == p
    requires HistoryFits(row, Keep(journal, About(p)) + [e])
    ensures Recorded(proposals[p := row], journal + [e])
  {
    forall q | q in proposals[p := row]
      ensures HistoryFits(proposals[p := row][q], Keep(journal + [e], About(q)))
    {
      HistoryGrows(journal, e, q);
    }
  }

  /** A status change and its row keep the core, if the new status fits the longer history. */
  lemma CoreAfterEntry(desk: Desk, p: Uid, status: Status, e: Entry)
    requires Core(desk) && p in desk.proposals && e.proposal == p
    requires HistoryFits(desk.proposals[p].(status := status), History(desk, p) + [e])
    ensures Core(Write(Mark(desk, p, status), e))
  {
    RecordedAfterEntry(desk.proposals, desk.journal, p, desk.proposals[p].(status := status), e);
  }

  /* ---------- execution ---------- */

  /** Everything an execution leaves alone on the desk. */
  ghost predicate OnlyProposal(desk: Desk, desk': Desk, p: Uid)
    requires p in desk.proposals
  {
    && desk'.customers == desk.customers && desk'.sessions == desk.sessions && desk'.threads == desk.threads
    && desk'.threadsByAge == desk.threadsByAge && desk'.checkpoints == desk.checkpoints
    && desk'.created == desk.created
    && p in desk'.proposals
    && desk'.proposals == desk.proposals[p := desk.proposals[p].(status := desk'.proposals[p].status)]
  }

  predicate Runnable(row: Proposal) {
    row.status == Approved || (row.status == Proposed && !Needs(row))
  }

  lemma ExecuteKeepsCore(cfg: Config, db: Db, p: Uid, newId: Uid)
    requires Core(db.desk) && p in db.desk.proposals && Runnable(db.desk.proposals[p])
    ensures var desk' := Execute(cfg, db, p, newId).desk;
            && Core(desk')
            && OnlyProposal(db.desk, desk', p)
            && desk'.proposals[p].status == StatusAfter(cfg)
            && desk'.journal == db.desk.journal + [RunRow(cfg, p, db.desk.proposals[p].kind)]
  {
    CoreAfterEntry(db.desk, p, StatusAfter(cfg), RunRow(cfg, p, db.desk.proposals[p].kind));
  }

  lemma RunsInHistory(h: seq<Entry>, row: Proposal, p: Uid)
    requires HistoryFits(row, h) && forall e :: e in h ==> e.proposal == p
    ensures var runs := Keep(h, RunOf(p));
            if row.status == Executed || row.status == Failed
            then |runs| == 1 && runs[0].Ran? && runs[0].ok == row.status.Executed?
            else runs == []
  {
    if |h| == 2 {
      assert h == [h[0], h[1]] && h[1..] == [h[1]] && h[1..][1..] == [];
      assert h[1] in h;
    } else if |h| == 1 {
      assert h == [h[0]] && h[1..] == [];
      assert h[0] in h;
    }
  }

  /**
   * At most one execution: exactly one execution row when the status is executed or failed, with
   * the matching outcome, and none otherwise.
   */
  lemma ExecutionRows(desk: Desk, p: Uid)
    requires Core(desk) && p in desk.proposals
    ensures var runs := Keep(desk.journal, RunOf(p));
            var status := desk.proposals[p].status;
            if status == Executed || status == Failed
            then |runs| == 1 && runs[0].Ran? && runs[0].ok == status.Executed?
            else runs == []
  {
    KeepNarrower(desk.journal, About(p), RunOf(p));
    RunsInHistory(History(desk, p), desk.proposals[p], p);
  }

  /**
   * Repeating an execution writes nothing: the existing row of an executed proposal is returned,
   * and failed, rejected and deferred proposals are refused.
   */
  lemma ExecutedAtMostOnce(cfg: Config, db: Db, p: Uid, customer: string, requireApproval: bool, newId: Uid)
    requires Core(db.desk) && p in db.desk.proposals
    requires db.desk.proposals[p].status != Proposed && db.desk.proposals[p].status != Approved
    ensures match ExecuteScoped(cfg, db, p, customer, requireApproval, newId)
            case Refused(code) => code == 403 || code == 409
            case Done(db', run) =>
              db' == db && db.desk.proposals[p].status == Executed && Keep(db.desk.journal, RunOf(p)) == [run]
  {
    ExecutionRows(db.desk, p);
  }
}
