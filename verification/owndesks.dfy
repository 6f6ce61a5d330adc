/** One customer's part of the workflow tables, and what the requests make of it. */
module OwnDesks {
  import opened Options
  import opened Seqs
  import opened Book
  import opened Proposals
  import opened Store
  import opened Workflow
  import opened Service
  import opened Invariants
  import opened Planning
  import opened Stepping

  predicate OwnsSession(sessions: map<Uid, Session>, c: string, s: Uid) {
    s in sessions && sessions[s].customer == c
  }

  function ThreadHeldBy(threads: map<Uid, Thread>, c: string): Uid -> bool {
    (t: Uid) => t in threads && threads[t].customer == c
  }

  function ProposalHeldBy(proposals: map<Uid, Proposal>, sessions: map<Uid, Session>, c: string): Uid -> bool {
    (p: Uid) => p in proposals && OwnsSession(sessions, c, proposals[p].session)
  }

  function EntryHeldBy(proposals: map<Uid, Proposal>, sessions: map<Uid, Session>, c: string): Entry -> bool {
    (e: Entry) => e.proposal in proposals && OwnsSession(sessions, c, proposals[e.proposal].session)
  }

  function OwnSessions(sessions: map<Uid, Session>, c: string): map<Uid, Session> {
    map s | s in sessions && sessions[s].customer == c :: sessions[s]
  }

  function OwnThreads(threads: map<Uid, Thread>, c: string): map<Uid, Thread> {
    map t | t in threads && threads[t].customer == c :: threads[t]
  }

  function OwnCheckpoints(checkpoints: map<Uid, Graph>, threads: map<Uid, Thread>, c: string): map<Uid, Graph> {
    map t | t in checkpoints && ThreadHeldBy(threads, c)(t) :: checkpoints[t]
  }

  function OwnProposals(proposals: map<Uid, Proposal>, sessions: map<Uid, Session>, c: string): map<Uid, Proposal> {
    map p | p in proposals && OwnsSession(sessions, c, proposals[p].session) :: proposals[p]
  }

  /** The rows of customer `c`. */
  function OwnDesk(desk: Desk, c: string): Desk {
    Desk(map k | k in desk.customers && k == c :: desk.customers[k],
         OwnSessions(desk.sessions, c),
         OwnThreads(desk.threads, c),
         Keep(desk.threadsByAge, ThreadHeldBy(desk.threads, c)),
         OwnCheckpoints(desk.checkpoints, desk.threads, c),
         OwnProposals(desk.proposals, desk.sessions, c),
         Keep(desk.created, ProposalHeldBy(desk.proposals, desk.sessions, c)),
         Keep(desk.journal, EntryHeldBy(desk.proposals, desk.sessions, c)))
  }

  /* ---------- queues and histories ---------- */

  lemma OwnQueue(desk: Desk, c: string, s: Uid)
    requires OwnsSession(desk.sessions, c, s)
    ensures Queue(OwnDesk(desk, c), s) == Queue(desk, s)
  {
    var own := OwnDesk(desk, c);
    var held, awaits := ProposalHeldBy(desk.proposals, desk.sessions, c), AwaitsApproval(desk.proposals, s);
    KeepNarrower(desk.created, held, awaits);
    KeepCongruent(own.created, AwaitsApproval(own.proposals, s), awaits);
  }

  lemma OwnHistory(desk: Desk, c: string, p: Uid)
    requires ProposalHeldBy(desk.proposals, desk.sessions, c)(p)
    ensures History(OwnDesk(desk, c), p) == History(desk, p)
  {
    KeepNarrower(desk.journal, EntryHeldBy(desk.proposals, desk.sessions, c), About(p));
  }

  /* ---------- the invariant ---------- */

  lemma OwnLinksThreads(desk: Desk, c: string)
    requires LinkedThreads(desk.sessions, desk.threads, desk.threadsByAge, desk.checkpoints)
    ensures var own := OwnDesk(desk, c);
            LinkedThreads(own.sessions, own.threads, own.threadsByAge, own.checkpoints)
  {
  }

  lemma OwnLinksProposals(desk: Desk, c: string)
    requires LinkedProposals(desk.sessions, desk.proposals, desk.created, desk.journal)
    ensures var own := OwnDesk(desk, c);
            LinkedProposals(own.sessions, own.proposals, own.created, own.journal)
  {
    KeepDistinct(desk.created, ProposalHeldBy(desk.proposals, desk.sessions, c));
  }

  lemma OwnRecorded(desk: Desk, c: string)
    requires Recorded(desk.proposals, desk.journal)
    ensures var own := OwnDesk(desk, c); Recorded(own.proposals, own.journal)
  {
    var own := OwnDesk(desk, c);
    forall p | p in own.proposals ensures HistoryFits(own.proposals[p], Keep(own.journal, About(p))) {
      OwnHistory(desk, c, p);
    }
  }

  lemma OwnQueuesShown(desk: Desk, c: string)
    requires AllQueuesShown(desk)
    ensures AllQueuesShown(OwnDesk(desk, c))
  {
    var own := OwnDesk(desk, c);
    forall s | s in own.sessions ensures QueueShown(own, s) {
      assert QueueShown(desk, s);
      OwnQueue(desk, c, s);
    }
  }

  lemma OwnCopies(desk: Desk, c: string)
    requires LinkedThreads(desk.sessions, desk.threads, desk.threadsByAge, desk.checkpoints) && AllCopiesAgree(desk)
    ensures var own := OwnDesk(desk, c);
            (forall t :: t in own.threads ==> own.threads[t].session in own.sessions) && AllCopiesAgree(own)
  {
    var own := OwnDesk(desk, c);
    forall t | t in own.threads ensures own.threads[t].session in own.sessions && CopiesAgree(own, t) {
      assert CopiesAgree(desk, t);
    }
  }

  /** One customer's part of a good state is a good state. */
  lemma OwnKeepsInv(desk: Desk, c: string)
    requires Inv(desk)
    ensures Inv(OwnDesk(desk, c))
  {
    hide LinkedProposals, Recorded, QueueShown, CopiesAgree, LinkedThreads;
    OwnLinksThreads(desk, c);
    OwnLinksProposals(desk, c);
    OwnRecorded(desk, c);
    OwnQueuesShown(desk, c);
    OwnCopies(desk, c);
  }

  /* ---------- updates, table by table ---------- */

  lemma SessionUpdated(sessions: map<Uid, Session>, s: Uid, row: Session, c: string)
    requires s in sessions && row.customer == sessions[s].customer
    ensures OwnSessions(sessions[s := row], c)
            == if row.customer == c then OwnSessions(sessions, c)[s := row] else OwnSessions(sessions, c)
    ensures forall x :: OwnsSession(sessions[s := row], c, x) == OwnsSession(sessions, c, x)
  {
  }

  lemma CheckpointUpdated(checkpoints: map<Uid, Graph>, threads: map<Uid, Thread>, t: Uid, g: Graph, c: string)
    requires t in threads
    ensures OwnCheckpoints(checkpoints[t := g], threads, c)
            == if threads[t].customer == c then OwnCheckpoints(checkpoints, threads, c)[t := g]
               else OwnCheckpoints(checkpoints, threads, c)
  {
  }

  /** The three proposal tables depend on the sessions only through their customers. */
  lemma SameOwners(desk: Desk, sessions: map<Uid, Session>, c: string)
    requires forall x :: OwnsSession(sessions, c, x) == OwnsSession(desk.sessions, c, x)
    ensures OwnProposals(desk.proposals, sessions, c) == OwnProposals(desk.proposals, desk.sessions, c)
    ensures Keep(desk.created, ProposalHeldBy(desk.proposals, sessions, c))
            == Keep(desk.created, ProposalHeldBy(desk.proposals, desk.sessions, c))
    ensures Keep(desk.journal, EntryHeldBy(desk.proposals, sessions, c))
            == Keep(desk.journal, EntryHeldBy(desk.proposals, desk.sessions, c))
  {
    KeepCongruent(desk.created, ProposalHeldBy(desk.proposals, sessions, c),
                  ProposalHeldBy(desk.proposals, desk.sessions, c));
    KeepCongruent(desk.journal, EntryHeldBy(desk.proposals, sessions, c),
                  EntryHeldBy(desk.proposals, desk.sessions, c));
  }

  lemma OwnParked(desk: Desk, s: Uid, pending: Option<Uid>, c: string)
    requires s in desk.sessions
    ensures OwnDesk(Parked(desk, s, pending), c)
            == if desk.sessions[s].customer == c then Parked(OwnDesk(desk, c), s, pending) else OwnDesk(desk, c)
  {
    var row := desk.sessions[s].(pending := pending, state := StateFor(pending));
    SessionUpdated(desk.sessions, s, row, c);
    SameOwners(desk, desk.sessions[s := row], c);
  }

  lemma OwnSaved(desk: Desk, t: Uid, g: Graph, c: string)
    requires t in desk.threads
    ensures OwnDesk(Saved(desk, t, g), c)
            == if desk.threads[t].customer == c then Saved(OwnDesk(desk, c), t, g) else OwnDesk(desk, c)
  {
    CheckpointUpdated(desk.checkpoints, desk.threads, t, g, c);
  }

  /* ---------- plans ---------- */

  lemma RowsAdded(cfg: Config, proposals: map<Uid, Proposal>, sessions: map<Uid, Session>, s: Uid,
                  drafts: seq<Draft>, draw: nat, c: string)
    requires s in sessions && Undrawn(proposals, draw)
    ensures var rows := Rows(cfg, s, drafts, draw, |drafts|);
            OwnProposals(proposals + rows, sessions, c)
            == if sessions[s].customer == c then OwnProposals(proposals, sessions, c) + rows
               else OwnProposals(proposals, sessions, c)
  {
  }

  lemma CreatedAdded(cfg: Config, desk: Desk, s: Uid, drafts: seq<Draft>, draw: nat, c: string)
    requires s in desk.sessions && Undrawn(desk.proposals, draw)
    requires forall p :: p in desk.created ==> p in desk.proposals
    ensures var all := desk.proposals + Rows(cfg, s, drafts, draw, |drafts|);
            Keep(desk.created + NewIds(draw, |drafts|), ProposalHeldBy(all, desk.sessions, c))
            == Keep(desk.created, ProposalHeldBy(desk.proposals, desk.sessions, c))
               + if desk.sessions[s].customer == c then NewIds(draw, |drafts|) else []
  {
    var rows, ids := Rows(cfg, s, drafts, draw, |drafts|), NewIds(draw, |drafts|);
    var held := ProposalHeldBy(desk.proposals + rows, desk.sessions, c);
    KeepAppend(desk.created, ids, held);
    forall p | p in desk.created ensures p in desk.proposals && p !in rows {
    }
    KeepCongruent(desk.created, held, ProposalHeldBy(desk.proposals, desk.sessions, c));
    forall p | p in ids ensures p in rows && rows[p].session == s {
    }
    if desk.sessions[s].customer == c {
      KeepAll(ids, held);
    } else {
      KeepNone(ids, held);
    }
  }

  lemma {:induction false} KeepAll<T(!new)>(s: seq<T>, p: T -> bool)
    requires forall x :: x in s ==> p(x)
    ensures Keep(s, p) == s
  {
    if s != [] {
      KeepAll(s[1..], p);
    }
  }

  lemma {:induction false} AutoRunsAreNew(cfg: Config, drafts: seq<Draft>, draw: nat)
    ensures forall e :: e in AutoRuns(cfg, drafts, draw) ==> e.proposal in RowIds(draw, |drafts|)
  {
    if drafts != [] {
      AutoRunsAreNew(cfg, drafts[..|drafts| - 1], draw);
    }
  }

  lemma JournalAdded(cfg: Config, desk: Desk, s: Uid, drafts: seq<Draft>, draw: nat, c: string)
    requires s in desk.sessions && Undrawn(desk.proposals, draw)
    requires forall e :: e in desk.journal ==> e.proposal in desk.proposals
    ensures var all := desk.proposals + Rows(cfg, s, drafts, draw, |drafts|);
            Keep(desk.journal + AutoRuns(cfg, drafts, draw), EntryHeldBy(all, desk.sessions, c))
            == Keep(desk.journal, EntryHeldBy(desk.proposals, desk.sessions, c))
               + if desk.sessions[s].customer == c then AutoRuns(cfg, drafts, draw) else []
  {
    var rows, runs := Rows(cfg, s, drafts, draw, |drafts|), AutoRuns(cfg, drafts, draw);
    var held := EntryHeldBy(desk.proposals + rows, desk.sessions, c);
    KeepAppend(desk.journal, runs, held);
    forall e | e in desk.journal ensures e.proposal in desk.proposals && e.proposal !in rows {
    }
    KeepCongruent(desk.journal, held, EntryHeldBy(desk.proposals, desk.sessions, c));
    AutoRunsAreNew(cfg, drafts, draw);
    forall e | e in runs ensures e.proposal in rows && rows[e.proposal].session == s {
    }
    if desk.sessions[s].customer == c {
      KeepAll(runs, held);
    } else {
      KeepNone(runs, held);
    }
  }

  lemma OwnSwept(cfg: Config, desk: Desk, s: Uid, drafts: seq<Draft>, draw: nat, c: string)
    requires s in desk.sessions && Undrawn(desk.proposals, draw)
    requires LinkedProposals(desk.sessions, desk.proposals, desk.created, desk.journal)
    ensures OwnDesk(SweptDesk(cfg, desk, s, drafts, draw, |drafts|), c)
            == if desk.sessions[s].customer == c then SweptDesk(cfg, OwnDesk(desk, c), s, drafts, draw, |drafts|)
               else OwnDesk(desk, c)
  {
    hide Keep, Rows, NewIds, AutoRuns, Undrawn, OwnSessions, OwnThreads, OwnCheckpoints, OwnProposals, ProposalHeldBy,
         EntryHeldBy;
    assert drafts[..|drafts|] == drafts;
    RowsAdded(cfg, desk.proposals, desk.sessions, s, drafts, draw, c);
    CreatedAdded(cfg, desk, s, drafts, draw, c);
    JournalAdded(cfg, desk, s, drafts, draw, c);
    var own := OwnDesk(desk, c);
    assert own.created + [] == own.created && own.journal + [] == own.journal;
  }

  /** Storing and sweeping a plan, seen through one customer's rows. */
  lemma OwnPlanned(cfg: Config, desk: Desk, t: Uid, drafts: seq<Draft>, draw: nat, g: Graph, c: string)
    requires Core(desk) && t in desk.threads && Undrawn(desk.proposals, draw)
    ensures OwnDesk(PlannedSaved(cfg, desk, t, drafts, draw, g), c)
            == if desk.threads[t].customer == c then PlannedSaved(cfg, OwnDesk(desk, c), t, drafts, draw, g)
               else OwnDesk(desk, c)
  {
    hide LinkedProposals, Recorded, OwnDesk;
    var s, pending := desk.threads[t].session, Head(NeedingIds(drafts, draw));
    var swept := SweptDesk(cfg, desk, s, drafts, draw, |drafts|);
    OwnSwept(cfg, desk, s, drafts, draw, c);
    OwnParked(swept, s, pending, c);
    OwnSaved(Parked(swept, s, pending), t, g, c);
    OwnTables(desk, c, t);
  }

  lemma OwnTables(desk: Desk, c: string, t: Uid)
    requires LinkedThreads(desk.sessions, desk.threads, desk.threadsByAge, desk.checkpoints) && t in desk.threads
    ensures var own := OwnDesk(desk, c);
            && (t in own.threads <==> desk.threads[t].customer == c)
            && (t in own.threads ==>
                  own.threads[t] == desk.threads[t] && own.threads[t].session in own.sessions
                  && own.sessions[own.threads[t].session] == desk.sessions[desk.threads[t].session])
            && (t in own.checkpoints <==> t in desk.checkpoints && desk.threads[t].customer == c)
            && (t in own.checkpoints ==> own.checkpoints[t] == desk.checkpoints[t])
  {
  }

  /* ---------- decisions ---------- */

  lemma ProposalUpdated(proposals: map<Uid, Proposal>, sessions: map<Uid, Session>, p: Uid, row: Proposal, c: string)
    requires p in proposals && row.session == proposals[p].session
    ensures OwnProposals(proposals[p := row], sessions, c)
            == if OwnsSession(sessions, c, row.session) then OwnProposals(proposals, sessions, c)[p := row]
               else OwnProposals(proposals, sessions, c)
    ensures forall x :: ProposalHeldBy(proposals[p := row], sessions, c)(x) == ProposalHeldBy(proposals, sessions, c)(x)
  {
  }

  lemma EntriesAdded(journal: seq<Entry>, es: seq<Entry>, proposals: map<Uid, Proposal>, sessions: map<Uid, Session>,
                     p: Uid, row: Proposal, c: string)
    requires p in proposals && row.session == proposals[p].session && forall e :: e in es ==> e.proposal == p
    ensures Keep(journal + es, EntryHeldBy(proposals[p := row], sessions, c))
            == Keep(journal, EntryHeldBy(proposals, sessions, c))
               + if OwnsSession(sessions, c, row.session) then es else []
  {
    var held := EntryHeldBy(proposals[p := row], sessions, c);
    KeepAppend(journal, es, held);
    KeepCongruent(journal, held, EntryHeldBy(proposals, sessions, c));
    if OwnsSession(sessions, c, row.session) {
      KeepAll(es, held);
    } else {
      KeepNone(es, held);
    }
  }

  lemma OwnsProposal(proposals: map<Uid, Proposal>, sessions: map<Uid, Session>, p: Uid, c: string)
    requires p in proposals && OwnsSession(sessions, c, proposals[p].session)
    ensures p in OwnProposals(proposals, sessions, c) && OwnProposals(proposals, sessions, c)[p] == proposals[p]
  {
  }

  lemma OwnDecidedDesk(cfg: Config, desk: Desk, p: Uid, d: Decision, subject: string, c: string)
    requires p in desk.proposals && desk.proposals[p].session in desk.sessions
    ensures var mine := desk.sessions[desk.proposals[p].session].customer == c;
            && (mine ==> p in OwnDesk(desk, c).proposals)
            && OwnDesk(DecidedDesk(cfg, desk, p, d, subject), c)
               == if mine then DecidedDesk(cfg, OwnDesk(desk, c), p, d, subject) else OwnDesk(desk, c)
  {
    hide OwnSessions, OwnThreads, OwnCheckpoints, OwnProposals, Keep;
    var row := desk.proposals[p].(status := FinalStatus(cfg, d));
    if OwnsSession(desk.sessions, c, row.session) {
      OwnsProposal(desk.proposals, desk.sessions, p, c);
    }
    var es := [Decided(p, d, subject)] + RunsOf(cfg, p, row.kind, d);
    assert desk.journal + [Decided(p, d, subject)] + RunsOf(cfg, p, row.kind, d) == desk.journal + es;
    ProposalUpdated(desk.proposals, desk.sessions, p, row, c);
    EntriesAdded(desk.journal, es, desk.proposals, desk.sessions, p, row, c);
    KeepCongruent(desk.created, ProposalHeldBy(desk.proposals[p := row], desk.sessions, c),
                  ProposalHeldBy(desk.proposals, desk.sessions, c));
    var own := OwnDesk(desk, c);
    assert own.journal + [] == own.journal;
    assert own.journal + [Decided(p, d, subject)] + RunsOf(cfg, p, row.kind, d) == own.journal + es;
  }

  /** Taking a decision, seen through one customer's rows. */
  lemma OwnDecided(cfg: Config, desk: Desk, t: Uid, p: Uid, d: Decision, subject: string, g: Graph, c: string)
    requires Core(desk) && t in desk.threads && p in desk.proposals
    requires desk.proposals[p].session == desk.threads[t].session
    ensures desk.threads[t].session in desk.sessions
    ensures var own, after := OwnDesk(desk, c), OwnDesk(DecidedSaved(cfg, desk, t, p, d, subject, g), c);
            if desk.threads[t].customer == c then
              && t in own.threads && own.threads[t].session in own.sessions && p in own.proposals
              && after == DecidedSaved(cfg, own, t, p, d, subject, g)
            else after == own
  {
    hide LinkedProposals, Recorded, OwnDesk;
    var s, decided := desk.threads[t].session, DecidedDesk(cfg, desk, p, d, subject);
    var next := Head(Queue(decided, s));
    OwnDecidedDesk(cfg, desk, p, d, subject, c);
    if desk.threads[t].customer == c {
      OwnQueue(decided, c, s);
    }
    OwnParked(decided, s, next, c);
    OwnSaved(Parked(decided, s, next), t, g, c);
    OwnTables(desk, c, t);
  }

  /* ---------- threads ---------- */

  lemma ThreadPut(threads: map<Uid, Thread>, t: Uid, row: Thread, c: string)
    requires t in threads ==> threads[t].customer == row.customer
    ensures OwnThreads(threads[t := row], c)
            == if row.customer == c then OwnThreads(threads, c)[t := row] else OwnThreads(threads, c)
    ensures forall u :: u != t || t in threads ==> ThreadHeldBy(threads[t := row], c)(u) == ThreadHeldBy(threads, c)(u)
  {
  }

  lemma CheckpointsKept(checkpoints: map<Uid, Graph>, threads: map<Uid, Thread>, t: Uid, row: Thread, c: string)
    requires if t in threads then threads[t].customer == row.customer else t !in checkpoints
    ensures OwnCheckpoints(checkpoints, threads[t := row], c) == OwnCheckpoints(checkpoints, threads, c)
  {
  }

  lemma AgesKept(byAge: seq<Uid>, threads: map<Uid, Thread>, t: Uid, row: Thread, c: string)
    requires if t in threads then threads[t].customer == row.customer else t !in byAge
    ensures Keep(byAge, ThreadHeldBy(threads[t := row], c)) == Keep(byAge, ThreadHeldBy(threads, c))
  {
    KeepCongruent(byAge, ThreadHeldBy(threads[t := row], c), ThreadHeldBy(threads, c));
  }

  lemma KeepOne<T(!new)>(x: T, p: T -> bool)
    ensures Keep([x], p) == if p(x) then [x] else []
  {
  }

  lemma SessionAdded(sessions: map<Uid, Session>, s: Uid, row: Session, c: string)
    requires s !in sessions
    ensures OwnSessions(sessions[s := row], c)
            == if row.customer == c then OwnSessions(sessions, c)[s := row] else OwnSessions(sessions, c)
  {
  }

  lemma OwnOpened(cfg: Config, desk: Desk, customer: string, draw: nat, c: string)
    requires Uid(draw, ForSession, 0) !in desk.sessions && Uid(draw, ForThread, 0) !in desk.threads
    requires LinkedThreads(desk.sessions, desk.threads, desk.threadsByAge, desk.checkpoints)
    requires LinkedProposals(desk.sessions, desk.proposals, desk.created, desk.journal)
    ensures OwnDesk(Open(cfg, desk, customer, draw), c)
            == if customer == c then Open(cfg, OwnDesk(desk, c), customer, draw) else OwnDesk(desk, c)
  {
    hide LinkedProposals, OwnSessions, OwnThreads, OwnCheckpoints, OwnProposals, Keep;
    var sid, tid := Uid(draw, ForSession, 0), Uid(draw, ForThread, 0);
    var row := Thread(customer, sid, true, cfg.digest(Scope(customer, sid, tid)));
    var after := Open(cfg, desk, customer, draw);
    OpenedProposals(desk, after, c);
    SessionAdded(desk.sessions, sid, Session(customer, Monitoring, None), c);
    ThreadPut(desk.threads, tid, row, c);
    CheckpointsKept(desk.checkpoints, desk.threads, tid, row, c);
    AgesKept(desk.threadsByAge, desk.threads, tid, row, c);
    KeepAppend(desk.threadsByAge, [tid], ThreadHeldBy(after.threads, c));
    KeepOne(tid, ThreadHeldBy(after.threads, c));
    assert OwnDesk(desk, c).threadsByAge + [] == OwnDesk(desk, c).threadsByAge;
  }

  lemma OpenedProposals(desk: Desk, after: Desk, c: string)
    requires LinkedProposals(desk.sessions, desk.proposals, desk.created, desk.journal)
    requires after.proposals == desk.proposals && after.created == desk.created && after.journal == desk.journal
    requires forall s :: s in desk.sessions ==> s in after.sessions && after.sessions[s] == desk.sessions[s]
    ensures OwnProposals(after.proposals, after.sessions, c) == OwnProposals(desk.proposals, desk.sessions, c)
    ensures OwnDesk(after, c).created == OwnDesk(desk, c).created
    ensures OwnDesk(after, c).journal == OwnDesk(desk, c).journal
  {
    KeepCongruent(desk.created, ProposalHeldBy(desk.proposals, after.sessions, c),
                  ProposalHeldBy(desk.proposals, desk.sessions, c));
    KeepCongruent(desk.journal, EntryHeldBy(desk.proposals, after.sessions, c),
                  EntryHeldBy(desk.proposals, desk.sessions, c));
  }

  lemma OwnStale(desk: Desk, t: Uid, c: string)
    requires t in desk.threads
    ensures desk.threads[t].customer == c ==> t in OwnDesk(desk, c).threads
    ensures OwnDesk(Stale(desk, t), c)
            == if desk.threads[t].customer == c then Stale(OwnDesk(desk, c), t) else OwnDesk(desk, c)
  {
    hide OwnSessions, OwnCheckpoints, OwnProposals;
    var row := desk.threads[t].(active := false);
    ThreadPut(desk.threads, t, row, c);
    CheckpointsKept(desk.checkpoints, desk.threads, t, row, c);
    AgesKept(desk.threadsByAge, desk.threads, t, row, c);
  }

  lemma OwnActive(desk: Desk, c: string)
    ensures Keep(OwnDesk(desk, c).threadsByAge, ActiveOf(OwnDesk(desk, c), c))
        == Keep(desk.threadsByAge, ActiveOf(desk, c))
  {
    var own := OwnDesk(desk, c);
    KeepNarrower(desk.threadsByAge, ThreadHeldBy(desk.threads, c), ActiveOf(desk, c));
    KeepCongruent(own.threadsByAge, ActiveOf(own, c), ActiveOf(desk, c));
  }

  lemma OwnAwaiting(desk: Desk, c: string, active: seq<Uid>)
    requires LinkedThreads(desk.sessions, desk.threads, desk.threadsByAge, desk.checkpoints)
    requires forall t :: t in active ==> t in desk.threads && desk.threads[t].customer == c
    ensures Keep(active, AwaitingIn(OwnDesk(desk, c))) == Keep(active, AwaitingIn(desk))
  {
    hide Keep, OwnProposals, OwnCheckpoints;
    KeepCongruent(active, AwaitingIn(OwnDesk(desk, c)), AwaitingIn(desk));
  }

  lemma OwnPick(desk: Desk, c: string)
    requires LinkedThreads(desk.sessions, desk.threads, desk.threadsByAge, desk.checkpoints)
    ensures PickReusable(OwnDesk(desk, c), c) == PickReusable(desk, c)
  {
    hide LinkedThreads, OwnDesk, AwaitingIn;
    OwnActive(desk, c);
    OwnAwaiting(desk, c, Keep(desk.threadsByAge, ActiveOf(desk, c)));
  }
}
