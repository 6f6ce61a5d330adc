/** The policy node: what storing a plan and sweeping through it leaves on the desk. */
module Planning {
  import opened Options
  import opened Seqs
  import opened Policy
  import opened Book
  import opened Proposals
  import opened Store
  import opened Workflow
  import opened Invariants

  predicate NeedsDraft(draft: Draft) { NeedsApproval(draft.external, draft.kind) }

  /** The plan's approval-needing proposals, in plan order. */
  function NeedingIds(drafts: seq<Draft>, draw: nat): seq<Uid> {
    if drafts == [] then []
    else
      var last := |drafts| - 1;
      NeedingIds(drafts[..last], draw) + (if NeedsDraft(drafts[last]) then [ProposalId(draw, last)] else [])
  }

  /** The execution rows of the others, in plan order. */
  function AutoRuns(cfg: Config, drafts: seq<Draft>, draw: nat): seq<Entry> {
    if drafts == [] then []
    else
      var last := |drafts| - 1;
      AutoRuns(cfg, drafts[..last], draw)
      + (if NeedsDraft(drafts[last]) then [] else [RunRow(cfg, ProposalId(draw, last), drafts[last].kind)])
  }

  ghost predicate Undrawn(proposals: map<Uid, Proposal>, draw: nat) {
    forall p :: p in proposals ==> p.draw != draw
  }

  /* ---------- the rows of the plan ---------- */

  /** A stored proposal's row once the sweep has passed it. */
  function PlannedRow(cfg: Config, session: Uid, draft: Draft): Proposal {
    NewRow(session, draft).(status := if NeedsDraft(draft) then Proposed else StatusAfter(cfg))
  }

  function RowIds(draw: nat, n: nat): (ids: set<Uid>)
    ensures forall p :: p in ids <==> p.draw == draw && p.table == ForProposal && p.n < n
  {
    if n == 0 then {} else RowIds(draw, n - 1) + {ProposalId(draw, n - 1)}
  }

  /** The plan's rows when the sweep has passed the first `n` of them. */
  function Rows(cfg: Config, session: Uid, drafts: seq<Draft>, draw: nat, n: nat): map<Uid, Proposal> {
    map p | p in RowIds(draw, |drafts|) ::
      if p.n < n then PlannedRow(cfg, session, drafts[p.n]) else NewRow(session, drafts[p.n])
  }

  lemma NewIdsGrow(draw: nat, n: nat)
    ensures NewIds(draw, n + 1) == NewIds(draw, n) + [ProposalId(draw, n)]
  {
  }

  lemma RowsInsert(cfg: Config, old_: map<Uid, Proposal>, session: Uid, drafts: seq<Draft>, draw: nat)
    requires drafts != []
    ensures var last := |drafts| - 1;
            (old_ + Rows(cfg, session, drafts[..last], draw, 0))[ProposalId(draw, last) := NewRow(session,
                                                                                                  drafts[last])]
            == old_ + Rows(cfg, session, drafts, draw, 0)
  {
  }

  lemma RowsTurn(cfg: Config, old_: map<Uid, Proposal>, session: Uid, drafts: seq<Draft>, draw: nat, n: nat)
    requires n < |drafts|
    ensures var p := ProposalId(draw, n);
            (old_ + Rows(cfg, session, drafts, draw, n))[p := PlannedRow(cfg, session, drafts[n])]
            == old_ + Rows(cfg, session, drafts, draw, n + 1)
  {
  }

  /** The desk when the plan is stored and the sweep has passed its first `n` proposals. */
  function SweptDesk(cfg: Config, desk: Desk, session: Uid, drafts: seq<Draft>, draw: nat, n: nat): Desk
    requires n <= |drafts|
  {
    desk.(proposals := desk.proposals + Rows(cfg, session, drafts, draw, n),
          created := desk.created + NewIds(draw, |drafts|),
          journal := desk.journal + AutoRuns(cfg, drafts[..n], draw))
  }

  /** What `policy_check` leaves behind, for any plan. */
  function PlannedDesk(cfg: Config, desk: Desk, session: Uid, drafts: seq<Draft>, draw: nat): Desk
    requires session in desk.sessions
  {
    Parked(SweptDesk(cfg, desk, session, drafts, draw, |drafts|), session, Head(NeedingIds(drafts, draw)))
  }

  /* ---------- storing the plan ---------- */

  lemma InsertKeepsCore(desk: Desk, p: Uid, row: Proposal)
    requires Core(desk) && p !in desk.proposals && row.session in desk.sessions && row.status == Proposed
    ensures Core(Insert(desk, p, row))
  {
    hide LinkedThreads, LinkedProposals, Recorded;
    LinkedInsert(desk.sessions, desk.proposals, desk.created, desk.journal, p, row);
    RecordedInsert(desk.sessions, desk.proposals, desk.created, desk.journal, p, row);
  }

  lemma LinkedInsert(sessions: map<Uid, Session>, proposals: map<Uid, Proposal>, created: seq<Uid>,
                     journal: seq<Entry>, p: Uid, row: Proposal)
    requires LinkedProposals(sessions, proposals, created, journal) && p !in proposals && row.session in sessions
    ensures LinkedProposals(sessions, proposals[p := row], created + [p], journal)
  {
  }

  lemma RecordedInsert(sessions: map<Uid, Session>, proposals: map<Uid, Proposal>, created: seq<Uid>,
                       journal: seq<Entry>, p: Uid, row: Proposal)
    requires LinkedProposals(sessions, proposals, created, journal) && Recorded(proposals, journal)
    requires p !in proposals && row.status == Proposed
    ensures Recorded(proposals[p := row], journal)
  {
    NoHistory(journal, p);
  }

  lemma {:induction false} PersistStores(cfg: Config, desk: Desk, session: Uid, drafts: seq<Draft>, draw: nat)
    ensures Persisted(desk, session, drafts, draw)
            == desk.(proposals := desk.proposals + Rows(cfg, session, drafts, draw, 0),
                     created := desk.created + NewIds(draw, |drafts|))
  {
    if drafts == [] {
      assert desk.created + NewIds(draw, 0) == desk.created;
      assert desk.proposals + Rows(cfg, session, drafts, draw, 0) == desk.proposals;
    } else {
      var last := |drafts| - 1;
      PersistStores(cfg, desk, session, drafts[..last], draw);
      NewIdsGrow(draw, last);
      RowsInsert(cfg, desk.proposals, session, drafts, draw);
      assert desk.created + NewIds(draw, last) + [ProposalId(draw, last)]
             == desk.created + (NewIds(draw, last) + [ProposalId(draw, last)]);
    }
  }

  lemma {:induction false} PersistKeepsCore(desk: Desk, session: Uid, drafts: seq<Draft>, draw: nat)
    requires Core(desk) && session in desk.sessions && Undrawn(desk.proposals, draw)
    ensures var after := Persisted(desk, session, drafts, draw);
            Core(after) && after.sessions == desk.sessions
            && forall p :: p in after.proposals && p.draw == draw ==> p.n < |drafts|
  {
    if drafts != [] {
      var last := |drafts| - 1;
      PersistKeepsCore(desk, session, drafts[..last], draw);
      var before := Persisted(desk, session, drafts[..last], draw);
      InsertKeepsCore(before, ProposalId(draw, last), NewRow(session, drafts[last]));
    }
  }

  /* ---------- the sweep ---------- */

  /** The sweep after `n` proposals: no refusal, the autos run, the rest untouched. */
  ghost predicate SweptTo(cfg: Config, desk: Desk, s: Sweep, session: Uid, drafts: seq<Draft>, draw: nat, n: nat)
    requires n <= |drafts|
  {
    && s.code == None
    && s.db.desk == SweptDesk(cfg, desk, session, drafts, draw, n)
    && s.runs == AutoRuns(cfg, drafts[..n], draw)
    && s.pending == Head(NeedingIds(drafts[..n], draw))
    && Core(s.db.desk)
  }

  /** The gate lets an automatic proposal through. */
  lemma GateOpens(cfg: Config, db: Db, p: Uid, newId: Uid)
    requires p in db.desk.proposals && db.desk.proposals[p].session in db.desk.sessions
    requires db.desk.proposals[p].status == Proposed && !Needs(db.desk.proposals[p])
    ensures var row := db.desk.proposals[p];
            ExecuteScoped(cfg, db, p, db.desk.sessions[row.session].customer, false, newId)
            == Done(Execute(cfg, db, p, newId), RunRow(cfg, p, row.kind))
  {
  }

  lemma WaitDesk(cfg: Config, desk: Desk, session: Uid, drafts: seq<Draft>, draw: nat, n: nat)
    requires n < |drafts| && NeedsDraft(drafts[n])
    ensures var before := SweptDesk(cfg, desk, session, drafts, draw, n);
            && ProposalId(draw, n) in before.proposals
            && before.proposals[ProposalId(draw, n)] == NewRow(session, drafts[n])
            && before == SweptDesk(cfg, desk, session, drafts, draw, n + 1)
  {
    RowsWait(cfg, desk.proposals, session, drafts, draw, n);
    PrefixStep(cfg, drafts, draw, n);
    assert AutoRuns(cfg, drafts[..n], draw) + [] == AutoRuns(cfg, drafts[..n], draw);
  }

  lemma RowsWait(cfg: Config, old_: map<Uid, Proposal>, session: Uid, drafts: seq<Draft>, draw: nat, n: nat)
    requires n < |drafts| && NeedsDraft(drafts[n])
    ensures var before := old_ + Rows(cfg, session, drafts, draw, n);
            && ProposalId(draw, n) in before && before[ProposalId(draw, n)] == NewRow(session, drafts[n])
            && before == old_ + Rows(cfg, session, drafts, draw, n + 1)
  {
    assert PlannedRow(cfg, session, drafts[n]) == NewRow(session, drafts[n]);
    assert Rows(cfg, session, drafts, draw, n) == Rows(cfg, session, drafts, draw, n + 1);
  }

  lemma TurnWaits(cfg: Config, desk: Desk, s: Sweep, session: Uid, drafts: seq<Draft>, draw: nat, n: nat,
                  customer: string)
    requires n < |drafts| && NeedsDraft(drafts[n])
    requires SweptTo(cfg, desk, s, session, drafts, draw, n)
    ensures SweptTo(cfg, desk, Turn(cfg, s, customer, draw, n), session, drafts, draw, n + 1)
  {
    WaitDesk(cfg, desk, session, drafts, draw, n);
    PrefixStep(cfg, drafts, draw, n);
  }

  lemma PrefixStep(cfg: Config, drafts: seq<Draft>, draw: nat, n: nat)
    requires n < |drafts|
    ensures NeedingIds(drafts[..n + 1], draw)
            == NeedingIds(drafts[..n], draw) + (if NeedsDraft(drafts[n]) then [ProposalId(draw, n)] else [])
    ensures AutoRuns(cfg, drafts[..n + 1], draw)
            == AutoRuns(cfg, drafts[..n], draw)
               + (if NeedsDraft(drafts[n]) then [] else [RunRow(cfg, ProposalId(draw, n), drafts[n].kind)])
  {
    assert drafts[..n + 1][..n] == drafts[..n];
  }

  lemma RunDesk(cfg: Config, desk: Desk, session: Uid, drafts: seq<Draft>, draw: nat, n: nat)
    requires n < |drafts| && !NeedsDraft(drafts[n])
    ensures var p := ProposalId(draw, n);
            var before := SweptDesk(cfg, desk, session, drafts, draw, n);
            && p in before.proposals && before.proposals[p] == NewRow(session, drafts[n])
            && Write(Mark(before, p, StatusAfter(cfg)), RunRow(cfg, p, drafts[n].kind))
               == SweptDesk(cfg, desk, session, drafts, draw, n + 1)
  {
    RowsTurn(cfg, desk.proposals, session, drafts, draw, n);
    PrefixStep(cfg, drafts, draw, n);
    var run := [RunRow(cfg, ProposalId(draw, n), drafts[n].kind)];
    assert desk.journal + AutoRuns(cfg, drafts[..n], draw) + run
        == desk.journal + (AutoRuns(cfg, drafts[..n], draw) + run);
  }

  lemma TurnRuns(cfg: Config, desk: Desk, s: Sweep, session: Uid, drafts: seq<Draft>, draw: nat, n: nat)
    requires n < |drafts| && !NeedsDraft(drafts[n]) && session in desk.sessions
    requires SweptTo(cfg, desk, s, session, drafts, draw, n)
    ensures SweptTo(cfg, desk, Turn(cfg, s, desk.sessions[session].customer, draw, n), session, drafts, draw, n + 1)
  {
    var p := ProposalId(draw, n);
    RunDesk(cfg, desk, session, drafts, draw, n);
    GateOpens(cfg, s.db, p, PolicyId(draw, n));
    ExecuteKeepsCore(cfg, s.db, p, PolicyId(draw, n));
    PrefixStep(cfg, drafts, draw, n);
  }

  lemma SweepStarts(cfg: Config, db: Db, desk: Desk, session: Uid, drafts: seq<Draft>, draw: nat)
    requires Core(db.desk) && db.desk == SweptDesk(cfg, desk, session, drafts, draw, 0)
    ensures SweptTo(cfg, desk, Sweep(db, None, [], None), session, drafts, draw, 0)
  {
  }

  lemma {:induction false} SweepRuns(cfg: Config, db: Db, desk: Desk, session: Uid, drafts: seq<Draft>, draw: nat,
                                     n: nat)
    requires session in desk.sessions && n <= |drafts|
    requires Core(db.desk) && db.desk == SweptDesk(cfg, desk, session, drafts, draw, 0)
    ensures SweptTo(cfg, desk, Swept(cfg, db, desk.sessions[session].customer, draw, n), session, drafts, draw, n)
  {
    hide Core, Turn, SweptDesk, Keep;
    if n == 0 {
      SweepStarts(cfg, db, desk, session, drafts, draw);
    } else {
      SweepRuns(cfg, db, desk, session, drafts, draw, n - 1);
      var s := Swept(cfg, db, desk.sessions[session].customer, draw, n - 1);
      if NeedsDraft(drafts[n - 1]) {
        TurnWaits(cfg, desk, s, session, drafts, draw, n - 1, desk.sessions[session].customer);
      } else {
        TurnRuns(cfg, desk, s, session, drafts, draw, n - 1);
      }
    }
  }

  /** The finance tables after the automatic ones among the first `n` proposals ran. */
  function SweptBook(cfg: Config, book: Book, customer: string, drafts: seq<Draft>, draw: nat, n: nat): Book
    requires n <= |drafts|
  {
    if n == 0 then book
    else
      var before, draft := SweptBook(cfg, book, customer, drafts, draw, n - 1), drafts[n - 1];
      if NeedsDraft(draft) || cfg.mode.ExternalRequest? then before
      else Handle(before, customer, draft.kind, draft.params, PolicyId(draw, n - 1), cfg.before)
  }

  lemma {:induction false} SweepBooks(cfg: Config, db: Db, desk: Desk, session: Uid, drafts: seq<Draft>, draw: nat,
                                      n: nat)
    requires session in desk.sessions && n <= |drafts|
    requires Core(db.desk) && db.desk == SweptDesk(cfg, desk, session, drafts, draw, 0)
    ensures var customer := desk.sessions[session].customer;
            Swept(cfg, db, customer, draw, n).db.book == SweptBook(cfg, db.book, customer, drafts, draw, n)
  {
    hide Core, Handle, Turn, SweptDesk, AutoRuns, NeedingIds;
    if n > 0 {
      var customer := desk.sessions[session].customer;
      SweepBooks(cfg, db, desk, session, drafts, draw, n - 1);
      SweepRuns(cfg, db, desk, session, drafts, draw, n - 1);
      var s := Swept(cfg, db, customer, draw, n - 1);
      TurnBook(cfg, desk, s, session, drafts, draw, n - 1);
    }
  }

  lemma TurnBook(cfg: Config, desk: Desk, s: Sweep, session: Uid, drafts: seq<Draft>, draw: nat, n: nat)
    requires n < |drafts| && session in desk.sessions
    requires s.code == None && s.db.desk == SweptDesk(cfg, desk, session, drafts, draw, n)
    ensures var customer := desk.sessions[session].customer;
            Turn(cfg, s, customer, draw, n).db.book
            == if NeedsDraft(drafts[n]) || cfg.mode.ExternalRequest? then s.db.book
               else Handle(s.db.book, customer, drafts[n].kind, drafts[n].params, PolicyId(draw, n), cfg.before)
  {
    hide Handle, Rows;
    if NeedsDraft(drafts[n]) {
      WaitDesk(cfg, desk, session, drafts, draw, n);
    } else {
      RunDesk(cfg, desk, session, drafts, draw, n);
      GateOpens(cfg, s.db, ProposalId(draw, n), PolicyId(draw, n));
    }
  }

  /* ---------- the node as a whole ---------- */

  lemma ParkedKeepsCore(desk: Desk, session: Uid, pending: Option<Uid>)
    requires Core(desk) && session in desk.sessions
    ensures Core(Parked(desk, session, pending))
  {
  }

  /** `policy_check` never refuses, whatever the plan. */
  lemma PolicyNode(cfg: Config, env: Env, db: Db, g: Graph, drafts: seq<Draft>)
    requires Core(db.desk) && g.scope.session in db.desk.sessions && Undrawn(db.desk.proposals, env.draw)
    ensures var e := CheckDrafts(cfg, env, db, g, drafts);
            && e.Next?
            && e.db.desk == PlannedDesk(cfg, db.desk, g.scope.session, drafts, env.draw)
            && e.db.book
                == SweptBook(cfg, db.book, db.desk.sessions[g.scope.session].customer, drafts, env.draw, |drafts|)
            && Core(e.db.desk)
            && e.g == g.(proposalIds := NewIds(env.draw, |drafts|), pending := Head(NeedingIds(drafts, env.draw)))
  {
    var sid, draw := g.scope.session, env.draw;
    var stored := db.(desk := Persisted(db.desk, sid, drafts, draw));
    StoredAndSwept(cfg, db, stored, sid, drafts, draw);
    var s := Swept(cfg, stored, db.desk.sessions[sid].customer, draw, |drafts|);
    ParkedKeepsCore(s.db.desk, sid, s.pending);
  }

  lemma StoredAndSwept(cfg: Config, db: Db, stored: Db, session: Uid, drafts: seq<Draft>, draw: nat)
    requires Core(db.desk) && session in db.desk.sessions && Undrawn(db.desk.proposals, draw)
    requires stored == db.(desk := Persisted(db.desk, session, drafts, draw))
    ensures var s := Swept(cfg, stored, db.desk.sessions[session].customer, draw, |drafts|);
            && s.code == None && Core(s.db.desk)
            && s.db.desk == SweptDesk(cfg, db.desk, session, drafts, draw, |drafts|)
            && s.db.book == SweptBook(cfg, db.book, db.desk.sessions[session].customer, drafts, draw, |drafts|)
            && s.pending == Head(NeedingIds(drafts, draw))
  {
    PersistStores(cfg, db.desk, session, drafts, draw);
    assert db.desk.journal + [] == db.desk.journal;
    PersistKeepsCore(db.desk, session, drafts, draw);
    SweepRuns(cfg, stored, db.desk, session, drafts, draw, |drafts|);
    SweepBooks(cfg, stored, db.desk, session, drafts, draw, |drafts|);
    assert drafts[..|drafts|] == drafts;
  }

  lemma {:induction false} NewQueue(proposals: map<Uid, Proposal>, session: Uid, drafts: seq<Draft>, draw: nat)
    requires forall i :: 0 <= i < |drafts| ==>
               AwaitsApproval(proposals, session)(ProposalId(draw, i)) == NeedsDraft(drafts[i])
    ensures Keep(NewIds(draw, |drafts|), AwaitsApproval(proposals, session)) == NeedingIds(drafts, draw)
    decreases |drafts|
  {
    if drafts != [] {
      var last := |drafts| - 1;
      NewIdsGrow(draw, last);
      NewQueue(proposals, session, drafts[..last], draw);
      var awaits, p := AwaitsApproval(proposals, session), ProposalId(draw, last);
      KeepAppend(NewIds(draw, last), [p], awaits);
      assert Keep([p], awaits) == if awaits(p) then [p] else [];
    }
  }

  lemma OldQueue(cfg: Config, desk: Desk, session: Uid, drafts: seq<Draft>, draw: nat, s: Uid)
    requires Core(desk) && Undrawn(desk.proposals, draw)
    ensures var all := desk.proposals + Rows(cfg, session, drafts, draw, |drafts|);
            Keep(desk.created, AwaitsApproval(all, s)) == Queue(desk, s)
  {
    var rows := Rows(cfg, session, drafts, draw, |drafts|);
    forall p | p in desk.created ensures p in desk.proposals && p !in rows {
    }
    KeepCongruent(desk.created, AwaitsApproval(desk.proposals + rows, s), AwaitsApproval(desk.proposals, s));
  }

  lemma AddedQueue(cfg: Config, old_: map<Uid, Proposal>, session: Uid, drafts: seq<Draft>, draw: nat, s: Uid)
    ensures var all := old_ + Rows(cfg, session, drafts, draw, |drafts|);
            Keep(NewIds(draw, |drafts|), AwaitsApproval(all, s))
            == if s == session then NeedingIds(drafts, draw) else []
  {
    var rows := Rows(cfg, session, drafts, draw, |drafts|);
    var awaits := AwaitsApproval(old_ + rows, s);
    forall i | 0 <= i < |drafts|
      ensures awaits(ProposalId(draw, i)) == (s == session && NeedsDraft(drafts[i]))
    {
      assert ProposalId(draw, i) in rows;
    }
    if s == session {
      NewQueue(old_ + rows, s, drafts, draw);
    } else {
      KeepNone(NewIds(draw, |drafts|), awaits);
    }
  }

  /** The queue of every session after the node: the plan's needing proposals join their own. */
  lemma PlannedQueues(cfg: Config, desk: Desk, session: Uid, drafts: seq<Draft>, draw: nat, s: Uid)
    requires Core(desk) && session in desk.sessions && Undrawn(desk.proposals, draw)
    ensures Queue(PlannedDesk(cfg, desk, session, drafts, draw), s)
            == Queue(desk, s) + (if s == session then NeedingIds(drafts, draw) else [])
  {
    OldQueue(cfg, desk, session, drafts, draw, s);
    AddedQueue(cfg, desk.proposals, session, drafts, draw, s);
    var all := desk.proposals + Rows(cfg, session, drafts, draw, |drafts|);
    KeepAppend(desk.created, NewIds(draw, |drafts|), AwaitsApproval(all, s));
  }
}
