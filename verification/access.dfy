/** Who is let in, and what they are shown: the access rule and the thread's page, seen from outside. */
module Access {
  import opened Options
  import opened Seqs
  import opened Store
  import opened Workflow
  import opened Service
  import opened Invariants
  import opened Isolation
  import opened Safety
  import opened Agreement
  import opened Book
  import Token

  /* ---------- who is let in ---------- */

  /** What the request asks for is there at all: the customer, or an active thread. */
  predicate Known(desk: Desk, r: Request) {
    if r.Create? then r.customer in desk.customers
    else r.Restart? || (r.thread in desk.threads && desk.threads[r.thread].active)
  }

  /**
   * A customer gets nowhere with another customer's data: nothing changes and nothing is shown. The
   * answer is 403, or 404 exactly if there is nothing to be had anyway and it is not an event.
   */
  lemma StrangerIsRefused(cfg: Config, db: Db, r: Request, c: string)
    requires Concerns(db.desk, r, c) && !r.Restart?
    requires r.env.principal.role == Token.Customer && r.env.principal.customer != Some(c)
    ensures Serve(cfg, db, r) == (db, if Known(db.desk, r) || r.Event? then Http(403) else Http(404))
  {
    hide Drive, PickReusable, Describe, Open;
  }

  /** What is not there is answered with 404, and nothing changes. */
  lemma UnknownIsNotFound(cfg: Config, db: Db, r: Request)
    requires !Known(db.desk, r) && r.env.principal.role == Token.Operator
    ensures Serve(cfg, db, r) == (db, Http(404))
  {
    hide Drive, PickReusable, Describe, Open;
  }

  /** While an approval is open an event is answered with 409; a message is shown the page instead of being one. */
  lemma OpenMeansBusy(cfg: Config, db: Db, r: Request)
    requires r.Event? || r.Message?
    requires r.Event? ==> r.env.principal.role == Token.Operator
    requires Resolve(cfg, db.desk, r.thread, r.env.principal) == 0
    requires SessionOf(db.desk, r.thread).state == UserApproval
    ensures var (db', reply) := Serve(cfg, db, r);
            && db' == db
            && if r.Event? then reply == Http(409) else reply.Serialized? && PageOf(db.desk, r.thread, reply.view)
  {
    hide Drive, Describe, PageOf;
    PageIsExact(db.desk, r.thread);
  }

  /** A decision while nothing waits, or about another proposal than the pending one, is answered with 409. */
  lemma StaleDecision(cfg: Config, db: Db, r: Request)
    requires Inv(db.desk) && r.Decide? && Resolve(cfg, db.desk, r.thread, r.env.principal) == 0
    requires var s := SessionOf(db.desk, r.thread);
             s.state == Monitoring || (r.target.Some? && r.target != s.pending)
    ensures Serve(cfg, db, r) == (db, Http(409))
  {
    hide Drive, Describe, Inv;
  }

  /** Only operators may send events, whoever's thread it is. */
  lemma OnlyOperatorsSendEvents(cfg: Config, db: Db, r: Request)
    requires r.Event? && r.env.principal.role != Token.Operator
    ensures Serve(cfg, db, r) == (db, Http(403))
  {
  }

  /** Staff, or the customer `c` in person. */
  predicate Insider(principal: Token.Principal, c: string) {
    || principal.role == Token.Advisor || principal.role == Token.Operator
    || (principal.role == Token.Customer && principal.customer == Some(c))
  }

  /** The staff and the customer concerned get the page of an active, sealed thread. */
  lemma InsiderReads(cfg: Config, db: Db, t: Uid, env: Env)
    requires Inv(db.desk) && Sealed(cfg, db.desk.threads) && t in db.desk.threads && db.desk.threads[t].active
    requires Insider(env.principal, db.desk.threads[t].customer)
    ensures var (db', reply) := Serve(cfg, db, Read(env, t));
            db' == db && reply.Serialized? && PageOf(db.desk, t, reply.view)
  {
    hide Inv, Describe, PageOf;
    InvCore(db.desk);
    OldIsUsable(cfg, db.desk, t, env.principal);
    PageIsExact(db.desk, t);
  }

  /** They also get a chat for every known customer, and the page of a thread of that customer. */
  lemma InsiderOpens(cfg: Config, db: Db, env: Env, customer: string, forceNew: bool)
    requires Inv(db.desk) && customer in db.desk.customers && Insider(env.principal, customer)
    ensures var (db', reply) := Serve(cfg, db, Create(env, customer, forceNew));
            && reply.Serialized? && reply.view.thread in db'.desk.threads
            && db'.desk.threads[reply.view.thread].customer == customer && db'.desk.threads[reply.view.thread].active
            && db'.desk.threads[reply.view.thread].session in db'.desk.sessions
            && PageOf(db'.desk, reply.view.thread, reply.view)
  {
    hide LinkedProposals, Recorded, QueueShown, CopiesAgree, PickReusable, PageOf, Listed, Keep;
    PickedActive(db.desk, customer);
    var (db', reply) := Serve(cfg, db, Create(env, customer, forceNew));
    PageIsExact(db'.desk, reply.view.thread);
  }

  /** A new chat on demand: a thread and a session of its own that show nothing; every other row stays. */
  lemma NewChatOnDemand(cfg: Config, db: Db, env: Env, customer: string)
    requires Inv(db.desk) && customer in db.desk.customers && Insider(env.principal, customer)
    requires Uid(env.draw, ForSession, 0) !in db.desk.sessions && Uid(env.draw, ForThread, 0) !in db.desk.threads
    ensures var (db', reply) := Serve(cfg, db, Create(env, customer, true));
            var sid, tid := Uid(env.draw, ForSession, 0), Uid(env.draw, ForThread, 0);
            && Says(reply, tid, Monitoring, None) && reply.view.session == sid && reply.view.customer == customer
            && reply.view.proposals == [] && reply.view.executions == []
            && tid in db'.desk.threads && sid in db'.desk.sessions && db'.book == db.book
            && db'.desk == db.desk.(sessions := db.desk.sessions[sid := db'.desk.sessions[sid]],
                                    threads := db.desk.threads[tid := db'.desk.threads[tid]],
                                    threadsByAge := db.desk.threadsByAge + [tid])
  {
    hide LinkedThreads, Recorded, QueueShown, CopiesAgree, Listed, Keep, PickReusable;
    NewThread(cfg, db.desk, customer, env.draw);
  }

  /* ---------- what is shown ---------- */

  /**
   * The page of a thread: its session's row, the session's proposals as they stand, each once and
   * oldest first, and exactly their executions, in the order in which they were written.
   */
  ghost predicate PageOf(desk: Desk, t: Uid, view: View)
    requires t in desk.threads && desk.threads[t].session in desk.sessions
  {
    var sid := desk.threads[t].session;
    var row := desk.sessions[sid];
    var own := (p: Uid) => p in desk.proposals && desk.proposals[p].session == sid;
    var ran := (e: Entry) => e.Ran? && own(e.proposal);
    && view.thread == t && view.session == sid && view.customer == desk.threads[t].customer
    && view.state == row.state && view.pending == row.pending
    && |view.proposals| == Before(desk.created, own, |desk.created|)
    && (forall i :: 0 <= i < |desk.created| && own(desk.created[i]) ==>
          var k := Before(desk.created, own, i);
          k < |view.proposals| && view.proposals[k] == (desk.created[i], desk.proposals[desk.created[i]]))
    && |view.executions| == Before(desk.journal, ran, |desk.journal|)
    && (forall i :: 0 <= i < |desk.journal| && ran(desk.journal[i]) ==>
          var k := Before(desk.journal, ran, i);
          k < |view.executions| && view.executions[k] == desk.journal[i])
  }

  lemma {:induction false} ListedRows(ids: seq<Uid>, proposals: map<Uid, Proposal>)
    requires forall p :: p in ids ==> p in proposals
    ensures |Listed(ids, proposals)| == |ids|
    ensures forall k :: 0 <= k < |ids| ==> Listed(ids, proposals)[k] == (ids[k], proposals[ids[k]])
  {
    if ids != [] {
      ListedRows(ids[1..], proposals);
      assert Listed(ids, proposals) == [(ids[0], proposals[ids[0]])] + Listed(ids[1..], proposals);
    }
  }

  lemma PageIsExact(desk: Desk, t: Uid)
    requires t in desk.threads && desk.threads[t].session in desk.sessions
    ensures Describe(desk, t).Serialized? && PageOf(desk, t, Describe(desk, t).view)
  {
    hide Keep, Before, Listed;
    var sid := desk.threads[t].session;
    var own := (p: Uid) => p in desk.proposals && desk.proposals[p].session == sid;
    var ran := (e: Entry) => e.Ran? && own(e.proposal);
    KeepCongruent(desk.created, InSession(desk.proposals, sid), own);
    KeepCongruent(desk.journal, RanIn(desk.proposals, sid), ran);
    KeptInPlace(desk.created, own);
    KeptInPlace(desk.journal, ran);
    ListedRows(Keep(desk.created, own), desk.proposals);
  }
}
