/** One customer's part of the finance tables, and what readers and executors make of it. */
module OwnBooks {
  import opened Seqs
  import opened Policy
  import opened Book
  import opened Planner
  import Proposals

  predicate OwnsAccount(accounts: seq<Account>, c: string, id: Uid) {
    exists a :: a in accounts && a.id == id && a.customer == c
  }

  predicate OwnsPolicy(policies: seq<InsurancePolicy>, c: string, id: Uid) {
    exists p :: p in policies && p.id == id && p.customer == c
  }

  function HeldBy(accounts: seq<Account>, c: string): Holding -> bool {
    (h: Holding) => OwnsAccount(accounts, c, h.account)
  }

  function CoverageHeldBy(policies: seq<InsurancePolicy>, c: string): Coverage -> bool {
    (v: Coverage) => OwnsPolicy(policies, c, v.policy)
  }

  /** The rows of customer `c`. */
  function OwnBook(book: Book, c: string): Book {
    Book(Keep(book.accounts, OfCustomer(c)), Keep(book.holdings, HeldBy(book.accounts, c)),
         Keep(book.policies, PolicyOf(c)), Keep(book.coverages, CoverageHeldBy(book.policies, c)))
  }

  /** No account and no insurance policy is shared between customers. */
  ghost predicate Unshared(book: Book) {
    && (forall a, b :: a in book.accounts && b in book.accounts && a.id == b.id ==> a.customer == b.customer)
    && (forall p, q :: p in book.policies && q in book.policies && p.id == q.id ==> p.customer == q.customer)
  }

  ghost predicate Unused(book: Book, id: Uid) {
    && (forall p :: p in book.policies ==> p.id != id)
    && (forall v :: v in book.coverages ==> v.policy != id)
  }

  /* ---------- readers ---------- */

  lemma {:induction false} OwnHoldingsOf(mine: seq<Account>, accounts: seq<Account>, holdings: seq<Holding>, c: string)
    requires forall a :: a in mine ==> a in accounts && a.customer == c
    ensures HoldingsOf(mine, Keep(holdings, HeldBy(accounts, c))) == HoldingsOf(mine, holdings)
  {
    if mine != [] {
      assert mine[0] in accounts;
      KeepNarrower(holdings, HeldBy(accounts, c), InAccount(mine[0].id));
      OwnHoldingsOf(mine[1..], accounts, holdings, c);
    }
  }

  lemma {:induction false} OwnCoveragesOf(
      mine: seq<InsurancePolicy>, policies: seq<InsurancePolicy>, coverages: seq<Coverage>, c: string)
    requires forall p :: p in mine ==> p in policies && p.customer == c
    ensures CoveragesOf(mine, Keep(coverages, CoverageHeldBy(policies, c))) == CoveragesOf(mine, coverages)
  {
    if mine != [] {
      assert mine[0] in policies;
      KeepNarrower(coverages, CoverageHeldBy(policies, c), CoverageOf(mine[0].id));
      OwnCoveragesOf(mine[1..], policies, coverages, c);
    }
  }

  /** The readers see nothing but the customer's own rows. */
  lemma OwnContext(book: Book, c: string, facts: Facts)
    ensures ReadContext(OwnBook(book, c), c, facts) == ReadContext(book, c, facts)
  {
    KeepNarrower(book.accounts, OfCustomer(c), OfCustomer(c));
    OwnHoldingsOf(Keep(book.accounts, OfCustomer(c)), book.accounts, book.holdings, c);
    KeepNarrower(book.policies, PolicyOf(c), PolicyOf(c));
    OwnCoveragesOf(Keep(book.policies, PolicyOf(c)), book.policies, book.coverages, c);
  }

  /* ---------- rebalancing ---------- */

  lemma RebalancedOwn(accounts: seq<Account>, holdings: seq<Holding>, c: string, id: Uid, t: real)
    requires OwnsAccount(accounts, c, id)
    ensures Keep(Rebalanced(holdings, id, t), HeldBy(accounts, c))
            == Rebalanced(Keep(holdings, HeldBy(accounts, c)), id, t)
  {
    KeepNarrower(holdings, HeldBy(accounts, c), InAccount(id));
    KeepRewritten(holdings, Reshare(id, AccountShares(Keep(holdings, InAccount(id)), t)), HeldBy(accounts, c));
  }

  lemma RebalancedOther(accounts: seq<Account>, holdings: seq<Holding>, c: string, id: Uid, t: real)
    requires !OwnsAccount(accounts, c, id)
    ensures Keep(Rebalanced(holdings, id, t), HeldBy(accounts, c)) == Keep(holdings, HeldBy(accounts, c))
  {
    var f := Reshare(id, AccountShares(Keep(holdings, InAccount(id)), t));
    KeepRewritten(holdings, f, HeldBy(accounts, c));
    var kept := Keep(holdings, HeldBy(accounts, c));
    forall i | 0 <= i < |kept| ensures f(kept[i]) == kept[i] {
      assert kept[i] in kept;
    }
    assert Mapped(kept, f) == kept;
  }

  lemma RebalanceOwn(book: Book, c: string, params: Proposals.Params)
    ensures OwnBook(ApplyRebalance(book, c, params), c) == ApplyRebalance(OwnBook(book, c), c, params)
  {
    var accounts := Keep(book.accounts, OfCustomer(c));
    KeepNarrower(book.accounts, OfCustomer(c), OfCustomer(c));
    if accounts != [] {
      assert accounts[0] in accounts;
      var id := accounts[0].id;
      assert OwnsAccount(book.accounts, c, id);
      KeepNarrower(book.holdings, HeldBy(book.accounts, c), InAccount(id));
      RebalancedOwn(book.accounts, book.holdings, c, id, Proposals.TargetHigh(params));
    }
  }

  lemma RebalanceOther(book: Book, other: string, params: Proposals.Params, c: string)
    requires Unshared(book) && other != c
    ensures OwnBook(ApplyRebalance(book, other, params), c) == OwnBook(book, c)
  {
    var accounts := Keep(book.accounts, OfCustomer(other));
    if accounts != [] {
      assert accounts[0] in accounts;
      RebalancedOther(book.accounts, book.holdings, c, accounts[0].id, Proposals.TargetHigh(params));
    }
  }

  /* ---------- insurance review ---------- */

  lemma PolicyAdded(policies: seq<InsurancePolicy>, coverages: seq<Coverage>, p: InsurancePolicy, c: string)
    requires forall v :: v in coverages ==> v.policy != p.id
    ensures Keep(policies + [p], PolicyOf(c)) == Keep(policies, PolicyOf(c)) + if p.customer == c then [p] else []
    ensures Keep(coverages, CoverageHeldBy(policies + [p], c)) == Keep(coverages, CoverageHeldBy(policies, c))
  {
    KeepAppend(policies, [p], PolicyOf(c));
    assert Keep([p], PolicyOf(c)) == if p.customer == c then [p] else [];
    forall v | v in coverages
      ensures CoverageHeldBy(policies + [p], c)(v) == CoverageHeldBy(policies, c)(v)
    {
      assert forall q :: q in policies + [p] && q.id == v.policy ==> q in policies;
      assert forall q :: q in policies ==> q in policies + [p];
    }
    KeepCongruent(coverages, CoverageHeldBy(policies + [p], c), CoverageHeldBy(policies, c));
  }

  lemma WithPolicyOwn(book: Book, other: string, newId: Uid, c: string)
    requires Unused(book, newId)
    ensures OwnBook(WithPolicy(book, other, newId), c)
            == if other == c then WithPolicy(OwnBook(book, c), c, newId) else OwnBook(book, c)
  {
    var p := InsurancePolicy(newId, other, NEW_PRODUCT, true);
    KeepNarrower(book.policies, PolicyOf(c), ActivePolicyOf(c));
    PolicyAdded(book.policies, book.coverages, p, c);
    assert Keep(book.policies, PolicyOf(c)) + [] == Keep(book.policies, PolicyOf(c));
  }

  lemma WithCardioOwn(book: Book, id: Uid, c: string)
    ensures OwnBook(WithCardio(book, id), c)
            == if OwnsPolicy(book.policies, c, id) then WithCardio(OwnBook(book, c), id) else OwnBook(book, c)
  {
    var v, mine := Coverage(id, CARDIO_RIDER, true), CoverageHeldBy(book.policies, c);
    if OwnsPolicy(book.policies, c, id) {
      KeepNarrower(book.coverages, mine, ActiveCardioOf(id));
    }
    KeepAppend(book.coverages, [v], mine);
    assert Keep([v], mine) == if OwnsPolicy(book.policies, c, id) then [v] else [];
    assert Keep(book.coverages, mine) + [] == Keep(book.coverages, mine);
  }

  lemma ReviewedOwned(book: Book, c: string, newId: Uid, before: (string, string) -> bool)
    ensures OwnsPolicy(WithPolicy(book, c, newId).policies, c, ReviewedPolicy(book, c, newId, before))
    ensures ReviewedPolicy(OwnBook(book, c), c, newId, before) == ReviewedPolicy(book, c, newId, before)
  {
    KeepNarrower(book.policies, PolicyOf(c), ActivePolicyOf(c));
    var active := Keep(book.policies, ActivePolicyOf(c));
    if active == [] {
      var p := InsurancePolicy(newId, c, NEW_PRODUCT, true);
      assert p in WithPolicy(book, c, newId).policies by {
        assert (book.policies + [p])[|book.policies|] == p;
      }
    } else {
      assert FirstByName(active, before) in active;
    }
  }

  lemma WithPolicyUnshared(book: Book, c: string, newId: Uid)
    requires Unshared(book) && Unused(book, newId)
    ensures Unshared(WithPolicy(book, c, newId))
  {
  }

  lemma ReviewOwn(book: Book, c: string, newId: Uid, before: (string, string) -> bool)
    requires Unused(book, newId)
    ensures OwnBook(ApplyInsuranceReview(book, c, newId, before), c)
            == ApplyInsuranceReview(OwnBook(book, c), c, newId, before)
  {
    WithPolicyOwn(book, c, newId, c);
    ReviewedOwned(book, c, newId, before);
    WithCardioOwn(WithPolicy(book, c, newId), ReviewedPolicy(book, c, newId, before), c);
  }

  lemma NotOwned(policies: seq<InsurancePolicy>, other: string, id: Uid, c: string)
    requires forall p, q :: p in policies && q in policies && p.id == q.id ==> p.customer == q.customer
    requires OwnsPolicy(policies, other, id) && other != c
    ensures !OwnsPolicy(policies, c, id)
  {
  }

  lemma ReviewOther(book: Book, other: string, newId: Uid, before: (string, string) -> bool, c: string)
    requires Unshared(book) && Unused(book, newId) && other != c
    ensures OwnBook(ApplyInsuranceReview(book, other, newId, before), c) == OwnBook(book, c)
  {
    var id, with := ReviewedPolicy(book, other, newId, before), WithPolicy(book, other, newId);
    WithPolicyOwn(book, other, newId, c);
    WithPolicyUnshared(book, other, newId);
    ReviewedOwned(book, other, newId, before);
    NotOwned(with.policies, other, id, c);
    WithCardioOwn(with, id, c);
  }

  /* ---------- every handler ---------- */

  /** A handler commutes with looking only at its customer's rows, and is invisible to the others. */
  lemma HandleOwn(book: Book, other: string, kind: Kind, params: Proposals.Params, newId: Uid,
                  before: (string, string) -> bool, c: string)
    requires Unshared(book) && Unused(book, newId)
    ensures OwnBook(Handle(book, other, kind, params, newId, before), c)
            == if other == c then Handle(OwnBook(book, c), c, kind, params, newId, before) else OwnBook(book, c)
  {
    match kind
    case ReviewInsurance =>
      if other == c { ReviewOwn(book, c, newId, before); } else { ReviewOther(book, other, newId, before, c); }
    case RebalancePortfolio =>
      if other == c { RebalanceOwn(book, c, params); } else { RebalanceOther(book, other, params, c); }
    case _ =>
  }

  /** The only id a handler brings in is the one it was given. */
  lemma HandleKeepsBook(book: Book, customer: string, kind: Kind, params: Proposals.Params, newId: Uid,
                        before: (string, string) -> bool, id: Uid)
    requires Unshared(book) && Unused(book, newId)
    ensures Unshared(Handle(book, customer, kind, params, newId, before))
    ensures id != newId && Unused(book, id) ==> Unused(Handle(book, customer, kind, params, newId, before), id)
  {
    match kind
    case ReviewInsurance =>
      WithPolicyUnshared(book, customer, newId);
      var active := Keep(book.policies, ActivePolicyOf(customer));
      if active != [] {
        assert FirstByName(active, before) in active;
      }
    case _ =>
  }
}
