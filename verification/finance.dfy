/** What rebalancing and the insurance review do to a customer's books, as the readers see it. */
module Finance {
  import opened Seqs
  import opened Policy
  import opened Book
  import Proposals

  function Portion(n: nat, whole: real): real { if n == 0 then 0.0 else whole }

  /** `n` equal parts of `x`. */
  function Times(n: nat, x: real): real {
    if n == 0 then 0.0 else x + Times(n - 1, x)
  }

  lemma {:induction false} TimesIsProduct(n: nat, x: real)
    ensures Times(n, x) == n as real * x
  {
    if n > 0 {
      TimesIsProduct(n - 1, x);
      assert n as real * x == (n - 1) as real * x + x;
    }
  }

  /** The equal parts of a group add up to the group's whole. */
  lemma PartsMakeTheWhole(n: nat, whole: real)
    ensures Times(n, Each(n, whole)) == Portion(n, whole)
  {
    TimesIsProduct(n, Each(n, whole));
  }

  predicate AllIn(hs: seq<Holding>, id: Uid) { forall h :: h in hs ==> h.account == id }

  /** Sums over the rewritten rows of an account: each row counts with its group's share. */
  lemma {:induction false} ShareSums(hs: seq<Holding>, id: Uid, s: Shares)
    requires AllIn(hs, id)
    ensures var after := Mapped(hs, Reshare(id, s));
            var high, rest := HighCount(hs), |hs| - HighCount(hs);
            && HighCount(after) == high
            && HighAmount(after) == Times(high, s.highAmount)
            && Total(after) == Times(high, s.highAmount) + Times(rest, s.restAmount)
            && HighWeight(after) == Times(high, s.highWeight)
            && Weight(after) == Times(high, s.highWeight) + Times(rest, s.restWeight)
  {
    if hs != [] {
      var f := Reshare(id, s);
      ShareSums(hs[1..], id, s);
      assert Mapped(hs, f) == [f(hs[0])] + Mapped(hs[1..], f);
      assert Mapped(hs, f)[1..] == Mapped(hs[1..], f);
      assert hs[0].account == id;
    }
  }

  function AccountRows(book: Book, id: Uid): seq<Holding> { Keep(book.holdings, InAccount(id)) }

  /** The account a rebalance of this customer works on; no row is written when there is none. */
  predicate Applies(book: Book, customer: string) {
    var accounts := Keep(book.accounts, OfCustomer(customer));
    accounts != [] && Total(AccountRows(book, accounts[0].id)) > 0.0
  }

  function Target(book: Book, customer: string): Uid
    requires Applies(book, customer)
  {
    Keep(book.accounts, OfCustomer(customer))[0].id
  }

  lemma RowsAfter(holdings: seq<Holding>, id: Uid, s: Shares)
    ensures Keep(Mapped(holdings, Reshare(id, s)), InAccount(id))
            == Mapped(Keep(holdings, InAccount(id)), Reshare(id, s))
  {
    KeepRewritten(holdings, Reshare(id, s), InAccount(id));
  }

  lemma OtherRowsAfter(holdings: seq<Holding>, id: Uid, s: Shares, other: Uid)
    requires other != id
    ensures Keep(Mapped(holdings, Reshare(id, s)), InAccount(other)) == Keep(holdings, InAccount(other))
  {
    var f := Reshare(id, s);
    KeepRewritten(holdings, f, InAccount(other));
    assert Mapped(Keep(holdings, InAccount(other)), f) == Keep(holdings, InAccount(other));
  }

  /** The account after a rebalance to target `t`: value, weights and rows, for every mix of grades. */
  lemma RebalanceSums(holdings: seq<Holding>, id: Uid, t: real)
    ensures var before := Keep(holdings, InAccount(id));
            var after := Keep(Rebalanced(holdings, id, t), InAccount(id));
            var high := HighCount(before);
            var rest := |before| - high;
            var low := Proposals.TargetLow(t);
            && |after| == |before| && HighCount(after) == high
            && HighAmount(after) == Portion(high, Scaled(Total(before), t))
            && Total(after) == Portion(high, Scaled(Total(before), t)) + Portion(rest, Scaled(Total(before), low))
            && HighWeight(after) == Portion(high, t)
            && Weight(after) == Portion(high, t) + Portion(rest, low)
  {
    hide Scaled, Each, Times, Portion, AccountShares, Proposals.TargetLow;
    var before := Keep(holdings, InAccount(id));
    var s := AccountShares(before, t);
    RowsAfter(holdings, id, s);
    ShareSums(before, id, s);
    WholeShares(before, t);
  }

  lemma WholeShares(before: seq<Holding>, t: real)
    ensures var s := AccountShares(before, t);
            var high, rest := HighCount(before), |before| - HighCount(before);
            var low := Proposals.TargetLow(t);
            && Times(high, s.highAmount) == Portion(high, Scaled(Total(before), t))
            && Times(high, s.highWeight) == Portion(high, t)
            && Times(rest, s.restAmount) == Portion(rest, Scaled(Total(before), low))
            && Times(rest, s.restWeight) == Portion(rest, low)
  {
    hide Scaled, Each, Times, Portion, HighCount, Total, Proposals.TargetLow;
    var high, rest := HighCount(before), |before| - HighCount(before);
    PartsMakeTheWhole(high, Scaled(Total(before), t));
    PartsMakeTheWhole(high, t);
    PartsMakeTheWhole(rest, Scaled(Total(before), Proposals.TargetLow(t)));
    PartsMakeTheWhole(rest, Proposals.TargetLow(t));
  }

  lemma PartOfProduct(n: nat, whole: real, v: real)
    ensures Each(n, Scaled(v, whole)) == Scaled(v, Each(n, whole))
  {
  }

  /** Every rewritten row is worth its weight of the old total; grades and accounts never change. */
  lemma RebalancedRows(holdings: seq<Holding>, id: Uid, t: real, i: nat)
    requires i < |holdings|
    ensures |Rebalanced(holdings, id, t)| == |holdings|
    ensures var old_ := holdings[i];
            var new_ := Rebalanced(holdings, id, t)[i];
            && new_.account == old_.account && new_.grade == old_.grade
            && (old_.account != id ==> new_ == old_)
            && (old_.account == id ==>
                  new_.amount == Scaled(Total(Keep(holdings, InAccount(id))), new_.weight))
  {
    var mine := Keep(holdings, InAccount(id));
    var high := HighCount(mine);
    PartOfProduct(high, t, Total(mine));
    PartOfProduct(|mine| - high, Proposals.TargetLow(t), Total(mine));
  }

  /** The value an account has after a rebalance, from its value and row counts before. */
  function ValueAfter(v: real, high: nat, rest: nat, t: real): real {
    Portion(high, Scaled(v, t)) + Portion(rest, Scaled(v, Proposals.TargetLow(t)))
  }

  lemma ScaledWhole(v: real, a: real)
    requires v > 0.0
    ensures Scaled(v, a) == v <==> a == 1.0
    ensures 0.0 < a < 1.0 ==> 0.0 < Scaled(v, a) < v
  {
    if Scaled(v, a) == v {
      assert v * (a - 1.0) == 0.0;
    }
  }

  lemma ValueKept(v: real, high: nat, rest: nat, t: real)
    requires v > 0.0 && t != 0.0 && high + rest > 0
    ensures ValueAfter(v, high, rest, t) == v
            <==> (if rest == 0 then t == 1.0 else high > 0 && t <= 1.0)
    ensures 0.0 < t < 1.0 ==> ValueAfter(v, high, rest, t) > 0.0
  {
    var low := Proposals.TargetLow(t);
    ScaledWhole(v, t);
    ScaledWhole(v, low);
    ScaledWhole(v, t + low);
    assert Scaled(v, t) + Scaled(v, low) == Scaled(v, t + low);
  }

  /**
   * When is value conserved? For an account of positive value: exactly when both groups hold
   * something and the target is at most one, or all of it is high-risk and the target is one.
   * (A target of zero never reaches this code: it counts as absent.)
   */
  lemma ConservedExactly(holdings: seq<Holding>, id: Uid, t: real)
    requires t != 0.0
    requires Total(Keep(holdings, InAccount(id))) > 0.0
    ensures var before := Keep(holdings, InAccount(id));
            var high := HighCount(before);
            Total(Keep(Rebalanced(holdings, id, t), InAccount(id))) == Total(before)
            <==> (if high == |before| then t == 1.0 else high > 0 && t <= 1.0)
  {
    var before := Keep(holdings, InAccount(id));
    RebalanceSums(holdings, id, t);
    ValueKept(Total(before), HighCount(before), |before| - HighCount(before), t);
  }

  lemma SameSharesSameRows(holdings: seq<Holding>, id: Uid, s: Shares)
    ensures Mapped(Mapped(holdings, Reshare(id, s)), Reshare(id, s)) == Mapped(holdings, Reshare(id, s))
  {
  }

  /** By how much a rebalance multiplies the account's value. */
  function Factor(high: nat, rest: nat, t: real): real {
    Portion(high, t) + Portion(rest, Proposals.TargetLow(t))
  }

  lemma ValueTimesFactor(v: real, high: nat, rest: nat, t: real)
    ensures ValueAfter(v, high, rest, t) == Scaled(v, Factor(high, rest, t))
  {
  }

  lemma FactorCases(high: nat, rest: nat, t: real)
    requires t != 0.0 && high + rest > 0
    ensures Factor(high, rest, t) == 1.0 <==> (if rest == 0 then t == 1.0 else high > 0 && t <= 1.0)
    ensures Factor(high, rest, t) == 0.0 <==> high == 0 && t >= 1.0
    ensures Factor(high, rest, t) < 0.0 <==> rest == 0 && t < 0.0
  {
  }

  lemma TwiceScaled(v: real, k: real)
    requires v > 0.0
    ensures Scaled(Scaled(v, k), k) == Scaled(v, k) <==> k == 0.0 || k == 1.0
    ensures (Scaled(v, k) <= 0.0) == (k <= 0.0)
  {
    var w := Scaled(v, k);
    if Scaled(w, k) == w {
      ZeroProduct(w, k - 1.0);
      ZeroProduct(v, k);
    }
    SignOfProduct(v, k);
  }

  lemma ZeroProduct(a: real, b: real)
    ensures a * b == 0.0 ==> a == 0.0 || b == 0.0
  {
  }

  lemma SignOfProduct(v: real, k: real)
    requires v > 0.0
    ensures (v * k <= 0.0) == (k <= 0.0)
  {
  }

  /** Where every row receives nothing once, it receives nothing twice. */
  lemma EmptiedShares(rest: nat, v: real, w: real)
    ensures Each(rest, Scaled(v, 0.0)) == Each(rest, Scaled(w, 0.0))
  {
    assert Scaled(v, 0.0) == 0.0 && Scaled(w, 0.0) == 0.0;
  }

  lemma {:induction false} NoHigh(hs: seq<Holding>)
    requires HighCount(hs) == 0
    ensures forall h :: h in hs ==> !h.grade.High?
  {
    if hs != [] {
      NoHigh(hs[1..]);
    }
  }

  lemma ReshareAlike(holdings: seq<Holding>, id: Uid, s: Shares, s': Shares)
    requires HighCount(Keep(holdings, InAccount(id))) == 0
    requires s.restAmount == s'.restAmount && s.restWeight == s'.restWeight
    ensures Mapped(holdings, Reshare(id, s)) == Mapped(holdings, Reshare(id, s'))
  {
    var mine := Keep(holdings, InAccount(id));
    NoHigh(mine);
    forall h | h in holdings ensures Reshare(id, s)(h) == Reshare(id, s')(h) {
      assert h.account == id ==> h in mine;
    }
    MappedSame(holdings, Reshare(id, s), Reshare(id, s'));
  }

  /** Rewriting the same account twice: exactly when the value is multiplied by one or by zero. */
  lemma SecondRewriteExactly(holdings: seq<Holding>, id: Uid, t: real)
    requires t != 0.0 && Total(Keep(holdings, InAccount(id))) > 0.0
    ensures var once := Rebalanced(holdings, id, t);
            var before := Keep(holdings, InAccount(id));
            var k := Factor(HighCount(before), |before| - HighCount(before), t);
            Rebalanced(once, id, t) == once <==> k == 0.0 || k == 1.0
  {
    hide Scaled, Each, Proposals.TargetLow, Factor, AccountShares;
    var once := Rebalanced(holdings, id, t);
    var before, after := Keep(holdings, InAccount(id)), Keep(once, InAccount(id));
    var v, high, rest := Total(before), HighCount(before), |before| - HighCount(before);
    var k := Factor(high, rest, t);
    RebalanceSums(holdings, id, t);
    RebalanceSums(once, id, t);
    ValueTimesFactor(v, high, rest, t);
    ValueTimesFactor(Total(after), high, rest, t);
    TwiceScaled(v, k);
    FactorCases(high, rest, t);
    if k == 1.0 {
      ScaledByOne(v);
      SameShares(before, after, t);
      SameSharesSameRows(holdings, id, AccountShares(before, t));
    } else if k == 0.0 {
      RestShares(before, after, t);
      ReshareAlike(once, id, AccountShares(after, t), AccountShares(before, t));
      SameSharesSameRows(holdings, id, AccountShares(before, t));
    }
  }

  lemma ScaledByOne(v: real)
    ensures Scaled(v, 1.0) == v
  {
  }

  lemma SameShares(a: seq<Holding>, b: seq<Holding>, t: real)
    requires Total(a) == Total(b) && HighCount(a) == HighCount(b) && |a| == |b|
    ensures AccountShares(a, t) == AccountShares(b, t)
  {
    hide Each, Scaled, HighCount, Total, Proposals.TargetLow;
  }

  lemma RestShares(a: seq<Holding>, b: seq<Holding>, t: real)
    requires HighCount(a) == HighCount(b) == 0 && |a| == |b| && t >= 1.0
    ensures var s, s' := AccountShares(b, t), AccountShares(a, t);
            s.restAmount == s'.restAmount && s.restWeight == s'.restWeight
  {
    EmptiedShares(|a|, Total(a), Total(b));
  }

  lemma TargetNotZero(params: Proposals.Params)
    ensures Proposals.TargetHigh(params) != 0.0
  {
  }

  /** The cases in which a repeated rebalance changes nothing. */
  predicate Repeatable(high: nat, rest: nat, t: real) {
    || t == 1.0
    || (t < 1.0 && high > 0 && rest > 0)
    || (t > 1.0 && high == 0)
    || (t < 0.0 && rest == 0)
  }

  /**
   * When does approving the same rebalance twice change nothing? Exactly for a target of one, for
   * a smaller target when both risk groups hold something, and where the first run left nothing
   * positive to rebalance.
   */
  lemma SecondRunExactly(book: Book, customer: string, params: Proposals.Params)
    requires Applies(book, customer)
    ensures var once := ApplyRebalance(book, customer, params);
            var rows := AccountRows(book, Target(book, customer));
            ApplyRebalance(once, customer, params) == once
            <==> Repeatable(HighCount(rows), |rows| - HighCount(rows), Proposals.TargetHigh(params))
  {
    hide Scaled, Each, Rebalanced, AccountShares, Proposals.TargetHigh, Factor;
    var id, t := Target(book, customer), Proposals.TargetHigh(params);
    var before := AccountRows(book, id);
    var high, rest := HighCount(before), |before| - HighCount(before);
    TargetNotZero(params);
    SecondRewriteExactly(book.holdings, id, t);
    RebalanceSums(book.holdings, id, t);
    ValueTimesFactor(Total(before), high, rest, t);
    TwiceScaled(Total(before), Factor(high, rest, t));
    FactorCases(high, rest, t);
  }

  /* ---------- the readers afterwards ---------- */

  lemma {:induction false} OtherAccountsUntouched(accounts: seq<Account>, holdings: seq<Holding>, id: Uid, t: real)
    requires forall a :: a in accounts ==> a.id != id
    ensures HoldingsOf(accounts, Rebalanced(holdings, id, t)) == HoldingsOf(accounts, holdings)
  {
    if accounts != [] {
      OtherRowsAfter(holdings, id, AccountShares(Keep(holdings, InAccount(id)), t), accounts[0].id);
      OtherAccountsUntouched(accounts[1..], holdings, id, t);
    }
  }

  lemma {:induction false} HighWeightAppend(s: seq<Holding>, t: seq<Holding>)
    ensures HighWeight(s + t) == HighWeight(s) + HighWeight(t)
    ensures HighAmount(s + t) == HighAmount(s) + HighAmount(t)
    ensures Total(s + t) == Total(s) + Total(t)
  {
    if s == [] {
      assert s + t == t;
    } else {
      assert (s + t)[1..] == s[1..] + t;
      HighWeightAppend(s[1..], t);
    }
  }

  ghost predicate UniqueAccounts(accounts: seq<Account>) {
    forall i, j :: 0 <= i < j < |accounts| ==> accounts[i].id != accounts[j].id
  }

  lemma {:induction false} KeepUniqueAccounts(accounts: seq<Account>, p: Account -> bool)
    requires UniqueAccounts(accounts)
    ensures UniqueAccounts(Keep(accounts, p))
  {
    if accounts != [] {
      KeepUniqueAccounts(accounts[1..], p);
      var kept := Keep(accounts[1..], p);
      forall j | 0 <= j < |kept| ensures kept[j].id != accounts[0].id {
        assert kept[j] in accounts[1..];
      }
    }
  }

  /**
   * What the portfolio reader reports after a rebalance, with any number of accounts: the target
   * (or zero without high-risk holdings) for the first account, plus what the others hold.
   */
  lemma ReaderAfterRebalance(book: Book, customer: string, params: Proposals.Params)
    requires UniqueAccounts(book.accounts)
    requires Applies(book, customer)
    ensures var accounts := Keep(book.accounts, OfCustomer(customer));
            var after := ApplyRebalance(book, customer, params);
            HighWeight(CustomerHoldings(after, customer))
            == Portion(HighCount(AccountRows(book, accounts[0].id)), Proposals.TargetHigh(params))
               + HighWeight(HoldingsOf(accounts[1..], book.holdings))
  {
    var accounts := Keep(book.accounts, OfCustomer(customer));
    var id, t := accounts[0].id, Proposals.TargetHigh(params);
    var after := ApplyRebalance(book, customer, params);
    assert after.holdings == Rebalanced(book.holdings, id, t);
    KeepUniqueAccounts(book.accounts, OfCustomer(customer));
    OtherAccountsUntouched(accounts[1..], book.holdings, id, t);
    RebalanceSums(book.holdings, id, t);
    HighWeightAppend(Keep(after.holdings, InAccount(id)), HoldingsOf(accounts[1..], after.holdings));
  }

  /* ---------- what the readers look at ---------- */

  lemma {:induction false} OwnedCopies(accounts: seq<Account>, holdings: seq<Holding>, h: Holding)
    requires UniqueAccounts(accounts)
    ensures multiset(HoldingsOf(accounts, holdings))[h]
            == if exists a :: a in accounts && a.id == h.account then multiset(holdings)[h] else 0
  {
    if accounts != [] {
      var own, rest := Keep(holdings, InAccount(accounts[0].id)), HoldingsOf(accounts[1..], holdings);
      OwnedCopies(accounts[1..], holdings, h);
      KeptCopies(holdings, InAccount(accounts[0].id), h);
      assert multiset(own + rest)[h] == multiset(own)[h] + multiset(rest)[h];
      if accounts[0].id == h.account {
        assert accounts[0] in accounts;
        assert forall a :: a in accounts[1..] ==> a.id != h.account;
      } else {
        assert forall a :: a in accounts && a != accounts[0] ==> a in accounts[1..];
      }
    }
  }

  /** The portfolio reader takes every holding in an account of the customer, as often as it is there, and no other. */
  lemma ReaderTakesAll(book: Book, c: string, h: Holding)
    requires UniqueAccounts(book.accounts)
    ensures multiset(CustomerHoldings(book, c))[h]
            == if exists a :: a in book.accounts && a.customer == c && a.id == h.account
               then multiset(book.holdings)[h] else 0
  {
    var mine := Keep(book.accounts, OfCustomer(c));
    KeepUniqueAccounts(book.accounts, OfCustomer(c));
    OwnedCopies(mine, book.holdings, h);
    assert forall a :: a in mine <==> a in book.accounts && a.customer == c;
  }

  lemma {:induction false} CoverageWasRow(policies: seq<InsurancePolicy>, coverages: seq<Coverage>, v: Coverage)
    requires v in CoveragesOf(policies, coverages)
    ensures v in coverages && exists p :: p in policies && p.id == v.policy
  {
    if v in Keep(coverages, CoverageOf(policies[0].id)) {
      assert policies[0] in policies;
    } else {
      CoverageWasRow(policies[1..], coverages, v);
    }
  }

  /** A gap is reported exactly when no policy of the customer, active or not, has active cardiovascular cover. */
  lemma GapIsExact(book: Book, c: string)
    ensures HasGap(book, c)
            <==> !exists p, v :: p in book.policies && p.customer == c && v in book.coverages && v.policy == p.id
                                 && v.active && (v.kind == "심혈관특약" || v.kind == "심혈관")
  {
    var mine := Keep(book.policies, PolicyOf(c));
    forall p, v | p in book.policies && p.customer == c && v in book.coverages && v.policy == p.id
      ensures v in CoveragesOf(mine, book.coverages)
    {
      assert p in mine;
      CoverageIsRead(mine, book.coverages, p, v);
    }
    forall v | v in CoveragesOf(mine, book.coverages)
      ensures v in book.coverages && exists p :: p in book.policies && p.customer == c && p.id == v.policy
    {
      CoverageWasRow(mine, book.coverages, v);
    }
  }

  /* ---------- which policy a review is about ---------- */

  /** A collation: it orders texts, and texts it does not tell apart rank alike. */
  ghost predicate Collation(before: (string, string) -> bool) {
    && (forall x, y :: before(x, y) ==> !before(y, x))
    && (forall x, y, z :: before(x, z) ==> before(x, y) || before(y, z))
  }

  lemma {:induction false} FirstIsLeast(ps: seq<InsurancePolicy>, before: (string, string) -> bool) returns (k: nat)
    requires ps != [] && Collation(before)
    ensures k < |ps| && ps[k] == FirstByName(ps, before)
    ensures forall j :: 0 <= j < |ps| ==>
              !before(ps[j].product, ps[k].product) && (j < k ==> before(ps[k].product, ps[j].product))
  {
    if |ps| == 1 {
      k := 0;
    } else {
      var m := FirstIsLeast(ps[1..], before);
      k := if before(ps[1..][m].product, ps[0].product) then m + 1 else 0;
      forall j | 0 <= j < |ps|
        ensures !before(ps[j].product, ps[k].product) && (j < k ==> before(ps[k].product, ps[j].product))
      {
        assert j > 0 ==> ps[j] == ps[1..][j - 1];
      }
    }
  }

  predicate ActiveAt(policies: seq<InsurancePolicy>, c: string, i: nat) {
    i < |policies| && policies[i].customer == c && policies[i].active
  }

  /** At `i` stands the first by product name of the active policies of `c`, the earliest row among equals. */
  ghost predicate FirstActive(policies: seq<InsurancePolicy>, c: string, i: nat, before: (string, string) -> bool) {
    && ActiveAt(policies, c, i)
    && forall j: nat :: ActiveAt(policies, c, j) ==>
         && !before(policies[j].product, policies[i].product)
         && (j < i ==> before(policies[i].product, policies[j].product))
  }

  /** The cardiovascular rider is there afterwards; one row is added exactly when it was not. */
  ghost predicate RiderAdded(before: seq<Coverage>, after: seq<Coverage>, id: Uid) {
    if exists v :: v in before && v.policy == id && v.kind == "심혈관특약" && v.active then after == before
    else after == before + [Coverage(id, "심혈관특약", true)]
  }

  lemma RiderWritten(book: Book, id: Uid)
    ensures var after := WithCardio(book, id);
            after == book.(coverages := after.coverages) && RiderAdded(book.coverages, after.coverages, id)
  {
    assert forall v :: v in book.coverages && v.policy == id && v.kind == "심혈관특약" && v.active
                       ==> v in Keep(book.coverages, ActiveCardioOf(id));
    assert forall v :: v in Keep(book.coverages, ActiveCardioOf(id)) ==> v in book.coverages;
    if Keep(book.coverages, ActiveCardioOf(id)) != [] {
      assert Keep(book.coverages, ActiveCardioOf(id))[0] in book.coverages;
    }
  }

  /**
   * A review is about one policy: the customer's first active one by product name, to which the
   * cardiovascular rider is added unless it has an active one. Without any active policy a new one
   * is opened, and the rider goes there. Nothing else is written.
   */
  lemma ReviewedPolicyIsFirst(book: Book, c: string, params: Proposals.Params, newId: Uid,
                              before: (string, string) -> bool)
    requires Collation(before)
    ensures var after := Handle(book, c, ReviewInsurance, params, newId, before);
            if exists i: nat :: ActiveAt(book.policies, c, i) then
              && after == book.(coverages := after.coverages)
              && exists i: nat :: FirstActive(book.policies, c, i, before)
                                  && RiderAdded(book.coverages, after.coverages, book.policies[i].id)
            else
              && after == book.(policies := book.policies + [InsurancePolicy(newId, c, "JB 보장점검 결과", true)],
                                coverages := after.coverages)
              && RiderAdded(book.coverages, after.coverages, newId)
  {
    hide Keep, WithCardio, FirstByName;
    var mine := ActivePolicyOf(c);
    var active := Keep(book.policies, mine);
    KeptInPlace(book.policies, mine);
    if active == [] {
      assert forall i: nat :: i < |book.policies| ==> !mine(book.policies[i]) by {
        forall i: nat | i < |book.policies| ensures !mine(book.policies[i]) {
          assert book.policies[i] in book.policies;
        }
      }
      RiderWritten(WithPolicy(book, c, newId), newId);
    } else {
      var k := FirstIsLeast(active, before);
      var i := KeptFrom(book.policies, mine, k, |book.policies|);
      RiderWritten(book, book.policies[i].id);
      assert active[k] == book.policies[i];
      forall j: nat | ActiveAt(book.policies, c, j)
        ensures !before(book.policies[j].product, book.policies[i].product)
                && (j < i ==> before(book.policies[i].product, book.policies[j].product))
      {
        assert active[Before(book.policies, mine, j)] == book.policies[j];
      }
      assert FirstActive(book.policies, c, i, before);
    }
  }

  /** The insurance reader reports no gap after a review, whatever policies there were. */
  lemma ReviewClosesGap(book: Book, customer: string, newId: Uid, before: (string, string) -> bool)
    ensures !HasGap(ApplyInsuranceReview(book, customer, newId, before), customer)
  {
    var id := ReviewedPolicy(book, customer, newId, before);
    var withPolicy := WithPolicy(book, customer, newId);
    var after := ApplyInsuranceReview(book, customer, newId, before);
    var active := Keep(book.policies, ActivePolicyOf(customer));
    var v: Coverage;
    if Keep(withPolicy.coverages, ActiveCardioOf(id)) != [] {
      v := Keep(withPolicy.coverages, ActiveCardioOf(id))[0];
    } else {
      v := Coverage(id, CARDIO_RIDER, true);
      assert after.coverages[|after.coverages| - 1] == v;
    }
    assert v in after.coverages && v.policy == id && v.active && v.kind == CARDIO_RIDER;
    var p: InsurancePolicy;
    if active != [] {
      p := FirstByName(active, before);
    } else {
      p := InsurancePolicy(newId, customer, NEW_PRODUCT, true);
      assert after.policies[|after.policies| - 1] == p;
    }
    assert p in after.policies && p.customer == customer && p.id == id;
    CoverageIsRead(Keep(after.policies, PolicyOf(customer)), after.coverages, p, v);
  }

  lemma {:induction false} CoverageIsRead(
      policies: seq<InsurancePolicy>, coverages: seq<Coverage>, p: InsurancePolicy, v: Coverage)
    requires p in policies && v in coverages && v.policy == p.id
    ensures v in CoveragesOf(policies, coverages)
  {
    if policies[0].id == p.id {
      assert v in Keep(coverages, CoverageOf(policies[0].id));
    } else {
      CoverageIsRead(policies[1..], coverages, p, v);
    }
  }

  /** A repeated review writes nothing. */
  lemma SecondReviewWritesNothing(book: Book, customer: string, newId: Uid, again: Uid,
                                  before: (string, string) -> bool)
    ensures var once := ApplyInsuranceReview(book, customer, newId, before);
            ApplyInsuranceReview(once, customer, again, before) == once
  {
    var id := ReviewedPolicy(book, customer, newId, before);
    var once := ApplyInsuranceReview(book, customer, newId, before);
    var active := Keep(book.policies, ActivePolicyOf(customer));
    if active == [] {
      var p := InsurancePolicy(newId, customer, NEW_PRODUCT, true);
      KeepAppend(book.policies, [p], ActivePolicyOf(customer));
      assert Keep([p], ActivePolicyOf(customer)) == [p];
    }
    assert ReviewedPolicy(once, customer, again, before) == id;
    var v := Coverage(id, CARDIO_RIDER, true);
    if Keep(book.coverages, ActiveCardioOf(id)) == [] {
      assert once.coverages[|once.coverages| - 1] == v;
      assert v in Keep(once.coverages, ActiveCardioOf(id));
    }
  }
}
