/** The customer's finance tables: the readers behind the agent's context and the mock executors. */
module Book {
  import opened Seqs
  import opened Policy
  import Proposals

  datatype Table = ForSession | ForThread | ForProposal | ForPolicy | ForAccount

  /** A uuid. Every request draws its uuids from a block of its own, named by `draw`. */
  datatype Uid = Uid(draw: nat, table: Table, n: nat)

  datatype Grade = Low | Mid | High

  datatype Account = Account(id: Uid, customer: string)
  datatype Holding = Holding(account: Uid, grade: Grade, amount: real, weight: real)
  datatype InsurancePolicy = InsurancePolicy(id: Uid, customer: string, product: string, active: bool)
  datatype Coverage = Coverage(policy: Uid, kind: string, active: bool)

  /** Rows are listed in the order in which an unordered select returns them. */
  datatype Book = Book(
    accounts: seq<Account>,
    holdings: seq<Holding>,
    policies: seq<InsurancePolicy>,
    coverages: seq<Coverage>)

  const CARDIO_RIDER := "심혈관특약"
  const CARDIO := "심혈관"
  const GAP := "심혈관 특약 없음"
  const NEW_PRODUCT := "JB 보장점검 결과"

  function OfCustomer(c: string): Account -> bool { (a: Account) => a.customer == c }
  function InAccount(id: Uid): Holding -> bool { (h: Holding) => h.account == id }
  function PolicyOf(c: string): InsurancePolicy -> bool { (p: InsurancePolicy) => p.customer == c }
  function ActivePolicyOf(c: string): InsurancePolicy -> bool {
    (p: InsurancePolicy) => p.customer == c && p.active
  }
  function CoverageOf(id: Uid): Coverage -> bool { (v: Coverage) => v.policy == id }
  function ActiveCardioOf(id: Uid): Coverage -> bool {
    (v: Coverage) => v.policy == id && v.kind == CARDIO_RIDER && v.active
  }

  /* ---------- sums ---------- */

  function Total(hs: seq<Holding>): real {
    if hs == [] then 0.0 else hs[0].amount + Total(hs[1..])
  }

  function HighAmount(hs: seq<Holding>): real {
    if hs == [] then 0.0 else (if hs[0].grade.High? then hs[0].amount else 0.0) + HighAmount(hs[1..])
  }

  function HighWeight(hs: seq<Holding>): real {
    if hs == [] then 0.0 else (if hs[0].grade.High? then hs[0].weight else 0.0) + HighWeight(hs[1..])
  }

  function Weight(hs: seq<Holding>): real {
    if hs == [] then 0.0 else hs[0].weight + Weight(hs[1..])
  }

  function HighCount(hs: seq<Holding>): (n: nat)
    ensures n <= |hs|
  {
    if hs == [] then 0 else (if hs[0].grade.High? then 1 else 0) + HighCount(hs[1..])
  }

  /* ---------- rebalancing ---------- */

  /** The amount and weight every row of a risk group receives. */
  datatype Shares = Shares(highAmount: real, highWeight: real, restAmount: real, restWeight: real)

  /** An equal part of `whole` for each of `n` rows; an empty group receives nothing. */
  function Each(n: nat, whole: real): real {
    if n == 0 then 0.0 else whole / (n as real)
  }

  function Scaled(total: real, share: real): real {
    total * share
  }

  function SharesFor(target: real, total: real, high: nat, rest: nat): Shares {
    var low := Proposals.TargetLow(target);
    Shares(Each(high, Scaled(total, target)), Each(high, target), Each(rest, Scaled(total, low)), Each(rest, low))
  }

  function Share(h: Holding, s: Shares): Holding {
    if h.grade.High? then h.(amount := s.highAmount, weight := s.highWeight)
    else h.(amount := s.restAmount, weight := s.restWeight)
  }

  function Reshare(id: Uid, s: Shares): Holding -> Holding {
    (h: Holding) => if h.account == id then Share(h, s) else h
  }

  /** The shares of the account whose rows are `mine`. */
  function AccountShares(mine: seq<Holding>, target: real): Shares {
    SharesFor(target, Total(mine), HighCount(mine), |mine| - HighCount(mine))
  }

  /** The `holdings` table after the account `id` was rebalanced. */
  function Rebalanced(holdings: seq<Holding>, id: Uid, target: real): seq<Holding> {
    Mapped(holdings, Reshare(id, AccountShares(Keep(holdings, InAccount(id)), target)))
  }

  function ApplyRebalance(book: Book, customer: string, params: Proposals.Params): Book {
    var accounts := Keep(book.accounts, OfCustomer(customer));
    if accounts == [] then book
    else
      var mine := Keep(book.holdings, InAccount(accounts[0].id));
      if mine == [] || Total(mine) <= 0.0 then book
      else book.(holdings := Rebalanced(book.holdings, accounts[0].id, Proposals.TargetHigh(params)))
  }

  /* ---------- insurance review ---------- */

  /** `before` is the collation by which the database orders product names. */
  function FirstByName(ps: seq<InsurancePolicy>, before: (string, string) -> bool): (r: InsurancePolicy)
    requires ps != []
    ensures r in ps
  {
    if |ps| == 1 then ps[0]
    else
      var rest := FirstByName(ps[1..], before);
      if before(rest.product, ps[0].product) then rest else ps[0]
  }

  function WithPolicy(book: Book, customer: string, newId: Uid): Book {
    if Keep(book.policies, ActivePolicyOf(customer)) != [] then book
    else book.(policies := book.policies + [InsurancePolicy(newId, customer, NEW_PRODUCT, true)])
  }

  function WithCardio(book: Book, id: Uid): Book {
    if Keep(book.coverages, ActiveCardioOf(id)) != [] then book
    else book.(coverages := book.coverages + [Coverage(id, CARDIO_RIDER, true)])
  }

  function ReviewedPolicy(book: Book, customer: string, newId: Uid, before: (string, string) -> bool): Uid {
    var active := Keep(book.policies, ActivePolicyOf(customer));
    if active == [] then newId else FirstByName(active, before).id
  }

  function ApplyInsuranceReview(book: Book, customer: string, newId: Uid, before: (string, string) -> bool): Book {
    WithCardio(WithPolicy(book, customer, newId), ReviewedPolicy(book, customer, newId, before))
  }

  /** The finance tables after the handler of `kind` ran in mock mode; other kinds touch none. */
  function Handle(book: Book, customer: string, kind: Kind, params: Proposals.Params, newId: Uid,
                  before: (string, string) -> bool): Book
  {
    match kind
    case ReviewInsurance => ApplyInsuranceReview(book, customer, newId, before)
    case RebalancePortfolio => ApplyRebalance(book, customer, params)
    case _ => book
  }

  /* ---------- readers ---------- */

  function HoldingsOf(accounts: seq<Account>, holdings: seq<Holding>): seq<Holding> {
    if accounts == [] then []
    else Keep(holdings, InAccount(accounts[0].id)) + HoldingsOf(accounts[1..], holdings)
  }

  function CustomerHoldings(book: Book, customer: string): seq<Holding> {
    HoldingsOf(Keep(book.accounts, OfCustomer(customer)), book.holdings)
  }

  function CoveragesOf(policies: seq<InsurancePolicy>, coverages: seq<Coverage>): seq<Coverage> {
    if policies == [] then []
    else Keep(coverages, CoverageOf(policies[0].id)) + CoveragesOf(policies[1..], coverages)
  }

  predicate Covers(vs: seq<Coverage>) {
    exists v :: v in vs && v.active && (v.kind == CARDIO_RIDER || v.kind == CARDIO)
  }

  predicate HasGap(book: Book, customer: string) {
    !Covers(CoveragesOf(Keep(book.policies, PolicyOf(customer)), book.coverages))
  }
}
