/** The policy engine: which proposals may run on their own and which wait for the customer. */
module Policy {

  /** The action kinds a plan may carry (the planning schema admits no other). */
  datatype Kind =
    | BookHospital
    | ReviewInsurance
    | CashflowPlan
    | RebalancePortfolio
    | Notify
    | Report

  datatype Reason = ExternalEffect | HighRiskDomain | NoSideEffect

  datatype Routing = Routing(needsApproval: bool, reason: Reason)

  predicate HighRisk(kind: Kind) {
    kind.BookHospital? || kind.RebalancePortfolio?
  }

  function Evaluate(external: bool, kind: Kind): Routing {
    if external then Routing(true, ExternalEffect)
    else if HighRisk(kind) then Routing(true, HighRiskDomain)
    else Routing(false, NoSideEffect)
  }

  predicate NeedsApproval(external: bool, kind: Kind) {
    Evaluate(external, kind).needsApproval
  }

  /** The reason on record: the external effect comes before the domain, and nothing else asks for approval. */
  lemma RoutedExactly(external: bool, kind: Kind)
    ensures Evaluate(external, kind)
            == if external then Routing(true, ExternalEffect)
               else match kind
                    case BookHospital => Routing(true, HighRiskDomain)
                    case RebalancePortfolio => Routing(true, HighRiskDomain)
                    case ReviewInsurance => Routing(false, NoSideEffect)
                    case CashflowPlan => Routing(false, NoSideEffect)
                    case Notify => Routing(false, NoSideEffect)
                    case Report => Routing(false, NoSideEffect)
  {
  }
}
