/**
 `backend/graph/state.py`: the vocabulary and the state of the support workflow.
 */
module WorkflowStates {
  import opened Options

  datatype TicketCategory = Billing | Technical | Account | General

  datatype SupportAgentType = BillingAgent | TechnicalAgent | AccountAgent | GeneralAgent

  datatype WorkflowStatus = Pending | InProgress | Completed

  function CategoryValue(c: TicketCategory): string {
    match c
    case Billing => "billing"
    case Technical => "technical"
    case Account => "account"
    case General => "general"
  }

  /** `TicketCategory(value)`; None stands for the ValueError. */
  function ParseCategory(value: string): Option<TicketCategory> {
    if value == "billing" then Some(Billing)
    else if value == "technical" then Some(Technical)
    else if value == "account" then Some(Account)
    else if value == "general" then Some(General)
    else None
  }

  /** The cached form of a category reads back as that category, and nothing else does. */
  lemma CategoryRoundTrip(value: string, c: TicketCategory)
    ensures ParseCategory(value) == Some(c) <==> value == CategoryValue(c)
  {
    assert "billing" != "technical" && "billing" != "account" && "billing" != "general";
    assert "technical" != "account" && "technical" != "general" && "account" != "general";
  }

  function AgentValue(a: SupportAgentType): string {
    match a
    case BillingAgent => "billing_agent"
    case TechnicalAgent => "technical_agent"
    case AccountAgent => "account_agent"
    case GeneralAgent => "general_agent"
  }

  /** Fields a node has not set yet are None. */
  datatype WorkflowState = WorkflowState(
    ticketId: string,
    customerId: string,
    ticketText: string,
    category: Option<TicketCategory>,
    selectedAgent: Option<SupportAgentType>,
    retrievedContext: Option<string>,
    draftResponse: Option<string>,
    agentUnresolved: Option<bool>,
    confidenceScore: Option<real>,
    requiresHumanReview: Option<bool>,
    matchedPolicyRules: Option<seq<string>>,
    workflowStatus: Option<WorkflowStatus>)

  /** `state.get(field, default)` */
  function GetOr<T>(field: Option<T>, default: T): T {
    match field
    case Some(value) => value
    case None => default
  }
}
