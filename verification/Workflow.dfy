/**
 `backend/graph/nodes.py` and `backend/graph/workflow.py`: the six nodes as partial updates of
 the workflow state, and the graph that fixes their order.
 */
module Workflow {
  import opened Options
  import opened WorkflowStates
  import opened PolicyRules
  import opened Agents

  datatype Node = LoadTicket | ClassifyTicket | SelectAgent | ExecuteAgent | ConfidenceEvaluation | PersistResults

  const PLACEHOLDER_CONFIDENCE_SCORE := 1.0

  /**
   What the nodes get from outside: the classifier, the knowledge base, the model, and `float()`.
   A category or lookup of None stands for a classifier or tool that raised.
   */
  datatype Oracles = Oracles(
    category: Option<TicketCategory>,
    lookup: Option<string>,
    generation: Generation,
    fl: Rounding)

  /** A partial update: None leaves a field as it is. */
  datatype Update = Update(
    category: Option<TicketCategory>,
    selectedAgent: Option<SupportAgentType>,
    retrievedContext: Option<string>,
    draftResponse: Option<string>,
    agentUnresolved: Option<bool>,
    confidenceScore: Option<real>,
    requiresHumanReview: Option<bool>,
    matchedPolicyRules: Option<seq<string>>,
    workflowStatus: Option<WorkflowStatus>)

  const NO_CHANGE := Update(None, None, None, None, None, None, None, None, None)

  function Or<T>(new_: Option<T>, current: Option<T>): Option<T> {
    if new_.Some? then new_ else current
  }

  function Merge(s: WorkflowState, u: Update): WorkflowState {
    s.(category := Or(u.category, s.category),
       selectedAgent := Or(u.selectedAgent, s.selectedAgent),
       retrievedContext := Or(u.retrievedContext, s.retrievedContext),
       draftResponse := Or(u.draftResponse, s.draftResponse),
       agentUnresolved := Or(u.agentUnresolved, s.agentUnresolved),
       confidenceScore := Or(u.confidenceScore, s.confidenceScore),
       requiresHumanReview := Or(u.requiresHumanReview, s.requiresHumanReview),
       matchedPolicyRules := Or(u.matchedPolicyRules, s.matchedPolicyRules),
       workflowStatus := Or(u.workflowStatus, s.workflowStatus))
  }

  function AgentByCategory(c: TicketCategory): SupportAgentType {
    match c
    case Billing => BillingAgent
    case Technical => TechnicalAgent
    case Account => AccountAgent
    case General => GeneralAgent
  }

  /** A ticket goes to the agent that bears its category's name. */
  lemma AgentBearsCategoryName(c: TicketCategory)
    ensures AgentValue(AgentByCategory(c)) == CategoryValue(c) + "_agent"
  {
    assert "billing" + "_agent" == "billing_agent";
    assert "technical" + "_agent" == "technical_agent";
    assert "account" + "_agent" == "account_agent";
    assert "general" + "_agent" == "general_agent";
  }

  function PolicySignals(s: WorkflowState): Signals {
    Signals(s.ticketText, PLACEHOLDER_CONFIDENCE_SCORE, GetOr(s.agentUnresolved, false))
  }

  /** Nothing makes a node raise but a classifier that raises and an agent that cannot be built. */
  predicate NodeRaises(node: Node, o: Oracles) {
    match node
    case ClassifyTicket => o.category.None?
    case ExecuteAgent => Respond(o.lookup, o.generation).None?
    case _ => false
  }

  /** The update a node makes of a state; a node that raises makes none. */
  function NodeUpdate(node: Node, s: WorkflowState, o: Oracles): Update {
    match node
    case LoadTicket => NO_CHANGE
    case ClassifyTicket => NO_CHANGE.(category := o.category)
    case SelectAgent => NO_CHANGE.(selectedAgent := Some(AgentByCategory(GetOr(s.category, General))))
    case ExecuteAgent =>
      (match Respond(o.lookup, o.generation)
       case None => NO_CHANGE
       case Some(res) =>
         NO_CHANGE.(retrievedContext := Some(res.retrievedContext),
                    draftResponse := Some(res.response),
                    agentUnresolved := Some(res.unresolved)))
    case ConfidenceEvaluation =>
      var rules := Firing(ALL_RULES, PolicySignals(s), o.fl);
      NO_CHANGE.(confidenceScore := Some(PLACEHOLDER_CONFIDENCE_SCORE),
                 requiresHumanReview := Some(rules != []),
                 matchedPolicyRules := Some(rules))
    case PersistResults => NO_CHANGE.(workflowStatus := Some(Completed))
  }

  /** `confidence_evaluation_node`: review is required if and only if some rule fires on the ticket. */
  method EvaluateConfidence(s: WorkflowState, o: Oracles) returns (u: Update)
    ensures u == NodeUpdate(ConfidenceEvaluation, s, o)
    ensures u.requiresHumanReview == Some(exists rule | rule in ALL_RULES :: Fires(rule, PolicySignals(s), o.fl))
    ensures u.confidenceScore == Some(1.0)
    ensures u.category.None? && u.selectedAgent.None? && u.draftResponse.None? && u.workflowStatus.None?
  {
    var e := EvaluatePolicy(s.ticketText, PLACEHOLDER_CONFIDENCE_SCORE, GetOr(s.agentUnresolved, false), o.fl);
    assert e.requiresHumanReview <==> e.matchedRules != [] by {
      if e.matchedRules != [] {
        assert e.matchedRules[0] in e.matchedRules;
      }
    }
    u := NO_CHANGE.(confidenceScore := Some(PLACEHOLDER_CONFIDENCE_SCORE),
                    requiresHumanReview := Some(e.requiresHumanReview),
                    matchedPolicyRules := Some(e.matchedRules));
  }

  // ---- The graph ----

  /** The names in the graph, as constructors. */
  datatype Name =
    | START
    | END
    | LOAD_TICKET
    | CLASSIFY_TICKET
    | SELECT_AGENT
    | EXECUTE_AGENT
    | CONFIDENCE_EVALUATION
    | PERSIST_RESULTS

  /** A compiled graph in which every node has one successor. */
  datatype CompiledGraph = CompiledGraph(nodes: map<Name, Node>, next: map<Name, Name>)

  class StateGraph {
    var nodes: map<Name, Node>
    var next: map<Name, Name>

    constructor ()
      ensures nodes == map[] && next == map[]
    {
      nodes, next := map[], map[];
    }

    method AddNode(name: Name, node: Node)
      requires name !in nodes
      modifies this`nodes
      ensures nodes == old(nodes)[name := node]
    {
      nodes := nodes[name := node];
    }

    method AddEdge(source: Name, target: Name)
      requires source !in next
      modifies this`next
      ensures next == old(next)[source := target]
    {
      next := next[source := target];
    }

    method Compile() returns (g: CompiledGraph)
      ensures g == CompiledGraph(nodes, next)
    {
      g := CompiledGraph(nodes, next);
    }
  }

  /** The order of the nodes. */
  const ORDER: seq<Node> :=
    [LoadTicket, ClassifyTicket, SelectAgent, ExecuteAgent, ConfidenceEvaluation, PersistResults]

  /** How many nodes return when the nodes run in order: all of them, or those before the first that raises. */
  function Reach(o: Oracles): (n: nat)
    ensures n <= |ORDER| && forall i :: 0 <= i < n ==> !NodeRaises(ORDER[i], o)
    ensures n < |ORDER| ==> NodeRaises(ORDER[n], o)
  {
    if o.category.None? then 1
    else if o.generation.NotBuilt? then 3
    else |ORDER|
  }

  /** No node raises. */
  predicate Answers(o: Oracles) {
    o.category.Some? && !o.generation.NotBuilt?
  }

  function NodeName(node: Node): Name {
    match node
    case LoadTicket => LOAD_TICKET
    case ClassifyTicket => CLASSIFY_TICKET
    case SelectAgent => SELECT_AGENT
    case ExecuteAgent => EXECUTE_AGENT
    case ConfidenceEvaluation => CONFIDENCE_EVALUATION
    case PersistResults => PERSIST_RESULTS
  }

  /** The edges lead from START through the six nodes, each in its place in `ORDER`, to END and no further. */
  ghost predicate IsSupportWorkflow(g: CompiledGraph) {
    && START in g.next && g.next[START] == NodeName(ORDER[0])
    && (forall i :: 0 <= i < |ORDER| ==>
          && NodeName(ORDER[i]) in g.nodes && g.nodes[NodeName(ORDER[i])] == ORDER[i]
          && NodeName(ORDER[i]) in g.next
          && g.next[NodeName(ORDER[i])] == if i + 1 < |ORDER| then NodeName(ORDER[i + 1]) else END)
    && END !in g.next
  }

  method AddNodes(graph: StateGraph)
    requires graph.nodes == map[]
    modifies graph`nodes
    ensures forall i :: 0 <= i < |ORDER| ==>
              NodeName(ORDER[i]) in graph.nodes && graph.nodes[NodeName(ORDER[i])] == ORDER[i]
  {
    graph.AddNode(LOAD_TICKET, LoadTicket);
    graph.AddNode(CLASSIFY_TICKET, ClassifyTicket);
    graph.AddNode(SELECT_AGENT, SelectAgent);
    graph.AddNode(EXECUTE_AGENT, ExecuteAgent);
    graph.AddNode(CONFIDENCE_EVALUATION, ConfidenceEvaluation);
    graph.AddNode(PERSIST_RESULTS, PersistResults);
  }

  method AddEdges(graph: StateGraph)
    requires graph.next == map[]
    modifies graph`next
    ensures START in graph.next && graph.next[START] == LOAD_TICKET && END !in graph.next
    ensures forall i :: 0 <= i < |ORDER| ==>
              && NodeName(ORDER[i]) in graph.next
              && graph.next[NodeName(ORDER[i])] == if i + 1 < |ORDER| then NodeName(ORDER[i + 1]) else END
  {
    graph.AddEdge(START, LOAD_TICKET);
    graph.AddEdge(LOAD_TICKET, CLASSIFY_TICKET);
    graph.AddEdge(CLASSIFY_TICKET, SELECT_AGENT);
    graph.AddEdge(SELECT_AGENT, EXECUTE_AGENT);
    graph.AddEdge(EXECUTE_AGENT, CONFIDENCE_EVALUATION);
    graph.AddEdge(CONFIDENCE_EVALUATION, PERSIST_RESULTS);
    graph.AddEdge(PERSIST_RESULTS, END);
  }

  method BuildWorkflow() returns (g: CompiledGraph)
    ensures IsSupportWorkflow(g)
  {
    var graph := new StateGraph();
    AddNodes(graph);
    AddEdges(graph);
    g := graph.Compile();
  }
}
