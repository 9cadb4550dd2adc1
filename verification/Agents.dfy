/**
 `backend/agents/base.py`: the outcome branches of `SpecialistAgent.respond`.
 */
module Agents {
  import opened Options

  const FALLBACK_RESPONSE :=
    "We're sorry -- we weren't able to generate an automated response for this ticket right now. "
    + "It has been queued for a human support agent to review."

  /**
   What the agent meets: its model client, agent, task or crew cannot be built; the crew's
   `kickoff` raises; or it returns something that is not the asked-for structure, or returns it.
   */
  datatype Generation =
    | NotBuilt
    | Raises(error: string)
    | Unstructured(text: string)
    | Structured(response: string, unresolved: bool)

  datatype AgentResult = AgentResult(
    response: string,
    retrievedContext: string,
    unresolved: bool,
    error: Option<string>)

  /** `_retrieve_context`; None stands for a tool that raised. */
  function RetrieveContext(lookup: Option<string>): string {
    match lookup
    case Some(context) => context
    case None => ""
  }

  /**
   The constructor and `respond`; None stands for raising, which happens exactly when something
   cannot be built. Only a structured answer can count as resolved, and only when the agent
   itself says so.
   */
  function Respond(lookup: Option<string>, generation: Generation): (res: Option<AgentResult>)
    ensures res.None? <==> generation.NotBuilt?
    ensures res.Some? ==>
              && (!res.value.unresolved <==> generation.Structured? && !generation.unresolved)
              && (res.value.error.Some? <==> generation.Raises?)
              && res.value.retrievedContext == (if lookup.Some? then lookup.value else "")
    ensures match generation
            case NotBuilt => true
            case Raises(error) => res.Some? && res.value.response == FALLBACK_RESPONSE && res.value.error == Some(error)
            case Unstructured(text) => res.Some? && res.value.response == text
            case Structured(response, _) => res.Some? && res.value.response == response
  {
    var context := RetrieveContext(lookup);
    match generation
    case NotBuilt => None
    case Raises(error) => Some(AgentResult(FALLBACK_RESPONSE, context, true, Some(error)))
    case Unstructured(text) => Some(AgentResult(text, context, true, None))
    case Structured(response, unresolved) => Some(AgentResult(response, context, unresolved, None))
  }
}
