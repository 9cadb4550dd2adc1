/**
 `backend/schemas/ticket.py`: the response of `POST /tickets` and the JSON object it is
 stored as under an idempotency key.
 */
module TicketResponses {
  import opened Options

  datatype Json = JString(s: string) | JBool(b: bool) | JStrings(items: seq<string>)

  type JsonObject = map<string, Json>

  datatype TicketResponse = TicketResponse(
    ticketId: string,
    customerId: string,
    category: string,
    selectedAgent: string,
    draftResponse: string,
    requiresHumanReview: bool,
    matchedPolicyRules: seq<string>,
    createdAt: string,
    idempotentReplay: bool)

  /** `response.model_dump(mode="json")` */
  function ModelDump(r: TicketResponse): JsonObject {
    map[
      "ticket_id" := JString(r.ticketId),
      "customer_id" := JString(r.customerId),
      "category" := JString(r.category),
      "selected_agent" := JString(r.selectedAgent),
      "draft_response" := JString(r.draftResponse),
      "requires_human_review" := JBool(r.requiresHumanReview),
      "matched_policy_rules" := JStrings(r.matchedPolicyRules),
      "created_at" := JString(r.createdAt),
      "idempotent_replay" := JBool(r.idempotentReplay)]
  }

  predicate HasString(o: JsonObject, field: string) {
    field in o && o[field].JString?
  }

  predicate HasBool(o: JsonObject, field: string) {
    field in o && o[field].JBool?
  }

  /** `TicketCreateResponse(**o)`; None stands for a validation error. */
  function FromJson(o: JsonObject): Option<TicketResponse> {
    if && HasString(o, "ticket_id") && HasString(o, "customer_id") && HasString(o, "category")
       && HasString(o, "selected_agent") && HasString(o, "draft_response")
       && HasBool(o, "requires_human_review")
       && "matched_policy_rules" in o && o["matched_policy_rules"].JStrings?
       && HasString(o, "created_at")
       && ("idempotent_replay" in o ==> o["idempotent_replay"].JBool?)
    then
      Some(TicketResponse(
             o["ticket_id"].s, o["customer_id"].s, o["category"].s, o["selected_agent"].s, o["draft_response"].s,
             o["requires_human_review"].b, o["matched_policy_rules"].items, o["created_at"].s,
             "idempotent_replay" in o && o["idempotent_replay"].b))
    else None
  }

  /** `_IN_PROGRESS_SENTINEL` */
  const SENTINEL: JsonObject := map["status" := JString("in_progress")]

  /** `existing.get("status") == "in_progress"` */
  predicate IsInProgress(o: JsonObject) {
    "status" in o && o["status"] == JString("in_progress")
  }

  /** `TicketCreateResponse(**{**existing, "idempotent_replay": True})` */
  function Replay(existing: JsonObject): Option<TicketResponse> {
    FromJson(existing["idempotent_replay" := JBool(true)])
  }

  /** A stored response is never taken for the sentinel, and replaying it changes nothing but the replay mark. */
  lemma ReplayIsFaithful(r: TicketResponse)
    ensures !IsInProgress(ModelDump(r)) && IsInProgress(SENTINEL) && ModelDump(r) != SENTINEL
    ensures Replay(ModelDump(r)) == Some(r.(idempotentReplay := true))
    ensures FromJson(ModelDump(r)) == Some(r)
  {
    assert "ticket_id" in ModelDump(r);
    assert "status" !in ModelDump(r);
  }
}
