/**
 `backend/database/repositories/approval_request.py` and the supervisor routes in the form of
 the source: records whose fields are assigned, a table that grows, and queries over it. Each
 method is one transaction.
 */
module ApprovalRepository {
  import opened Options
  import opened WorkflowRuns
  import opened ApprovalQueue

  /** One row as an object; the fields nothing assigns after creation are constants. */
  class ApprovalRequest {
    const id: nat
    const ticketId: TicketId
    const retrievedContext: Option<string>
    const selectedAgent: string
    const matchedPolicyRules: seq<string>
    const requestedAt: nat
    var status: ApprovalStatus
    var draftResponse: string
    var approvedBy: Option<UserId>
    var comments: Option<string>
    var decidedAt: Option<nat>

    constructor (id: nat, item: ReviewItem, now: nat)
      ensures this.id == id && ToRow() == NewRow(id, item, now)
    {
      this.id, ticketId, retrievedContext := id, item.ticketId, item.retrievedContext;
      selectedAgent, matchedPolicyRules, requestedAt := item.selectedAgent, item.matchedPolicyRules, now;
      status, draftResponse := PENDING, item.draftResponse;
      approvedBy, comments, decidedAt := None, None, None;
    }

    function ToRow(): (row: Row)
      reads this
      ensures row.id == id && row.item.ticketId == ticketId
    {
      Row(id, ReviewItem(ticketId, draftResponse, retrievedContext, selectedAgent, matchedPolicyRules),
          status, requestedAt, approvedBy, comments, decidedAt)
    }
  }

  class ApprovalRequestRepository {
    var table: seq<ApprovalRequest>

    ghost predicate Valid()
      reads this
    {
      forall i :: 0 <= i < |table| ==> table[i].id == i
    }

    function Rows(): (rows: seq<Row>)
      reads this, table
      ensures |rows| == |table|
      ensures forall i :: 0 <= i < |rows| ==> rows[i] == table[i].ToRow()
    {
      seq(|table|, i requires 0 <= i < |table| reads this, table => table[i].ToRow())
    }

    constructor ()
      ensures Valid() && table == [] && Rows() == []
    {
      table := [];
    }

    /** `create_pending` */
    method CreatePending(item: ReviewItem, now: nat) returns (record: ApprovalRequest)
      requires Valid()
      modifies this
      ensures Valid() && fresh(record) && table == old(table) + [record]
      ensures Rows() == ApprovalQueue.Apply(old(Rows()), Create(item, now))
    {
      record := new ApprovalRequest(|table|, item, now);
      table := table + [record];
    }

    /** `list_pending` */
    method ListPending() returns (pending: seq<ApprovalRequest>)
      requires Valid()
      ensures |pending| == |PendingList(Rows())|
      ensures forall k :: 0 <= k < |pending| ==> pending[k] in table && pending[k].ToRow() == PendingList(Rows())[k]
    {
      var rows := Rows();
      var selected := PendingList(rows);
      PendingListIsSelected(rows);
      pending := [];
      for k := 0 to |selected|
        invariant |pending| == k
        invariant forall m :: 0 <= m < k ==> pending[m] in table && pending[m].ToRow() == selected[m]
      {
        assert selected[k] in rows;
        pending := pending + [table[selected[k].id]];
      }
    }

    /** `get_by_ticket_id` */
    method GetByTicketId(ticket: TicketId) returns (found: Option<ApprovalRequest>)
      requires Valid()
      ensures found.None? <==> MostRecent(Rows(), ticket).None?
      ensures found.Some? ==> found.value in table && MostRecent(Rows(), ticket) == Some(found.value.ToRow())
    {
      var rows := Rows();
      match MostRecent(rows, ticket)
      case None =>
        found := None;
      case Some(row) =>
        found := Some(table[row.id]);
    }

    /** `decide` */
    method Decide(record: ApprovalRequest, status: ApprovalStatus, reviewer: UserId, comments: Option<string>, now: nat)
      requires Valid() && record in table
      modifies record
      ensures Valid() && table == old(table)
      ensures Rows() == old(Rows())[record.id := Decided(old(record.ToRow()), status, reviewer, comments, now)]
    {
      record.status := status;
      record.approvedBy := Some(reviewer);
      record.comments := comments;
      record.decidedAt := Some(now);
    }

    /** `update_draft` */
    method UpdateDraft(record: ApprovalRequest, draft: string)
      requires Valid() && record in table
      modifies record
      ensures Valid() && table == old(table)
      ensures Rows() == old(Rows())[record.id := Edited(old(record.ToRow()), draft)]
    {
      record.draftResponse := draft;
    }
  }

  /** The queue of one database, with the operations it has seen. */
  class SupervisorQueue {
    const repository: ApprovalRequestRepository
    ghost var history: seq<Op>

    ghost predicate Valid()
      reads this, repository, repository.table
    {
      repository.Valid() && repository.Rows() == ApprovalQueue.Run(history)
    }

    constructor ()
      ensures Valid() && history == [] && fresh(repository)
    {
      repository := new ApprovalRequestRepository();
      history := [];
    }

    /** The insert of `_enqueue_supervisor_review`, when its transaction commits. */
    method Enqueue(item: ReviewItem, now: nat)
      requires Valid()
      modifies this, repository
      ensures Valid() && history == old(history) + [Create(item, now)]
      ensures repository.table[..|old(repository.table)|] == old(repository.table)
      ensures forall i :: 0 <= i < |repository.table| ==>
                repository.table[i] in old(repository.table) || fresh(repository.table[i])
    {
      var _ := repository.CreatePending(item, now);
      Record(Create(item, now));
    }

    /** Any number of transactions of others. */
    method Interleave()
      requires Valid()
      modifies this, repository, repository.table
      ensures Valid() && old(history) <= history
      ensures forall i :: 0 <= i < |repository.table| ==>
                repository.table[i] in old(repository.table) || fresh(repository.table[i])
    {
      var steps: nat := *;
      while steps > 0
        invariant Valid() && old(history) <= history
        invariant forall i :: 0 <= i < |repository.table| ==>
                    repository.table[i] in old(repository.table) || fresh(repository.table[i])
      {
        var op: Op := *;
        match op {
          case Create(item, at) => Enqueue(item, at);
          case Approve(ticket, reviewer, comments, at) => var _ := ApproveTicket(ticket, reviewer, comments, at);
          case Reject(ticket, reviewer, comments, at) => var _ := RejectTicket(ticket, reviewer, comments, at);
          case Edit(ticket, draft) => var _ := EditDraft(ticket, draft);
        }
        steps := steps - 1;
      }
    }

    ghost method Record(op: Op)
      requires repository.Valid() && repository.Rows() == ApprovalQueue.Apply(ApprovalQueue.Run(history), op)
      modifies this
      ensures Valid() && history == old(history) + [op]
    {
      assert (history + [op])[..|history|] == history;
      history := history + [op];
    }

    /** `approve_ticket`; false stands for 404. */
    method ApproveTicket(ticket: TicketId, reviewer: UserId, comments: Option<string>, now: nat) returns (found: bool)
      requires Valid()
      modifies this, repository.table
      ensures Valid() && history == old(history) + [Approve(ticket, reviewer, comments, now)]
      ensures repository.table == old(repository.table)
      ensures found <==> exists row :: row in old(repository.Rows()) && row.item.ticketId == ticket
    {
      MostRecentIsNewest(repository.Rows(), ticket);
      var record := repository.GetByTicketId(ticket);
      found := record.Some?;
      if found {
        repository.Decide(record.value, APPROVED, reviewer, comments, now);
      }
      Record(Approve(ticket, reviewer, comments, now));
    }

    /** `reject_ticket` */
    method RejectTicket(ticket: TicketId, reviewer: UserId, comments: Option<string>, now: nat) returns (found: bool)
      requires Valid()
      modifies this, repository.table
      ensures Valid() && history == old(history) + [Reject(ticket, reviewer, comments, now)]
      ensures repository.table == old(repository.table)
      ensures found <==> exists row :: row in old(repository.Rows()) && row.item.ticketId == ticket
    {
      MostRecentIsNewest(repository.Rows(), ticket);
      var record := repository.GetByTicketId(ticket);
      found := record.Some?;
      if found {
        repository.Decide(record.value, REJECTED, reviewer, comments, now);
      }
      Record(Reject(ticket, reviewer, comments, now));
    }

    /** `edit_draft` */
    method EditDraft(ticket: TicketId, draft: string) returns (found: bool)
      requires Valid()
      modifies this, repository.table
      ensures Valid() && history == old(history) + [Edit(ticket, draft)]
      ensures repository.table == old(repository.table)
      ensures found <==> exists row :: row in old(repository.Rows()) && row.item.ticketId == ticket
    {
      MostRecentIsNewest(repository.Rows(), ticket);
      var record := repository.GetByTicketId(ticket);
      found := record.Some?;
      if found {
        repository.UpdateDraft(record.value, draft);
      }
      Record(Edit(ticket, draft));
    }

    /** `list_queue`: exactly the undecided requests. */
    method ListQueue() returns (items: seq<Row>)
      requires Valid()
      ensures items == PendingList(repository.Rows())
      ensures forall row :: row in items <==> row in repository.Rows() && row.decidedAt.None?
    {
      var pending := repository.ListPending();
      items := ToQueueItems(pending);
      PendingMembers(history, repository.Rows());
    }
  }

  lemma PendingMembers(history: seq<Op>, rows: seq<Row>)
    requires rows == ApprovalQueue.Run(history)
    ensures forall row :: row in PendingList(rows) <==> row in rows && row.decidedAt.None?
  {
    PendingIffUndecided(history);
    PendingListIsSelected(rows);
  }

  method ToQueueItems(pending: seq<ApprovalRequest>) returns (items: seq<Row>)
    ensures |items| == |pending|
    ensures forall k :: 0 <= k < |items| ==> items[k] == pending[k].ToRow()
  {
    items := [];
    for k := 0 to |pending|
      invariant |items| == k
      invariant forall m :: 0 <= m < k ==> items[m] == pending[m].ToRow()
    {
      items := items + [pending[k].ToRow()];
    }
  }
}
