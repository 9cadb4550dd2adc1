/**
 `backend/database/repositories/approval_request.py` and the routes of
 `backend/api/supervisor.py`, on values: the table of approval requests as a sequence of rows,
 and what every sequence of creations, approvals, edits and rejections makes of it.
 */
module ApprovalQueue {
  import opened Options
  import opened StableSort
  import opened WorkflowRuns

  type UserId = string

  datatype ApprovalStatus = PENDING | APPROVED | REJECTED

  datatype Row = Row(
    id: nat,
    item: ReviewItem,
    status: ApprovalStatus,
    requestedAt: nat,
    approvedBy: Option<UserId>,
    comments: Option<string>,
    decidedAt: Option<nat>)

  /** A creation carries the time at which its transaction began, so rows need not come in the order of their times. */
  datatype Op =
    | Create(item: ReviewItem, at: nat)
    | Approve(ticket: TicketId, reviewer: UserId, comments: Option<string>, at: nat)
    | Edit(ticket: TicketId, draft: string)
    | Reject(ticket: TicketId, reviewer: UserId, comments: Option<string>, at: nat)

  // ---- Selecting ----

  function Filter(rows: seq<Row>, p: Row -> bool): (r: seq<Row>)
    ensures forall row :: row in r <==> row in rows && p(row)
  {
    if rows == [] then []
    else (if p(rows[0]) then [rows[0]] else []) + Filter(rows[1..], p)
  }

  function OldestFirst(row: Row): int {
    -(row.requestedAt as int)
  }

  function NewestFirst(row: Row): int {
    row.requestedAt
  }

  predicate IsPending(row: Row) {
    row.status == PENDING
  }

  /** `list_pending` */
  function PendingList(rows: seq<Row>): seq<Row> {
    SortDesc(Filter(rows, IsPending), OldestFirst)
  }

  lemma PendingListIsSelected(rows: seq<Row>)
    ensures forall row :: row in PendingList(rows) <==> row in rows && row.status == PENDING
  {
    SortKeepsMembers(Filter(rows, IsPending), OldestFirst);
  }

  /** `get_by_ticket_id` */
  function MostRecent(rows: seq<Row>, ticket: TicketId): (found: Option<Row>)
    ensures found.Some? ==> found.value in rows
  {
    var those := Filter(rows, (row: Row) => row.item.ticketId == ticket);
    SortKeepsMembers(those, NewestFirst);
    if those == [] then None else Some(SortDesc(those, NewestFirst)[0])
  }

  // ---- Operations ----

  /** Rows are numbered in the order of the table. */
  ghost predicate Numbered(rows: seq<Row>) {
    forall i :: 0 <= i < |rows| ==> rows[i].id == i
  }

  /** `create_pending` */
  function NewRow(id: nat, item: ReviewItem, at: nat): Row {
    Row(id, item, PENDING, at, None, None, None)
  }

  /** `decide` */
  function Decided(row: Row, status: ApprovalStatus, reviewer: UserId, comments: Option<string>, at: nat): Row {
    row.(status := status, approvedBy := Some(reviewer), comments := comments, decidedAt := Some(at))
  }

  /** `update_draft` */
  function Edited(row: Row, draft: string): Row {
    row.(item := row.item.(draftResponse := draft))
  }

  /** What a route does to the row it addresses. */
  function Changed(row: Row, op: Op): Row
    requires !op.Create?
  {
    match op
    case Approve(_, reviewer, comments, at) => Decided(row, APPROVED, reviewer, comments, at)
    case Reject(_, reviewer, comments, at) => Decided(row, REJECTED, reviewer, comments, at)
    case Edit(_, draft) => Edited(row, draft)
  }

  /** A route addresses the most recent request of its ticket; without one it answers 404. */
  function Apply(rows: seq<Row>, op: Op): (r: seq<Row>)
    requires Numbered(rows)
    ensures Numbered(r) && |rows| <= |r|
  {
    if op.Create? then rows + [NewRow(|rows|, op.item, op.at)]
    else match MostRecent(rows, op.ticket)
      case None => rows
      case Some(row) => rows[row.id := Changed(row, op)]
  }

  ghost function Run(ops: seq<Op>): (rows: seq<Row>)
    ensures Numbered(rows)
  {
    if ops == [] then [] else Apply(Run(ops[..|ops| - 1]), ops[|ops| - 1])
  }

  // ---- What holds after every sequence of operations ----

  /** A request is pending exactly when nobody has reviewed it and no decision time is set. */
  ghost predicate Consistent(row: Row) {
    && (row.status == PENDING <==> row.approvedBy.None?)
    && (row.status == PENDING <==> row.decidedAt.None?)
  }

  lemma {:induction false} PendingIffUndecided(ops: seq<Op>)
    ensures forall row :: row in Run(ops) ==> Consistent(row)
  {
    if ops != [] {
      PendingIffUndecided(ops[..|ops| - 1]);
    }
  }

  /**
   `decide` itself takes any status; it keeps a request consistent exactly when the status is
   not PENDING, which is what the approve and reject routes pass.
   */
  lemma DecideStaysConsistentExactly(row: Row, status: ApprovalStatus, reviewer: UserId, comments: Option<string>,
                                     at: nat)
    ensures Consistent(Decided(row, status, reviewer, comments, at)) <==> status != PENDING
  {}

  /** What never changes in a request. */
  ghost predicate SameRequest(a: Row, b: Row) {
    && a.id == b.id && a.requestedAt == b.requestedAt
    && b.item == a.item.(draftResponse := b.item.draftResponse)
  }

  /**
   Between any two moments requests are neither lost nor reordered, keep all but their draft and
   their decision, and once decided are never pending again.
   */
  lemma {:induction false} DecidedStaysDecided(ops: seq<Op>, n: nat)
    requires n <= |ops|
    ensures |Run(ops[..n])| <= |Run(ops)|
    ensures forall i :: 0 <= i < |Run(ops[..n])| ==>
              && SameRequest(Run(ops[..n])[i], Run(ops)[i])
              && (Run(ops[..n])[i].status != PENDING ==> Run(ops)[i].status != PENDING)
    decreases |ops|
  {
    if n == |ops| {
      assert ops[..n] == ops;
    } else {
      var front := ops[..|ops| - 1];
      assert front[..n] == ops[..n];
      DecidedStaysDecided(front, n);
      var rows := Run(front);
      forall i | 0 <= i < |rows|
        ensures SameRequest(rows[i], Run(ops)[i]) && (rows[i].status != PENDING ==> Run(ops)[i].status != PENDING)
      {
        OneStepKeepsRequest(rows, ops[|ops| - 1], i);
      }
    }
  }

  lemma OneStepKeepsRequest(rows: seq<Row>, op: Op, i: nat)
    requires Numbered(rows) && i < |rows|
    ensures SameRequest(rows[i], Apply(rows, op)[i])
    ensures rows[i].status != PENDING ==> Apply(rows, op)[i].status != PENDING
  {}

  /** An edit changes one draft, and nothing else in the table. */
  lemma EditsChangeOnlyTheDraft(rows: seq<Row>, ticket: TicketId, draft: string)
    requires Numbered(rows)
    ensures var after := Apply(rows, Edit(ticket, draft));
            && |after| == |rows|
            && (forall i :: 0 <= i < |rows| ==>
                  if MostRecent(rows, ticket) == Some(rows[i])
                  then after[i] == rows[i].(item := rows[i].item.(draftResponse := draft))
                  else after[i] == rows[i])
  {
    match MostRecent(rows, ticket)
    case None =>
    case Some(row) =>
      assert rows[row.id] == row;
  }

  /** The routes address a request of the ticket that none is newer than; among equally new ones the first. */
  lemma MostRecentIsNewest(rows: seq<Row>, ticket: TicketId)
    requires Numbered(rows)
    ensures MostRecent(rows, ticket).None? <==> forall row :: row in rows ==> row.item.ticketId != ticket
    ensures var found := MostRecent(rows, ticket);
            found.Some? ==>
              && found.value in rows && found.value.item.ticketId == ticket
              && forall row :: row in rows && row.item.ticketId == ticket ==>
                   || row.requestedAt < found.value.requestedAt
                   || (row.requestedAt == found.value.requestedAt && found.value.id <= row.id)
  {
    var p := (row: Row) => row.item.ticketId == ticket;
    var those := Filter(rows, p);
    SortKeepsMembers(those, NewestFirst);
    FilterKeepsOrder(rows, p);
    SortOrders(those, NewestFirst, EarlierInTable);
    if those != [] {
      var sorted := SortDesc(those, NewestFirst);
      forall row | row in rows && p(row)
        ensures row == sorted[0] || Before(sorted[0], row, NewestFirst, EarlierInTable)
      {
        assert row in those && row in sorted;
        var k :| 0 <= k < |sorted| && sorted[k] == row;
      }
    } else {
      forall row | row in rows ensures !p(row) {
        assert row !in those;
      }
    }
  }

  /** The status that an approval or a rejection sets. */
  function Verdict(op: Op): ApprovalStatus
    requires op.Approve? || op.Reject?
  {
    if op.Approve? then APPROVED else REJECTED
  }

  /** The operation decides request `i` of the table, and not the way it was decided. */
  predicate Overturns(rows: seq<Row>, op: Op, i: nat)
    requires i < |rows|
  {
    && (op.Approve? || op.Reject?)
    && MostRecent(rows, op.ticket) == Some(rows[i]) && Verdict(op) != rows[i].status
  }

  /** A decision changes exactly when a later approval or rejection addresses the same request and says otherwise. */
  lemma DecisionChangesExactly(rows: seq<Row>, op: Op, i: nat)
    requires Numbered(rows) && i < |rows| && rows[i].status != PENDING
    ensures Apply(rows, op)[i].status != rows[i].status <==> Overturns(rows, op, i)
  {
    if !op.Create? && MostRecent(rows, op.ticket).Some? {
      var row := MostRecent(rows, op.ticket).value;
      assert rows[row.id] == row;
    }
  }

  /** From the `n`-th operation on, request `i` keeps the status it had. */
  ghost predicate KeepsStatus(ops: seq<Op>, n: nat, i: nat)
    requires n <= |ops| && i < |Run(ops[..n])|
  {
    forall m: nat :: n <= m <= |ops| && i < |Run(ops[..m])| ==> Run(ops[..m])[i].status == Run(ops[..n])[i].status
  }

  ghost predicate NeverOverturned(ops: seq<Op>, n: nat, i: nat) {
    forall m: nat :: n <= m < |ops| && i < |Run(ops[..m])| ==> !Overturns(Run(ops[..m]), ops[m], i)
  }

  lemma RunStep(ops: seq<Op>, m: nat)
    requires m < |ops|
    ensures Run(ops[..m + 1]) == Apply(Run(ops[..m]), ops[m]) && |Run(ops[..m])| <= |Run(ops[..m + 1])|
  {
    assert ops[..m + 1][..m] == ops[..m];
  }

  lemma {:induction false} StatusUntil(ops: seq<Op>, n: nat, m: nat, i: nat)
    requires n <= m <= |ops| && i < |Run(ops[..n])| && Run(ops[..n])[i].status != PENDING
    requires NeverOverturned(ops, n, i)
    ensures i < |Run(ops[..m])| && Run(ops[..m])[i].status == Run(ops[..n])[i].status
    decreases m
  {
    if n < m {
      var k := m - 1;
      StatusUntil(ops, n, k, i);
      StatusStep(ops, k, i);
      assert ops[..k + 1] == ops[..m];
    }
  }

  lemma StatusStep(ops: seq<Op>, m: nat, i: nat)
    requires m < |ops| && i < |Run(ops[..m])| && Run(ops[..m])[i].status != PENDING
    ensures i < |Run(ops[..m + 1])|
    ensures Run(ops[..m + 1])[i].status == Run(ops[..m])[i].status <==> !Overturns(Run(ops[..m]), ops[m], i)
  {
    RunStep(ops, m);
    DecisionChangesExactly(Run(ops[..m]), ops[m], i);
  }

  /**
   Decided is not final. Over every sequence of operations, a decided request keeps its decision
   from some moment on if and only if no later approval or rejection addresses it and says otherwise.
   */
  lemma DecisionStandsExactly(ops: seq<Op>, n: nat, i: nat)
    requires n <= |ops| && i < |Run(ops[..n])| && Run(ops[..n])[i].status != PENDING
    ensures KeepsStatus(ops, n, i) <==> NeverOverturned(ops, n, i)
  {
    if NeverOverturned(ops, n, i) {
      forall m: nat | n <= m <= |ops|
        ensures i < |Run(ops[..m])| && Run(ops[..m])[i].status == Run(ops[..n])[i].status
      {
        StatusUntil(ops, n, m, i);
      }
    }
    if KeepsStatus(ops, n, i) {
      forall m: nat | n <= m < |ops| && i < |Run(ops[..m])| ensures !Overturns(Run(ops[..m]), ops[m], i) {
        assert Run(ops[..m])[i].status == Run(ops[..n])[i].status;
        StatusStep(ops, m, i);
        assert Run(ops[..m + 1])[i].status == Run(ops[..n])[i].status;
      }
    }
  }

  // ---- What a request records ----

  /** The operation approves or rejects request `i` of the table. */
  predicate Decides(rows: seq<Row>, op: Op, i: nat) {
    i < |rows| && (op.Approve? || op.Reject?) && MostRecent(rows, op.ticket) == Some(rows[i])
  }

  /** The request carries the verdict, the reviewer, the comments and the time of the operation. */
  predicate Carries(row: Row, op: Op) {
    match op
    case Approve(_, reviewer, comments, at) =>
      && row.status == APPROVED && row.approvedBy == Some(reviewer)
      && row.comments == comments && row.decidedAt == Some(at)
    case Reject(_, reviewer, comments, at) =>
      && row.status == REJECTED && row.approvedBy == Some(reviewer)
      && row.comments == comments && row.decidedAt == Some(at)
    case _ => false
  }

  ghost predicate DecidesAt(ops: seq<Op>, m: nat, i: nat) {
    m < |ops| && Decides(Run(ops[..m]), ops[m], i)
  }

  ghost predicate LastDecision(ops: seq<Op>, m: nat, i: nat) {
    DecidesAt(ops, m, i) && forall l: nat :: m < l ==> !DecidesAt(ops, l, i)
  }

  ghost predicate NeverDecided(ops: seq<Op>, i: nat) {
    forall m: nat :: !DecidesAt(ops, m, i)
  }

  lemma DecisionIsRecorded(rows: seq<Row>, op: Op, i: nat)
    requires Numbered(rows) && i < |rows|
    ensures if Decides(rows, op, i) then Carries(Apply(rows, op)[i], op)
            else var row := Apply(rows, op)[i];
                 && row.status == rows[i].status && row.approvedBy == rows[i].approvedBy
                 && row.comments == rows[i].comments && row.decidedAt == rows[i].decidedAt
  {
    if !op.Create? && MostRecent(rows, op.ticket).Some? {
      var row := MostRecent(rows, op.ticket).value;
      assert rows[row.id] == row;
    }
  }

  lemma DecidesInLongerSequence(ops: seq<Op>, m: nat, i: nat)
    requires ops != []
    ensures m < |ops| - 1 ==> (DecidesAt(ops, m, i) <==> DecidesAt(ops[..|ops| - 1], m, i))
  {
    if m < |ops| - 1 {
      assert ops[..|ops| - 1][..m] == ops[..m];
    }
  }

  /**
   After every sequence of operations a request that somebody decided carries exactly what the
   last decision on it said, and a request is pending when nobody has decided it.
   */
  lemma {:induction false} RequestsCarryTheLastDecision(ops: seq<Op>, i: nat)
    requires i < |Run(ops)|
    ensures Run(ops)[i].status == PENDING ==> NeverDecided(ops, i)
    ensures Run(ops)[i].status != PENDING ==> exists m: nat :: LastDecision(ops, m, i) && Carries(Run(ops)[i], ops[m])
    decreases |ops|
  {
    var last := |ops| - 1;
    var front := ops[..last];
    var rows := Run(front);
    if i < |rows| {
      RequestsCarryTheLastDecision(front, i);
      DecisionIsRecorded(rows, ops[last], i);
      if DecidesAt(ops, last, i) {
        assert LastDecision(ops, last, i);
      } else if rows[i].status == PENDING {
        UndecidedStays(ops, i);
      } else {
        var m: nat :| LastDecision(front, m, i) && Carries(rows[i], front[m]);
        LastDecisionStays(ops, m, i);
      }
    } else {
      forall m: nat ensures !DecidesAt(ops, m, i) {
        if m < |ops| {
          DecidedStaysDecided(front, if m < last then m else last);
          assert front[..if m < last then m else last] == ops[..m];
        }
      }
    }
  }

  lemma UndecidedStays(ops: seq<Op>, i: nat)
    requires ops != [] && !DecidesAt(ops, |ops| - 1, i) && NeverDecided(ops[..|ops| - 1], i)
    ensures NeverDecided(ops, i)
  {
    forall m: nat ensures !DecidesAt(ops, m, i) {
      DecidesInLongerSequence(ops, m, i);
    }
  }

  lemma LastDecisionStays(ops: seq<Op>, m: nat, i: nat)
    requires ops != [] && !DecidesAt(ops, |ops| - 1, i) && LastDecision(ops[..|ops| - 1], m, i)
    ensures LastDecision(ops, m, i) && ops[m] == ops[..|ops| - 1][m]
  {
    DecidesInLongerSequence(ops, m, i);
    forall l: nat | m < l ensures !DecidesAt(ops, l, i) {
      DecidesInLongerSequence(ops, l, i);
    }
  }

  /**
   A creation adds one request, pending and undecided, and for ever after that request has the
   ticket, the context, the agent, the rules and the time it was created with.
   */
  lemma RequestsKeepWhatTheyWereCreatedWith(ops: seq<Op>, c: nat)
    requires c < |ops| && ops[c].Create?
    ensures var i := |Run(ops[..c])|;
            && i < |Run(ops[..c + 1])| == i + 1 && Run(ops[..c + 1])[..i] == Run(ops[..c])
            && Run(ops[..c + 1])[i].item == ops[c].item && Run(ops[..c + 1])[i].status == PENDING
            && i < |Run(ops)|
            && var row := Run(ops)[i];
               && row.item.ticketId == ops[c].item.ticketId && row.item.retrievedContext == ops[c].item.retrievedContext
               && row.item.selectedAgent == ops[c].item.selectedAgent
               && row.item.matchedPolicyRules == ops[c].item.matchedPolicyRules && row.requestedAt == ops[c].at
  {
    RunStep(ops, c);
    DecidedStaysDecided(ops, c + 1);
  }

  lemma OnlyRequestIsAddressed(row: Row)
    requires row.id == 0
    ensures MostRecent([row], row.item.ticketId) == Some(row)
  {
    MostRecentIsNewest([row], row.item.ticketId);
    assert row in [row];
  }

  /** One way to overturn a decision: the routes do not look at the status, so a rejected request can be approved. */
  lemma DecisionsCanBeOverturned(item: ReviewItem, reviewer: UserId)
    ensures var reject, approve := Reject(item.ticketId, reviewer, None, 1), Approve(item.ticketId, reviewer, None, 2);
            var rejected := Apply([NewRow(0, item, 0)], reject);
            rejected[0].status == REJECTED && Apply(rejected, approve)[0].status == APPROVED
  {
    OnlyRequestIsAddressed(NewRow(0, item, 0));
    var rejected := Apply([NewRow(0, item, 0)], Reject(item.ticketId, reviewer, None, 1));
    assert rejected == [rejected[0]];
    OnlyRequestIsAddressed(rejected[0]);
  }

  // ---- The queue a supervisor sees ----

  ghost predicate IdsIncrease(rows: seq<Row>) {
    forall i, j :: 0 <= i < j < |rows| ==> rows[i].id < rows[j].id
  }

  predicate EarlierInTable(a: Row, b: Row) {
    a.id < b.id
  }

  lemma {:induction false} FilterKeepsOrder(rows: seq<Row>, p: Row -> bool)
    requires IdsIncrease(rows)
    ensures IdsIncrease(Filter(rows, p))
  {
    if rows != [] {
      FilterKeepsOrder(rows[1..], p);
      forall row | row in rows[1..] ensures rows[0].id < row.id {
        var k :| 0 <= k < |rows[1..]| && rows[1..][k] == row;
        assert rows[1..][k] == rows[k + 1];
      }
      assert forall row :: row in Filter(rows[1..], p) ==> rows[0].id < row.id;
    }
  }

  /**
   After every sequence of operations, `list_pending` holds exactly the requests without a
   decision, each once, oldest first, equally old ones in the order of the table.
   */
  lemma PendingListIsTheUndecided(ops: seq<Op>)
    ensures var rows, pending := Run(ops), PendingList(Run(ops));
            && (forall row :: row in pending <==> row in rows && row.decidedAt.None? && row.approvedBy.None?)
            && (forall i, j :: 0 <= i < j < |pending| ==>
                  && pending[i].id != pending[j].id
                  && (|| pending[i].requestedAt < pending[j].requestedAt
                      || (pending[i].requestedAt == pending[j].requestedAt && pending[i].id < pending[j].id)))
  {
    var rows := Run(ops);
    PendingIffUndecided(ops);
    var those := Filter(rows, IsPending);
    SortKeepsMembers(those, OldestFirst);
    FilterKeepsOrder(rows, IsPending);
    SortOrders(those, OldestFirst, EarlierInTable);
    var pending := PendingList(rows);
    forall i, j | 0 <= i < j < |pending|
      ensures Before(pending[i], pending[j], OldestFirst, EarlierInTable) && pending[i].id != pending[j].id
    {
      if pending[i].id == pending[j].id {
        SameIdSameRow(rows, pending[i], pending[j]);
      }
    }
  }

  lemma SameIdSameRow(rows: seq<Row>, a: Row, b: Row)
    requires Numbered(rows) && a in rows && b in rows && a.id == b.id
    ensures a == b
  {}
}
