/**
 `backend/services/idempotency.py` and `backend/services/ticket.py` in the form of the source.
 The store and the ticket table live in a `World` that other requests change at every await;
 what a call of `create_ticket` does, in whatever surroundings, is a run of the protocol.
 */
module TicketService {
  import opened Options
  import opened TtlStore
  import opened TicketResponses
  import opened IdempotencyProtocol
  import opened IdempotencySafety
  import ApprovalRepository
  import opened WorkflowStates
  import Runs = WorkflowRuns
  import Workflow
  import WorkflowExecution
  import WorkflowSafety

  /** What happens at one await of the database, or of what else comes before the workflow's first node. */
  datatype DbAwait = Answers | Errs | IsCancelled

  /** What happens at the commit: it is delivered somehow, or refused for want of the customer. */
  datatype CommitAwait = Commits(delivery: Delivery) | Refused

  /**
   What one call of `create_ticket` meets, and what the database and the models supply. `atStart`
   is what happens between the answered commit and the workflow's first node, when the session is
   closed and the worker thread is started.
   */
  datatype Surroundings = Surroundings(
    atClaim: Delivery,
    atRead: Delivery,
    atCheck: DbAwait,
    atInsert: DbAwait,
    atCommit: CommitAwait,
    atStart: DbAwait,
    cancelledAtWorkflow: bool,
    reviewCommits: bool,
    atSettle: Delivery,
    ticketId: string,
    createdAt: string,
    oracles: Workflow.Oracles)

  /** The caller waits for the workflow to end. */
  predicate WaitsForWorkflow(env: Surroundings) {
    env.atStart.Answers? && !env.cancelledAtWorkflow
  }

  /** An error is raised after the answered commit: on the way to the workflow, or by a node of it. */
  predicate RaisesLate(env: Surroundings) {
    env.atStart.Errs? || (WaitsForWorkflow(env) && !Workflow.Answers(env.oracles))
  }

  /** The events of request `r` among `es`. */
  ghost function Own(r: RequestId, es: seq<Event>): seq<Event> {
    if es == [] then []
    else if IsBy(r, es[0]) then [es[0]] + Own(r, es[1..])
    else Own(r, es[1..])
  }

  predicate IsBy(r: RequestId, e: Event) {
    !e.Tick? && e.r == r
  }

  lemma {:induction false} OwnAppend(r: RequestId, a: seq<Event>, b: seq<Event>)
    ensures Own(r, a + b) == Own(r, a) + Own(r, b)
    decreases |a|
  {
    if a == [] {
      assert a + b == b;
    } else {
      OwnAppend(r, a[1..], b);
      assert (a + b)[1..] == a[1..] + b;
    }
  }

  lemma OwnOfOther(r: RequestId, es: seq<Event>, e: Event)
    requires !IsBy(r, e)
    ensures Own(r, es + [e]) == Own(r, es)
  {
    OwnAppend(r, es, [e]);
    assert Own(r, [e]) == [];
  }

  lemma OwnOfMine(r: RequestId, es: seq<Event>, e: Event)
    requires IsBy(r, e)
    ensures Own(r, es + [e]) == Own(r, es) + [e]
  {
    OwnAppend(r, es, [e]);
    assert [e][1..] == [];
    assert Own(r, [e]) == [e];
  }

  lemma ClaimsGrow(s: State, e: Event)
    requires Enabled(s, e)
    ensures |s.claims| <= |Apply(s, e).claims|
  {}

  class World {
    const ttl: nat
    var state: State
    ghost var trace: seq<Event>

    /** The state is the one the recorded run leads to. */
    ghost predicate Valid()
      reads this
    {
      IsRun(Init(ttl), trace) && state == Run(Init(ttl), trace)
    }

    /** The last step was `e`, taken in the state `before`. */
    ghost predicate HasStepped(before: State, e: Event)
      reads this
    {
      Enabled(before, e) && state == Apply(before, e)
    }

    constructor (ttl: nat)
      ensures Valid() && this.ttl == ttl && trace == []
    {
      this.ttl := ttl;
      state := Init(ttl);
      trace := [];
    }

    method Do(e: Event)
      requires Valid() && Enabled(state, e)
      modifies this
      ensures Valid() && trace == old(trace) + [e] && state == Apply(old(state), e)
    {
      RunExtends(Init(ttl), trace, e);
      state := Apply(state, e);
      trace := trace + [e];
    }

    method DoOther(r: RequestId, e: Event)
      requires Valid() && r in state.requests && Enabled(state, e) && !IsBy(r, e)
      modifies this
      ensures Valid() && r in state.requests && state.requests[r] == old(state.requests[r])
      ensures |old(state.claims)| <= |state.claims|
      ensures trace == old(trace) + [e] && Own(r, trace) == Own(r, old(trace))
    {
      OwnOfOther(r, trace, e);
      OthersLeaveRequest(state, e, r);
      ClaimsGrow(state, e);
      Do(e);
    }

    /** Any number of steps of anyone but `r`. */
    method Interleave(r: RequestId)
      requires Valid() && r in state.requests
      modifies this
      ensures Valid() && r in state.requests && state.requests[r] == old(state.requests[r])
      ensures |old(state.claims)| <= |state.claims|
      ensures old(trace) <= trace && Own(r, trace) == Own(r, old(trace))
    {
      var steps: nat := *;
      while steps > 0
        invariant Valid() && r in state.requests && state.requests[r] == old(state.requests[r])
        invariant |old(state.claims)| <= |state.claims|
        invariant old(trace) <= trace && Own(r, trace) == Own(r, old(trace))
      {
        var e: Event := *;
        if Enabled(state, e) && !IsBy(r, e) {
          DoOther(r, e);
        }
        steps := steps - 1;
      }
    }

    /** One event of `r` itself, in the state `before` that the others meanwhile led to. */
    method Proceed(r: RequestId, e: Event) returns (before: State)
      requires Valid() && r in state.requests && IsBy(r, e) && !e.Arrive?
      requires Enabled(state, e)
      modifies this
      ensures Valid() && old(trace) <= trace && Own(r, trace) == Own(r, old(trace)) + [e]
      ensures |old(state.claims)| <= |before.claims| && |before.claims| <= |state.claims|
      ensures HasStepped(before, e)
      ensures r in before.requests && before.requests[r] == old(state.requests[r])
    {
      Interleave(r);
      OwnOfMine(r, trace, e);
      ClaimsGrow(state, e);
      before := state;
      Do(e);
    }
  }

  /** What `claim_or_get_existing` gives its caller. */
  datatype ClaimResult = Won | Existing(record: JsonObject) | Unavailable | Interrupted

  /** The outcome `create_ticket` has to report when the claim was not won. */
  predicate AnswerFits(res: ClaimResult, outcome: Outcome) {
    match res
    case Won => false
    case Existing(o) =>
      if IsInProgress(o) then outcome == CreationInProgress
      else if Replay(o).Some? then outcome.Replayed? && outcome.response == Replay(o).value
      else outcome == InvalidRecord
    case Unavailable => outcome == BackendUnavailable
    case Interrupted => outcome == Cancelled
  }

  /** The events of `r` in `claim_or_get_existing`. */
  function ClaimStory(r: RequestId, atClaim: Delivery, atRead: Delivery, won: bool): seq<Event> {
    if atClaim.Raised() || won then [TryClaim(r, atClaim)]
    else [TryClaim(r, atClaim), ReadExisting(r, atRead)]
  }

  /** What the caller of the read is to get: the stored object, or the sentinel if none lives and parses. */
  function RecordFound(s: State, key: string): JsonObject {
    if key in s.store && s.now < s.store[key].expiry then
      match s.store[key].value
      case Json(o) => o
      case Malformed => SENTINEL
    else SENTINEL
  }

  /** Redis reports an error. */
  predicate Lost(delivery: Delivery) {
    delivery.LostBefore? || delivery.LostAfter?
  }

  /** The result of a Redis command whose caller gets no answer. */
  function NoAnswer(delivery: Delivery): ClaimResult {
    if delivery.Cut() then Interrupted else Unavailable
  }

  class IdempotencyStore {
    const world: World

    constructor (world: World)
      ensures this.world == world
    {
      this.world := world;
    }

    /**
     Won means that this request now executes under a claim of its own; anything else leaves
     it finished, with the outcome the result calls for. `before` is the state in which Redis ran
     the last command of the call; an answered read gives exactly what was stored under the key.
     */
    method ClaimOrGetExisting(r: RequestId, key: string, atClaim: Delivery, atRead: Delivery)
      returns (res: ClaimResult, ghost before: State)
      requires world.Valid() && r in world.state.requests && world.state.requests[r] == Request(Some(key), Claiming)
      modifies world
      ensures world.Valid() && old(world.trace) <= world.trace
      ensures Own(r, world.trace) == Own(r, old(world.trace)) + ClaimStory(r, atClaim, atRead, res.Won?)
      ensures res.Won? ==> atClaim.Delivered?
      ensures r in world.state.requests && world.state.requests[r].key == Some(key)
      ensures match res
              case Won =>
                && 0 < |world.state.claims| && world.state.claims[|world.state.claims| - 1].owner == r
                && world.state.requests[r].phase == Executing(Some(|world.state.claims| - 1), false)
              case _ =>
                && world.state.requests[r].phase.Finished?
                && AnswerFits(res, world.state.requests[r].phase.outcome)
      ensures world.HasStepped(before,
                               if atClaim.Raised() || res.Won? then TryClaim(r, atClaim) else ReadExisting(r, atRead))
      ensures res.Won? ==> !(key in before.store && before.now < before.store[key].expiry)
      ensures res.Existing? ==> res.record == RecordFound(before, key)
      ensures (res == Unavailable <==> Lost(atClaim) || (atClaim.Delivered? && !res.Won? && Lost(atRead)))
           && (res == Interrupted <==> atClaim.Cut() || (atClaim.Delivered? && !res.Won? && atRead.Cut()))
    {
      var at := world.Proceed(r, TryClaim(r, atClaim));
      before := at;
      if atClaim.Raised() {
        return NoAnswer(atClaim), before;
      }
      var claimed := !Live(at.store, key, at.now);
      if claimed {
        return Won, before;
      }
      at := world.Proceed(r, ReadExisting(r, atRead));
      before := at;
      if atRead.Raised() {
        return NoAnswer(atRead), before;
      }
      var raw := Lookup(at.store, key, at.now);
      match raw {
        case None => return Existing(SENTINEL), before;
        case Some(Malformed) => return Existing(SENTINEL), before;
        case Some(Json(o)) => return Existing(o), before;
      }
    }

    method Complete(r: RequestId, at: Delivery) returns (res: Outcome)
      requires world.Valid() && r in world.state.requests && world.state.requests[r].phase.Completing?
      requires world.state.requests[r].key.Some?
      modifies world
      ensures world.Valid() && old(world.trace) <= world.trace
      ensures Own(r, world.trace) == Own(r, old(world.trace)) + [Event.Complete(r, at)]
      ensures r in world.state.requests
      ensures world.state.requests[r] == old(world.state.requests[r]).(phase := Finished(res))
      ensures res == if at.Cut() then Cancelled
                     else if at.Raised() then BackendUnavailable
                     else Created(old(world.state.requests[r].phase.response),
                                  Some(old(world.state.requests[r].phase.held)))
    {
      var Completing(c, response) := world.state.requests[r].phase;
      var _ := world.Proceed(r, Event.Complete(r, at));
      return if at.Raised() then Unanswered(at) else Created(response, Some(c));
    }

    /** A failed `DEL` is swallowed: the error that led here is what the caller sees, unless it is cancelled. */
    method Release(r: RequestId, at: Delivery) returns (res: Outcome)
      requires world.Valid() && r in world.state.requests && world.state.requests[r].phase.Releasing?
      requires world.state.requests[r].key.Some? && world.state.requests[r].phase.held < |world.state.claims|
      modifies world
      ensures world.Valid() && old(world.trace) <= world.trace
      ensures Own(r, world.trace) == Own(r, old(world.trace)) + [Event.Release(r, at)]
      ensures r in world.state.requests
      ensures world.state.requests[r] == old(world.state.requests[r]).(phase := Finished(res))
      ensures res == if at.Cut() then Cancelled else Failed(old(world.state.requests[r].phase.error))
    {
      var error := world.state.requests[r].phase.error;
      var _ := world.Proceed(r, Event.Release(r, at));
      return if at.Cut() then Cancelled else Failed(error);
    }
  }

  // ---- `_execute` ----

  /** One question to the `customers` table, with its answer. */
  datatype Look = Look(id: string, found: bool)

  /** The `customers` table, which others change at any time, with the questions it has answered. */
  class CustomerTable {
    var ids: set<string>
    ghost var looks: seq<Look>

    constructor (ids: set<string>)
      ensures this.ids == ids && looks == []
    {
      this.ids, looks := ids, [];
    }

    /** Whether the customer is there when the query, or the foreign-key check of the insert, reaches the table. */
    method Knows(id: string) returns (found: bool)
      modifies this
      ensures found <==> id in ids
      ensures looks == old(looks) + [Look(id, found)]
    {
      ids := *;
      found := id in ids;
      looks := looks + [Look(id, found)];
    }
  }

  /** Both looks found the customer. */
  predicate Found(looks: seq<Look>, id: string) {
    looks == [Look(id, true), Look(id, true)]
  }

  /** The last look did not find the customer. */
  predicate Missing(looks: seq<Look>) {
    looks != [] && !looks[|looks| - 1].found
  }

  /** Every look is for this customer, and there are as many as the surroundings and the answers let happen. */
  ghost predicate LooksFit(looks: seq<Look>, id: string, env: Surroundings) {
    && (forall look :: look in looks ==> look.id == id)
    && (|looks| == 0 <==> !env.atCheck.Answers?)
    && (|looks| == 2 <==> |looks| != 0 && looks[0].found && env.atInsert.Answers?)
    && |looks| <= 2
  }

  /** The call is cancelled before its commit is answered. */
  predicate StopsEarly(looks: seq<Look>, id: string, env: Surroundings) {
    || env.atCheck.IsCancelled?
    || (looks == [Look(id, true)] && env.atInsert.IsCancelled?)
    || (Found(looks, id) && env.atCommit.Commits? && env.atCommit.delivery.Cut())
  }

  function TicketOf(payload: Runs.Payload, env: Surroundings): Ticket {
    Ticket(env.ticketId, payload.customerId, payload.subject, payload.description, env.createdAt)
  }

  /** Each column holds what the client sent, or what the database supplies. */
  predicate CarriesPayload(ticket: Ticket, payload: Runs.Payload, env: Surroundings) {
    && ticket.customerId == payload.customerId && ticket.subject == payload.subject
    && ticket.description == payload.description && ticket.id == env.ticketId && ticket.createdAt == env.createdAt
  }

  /** How the insert ends for its caller. */
  datatype Inserted = InTable(ticket: Ticket) | NotCreated(error: ExecutionError) | StoppedThere

  /** The events of `r` that lead to a raised error: a failure before the commit, or a commit whose answer was lost. */
  predicate IsFailure(r: RequestId, es: seq<Event>, error: ExecutionError, ticket: Ticket) {
    && !error.WorkflowFailure?
    && (|| es == [ExecutionFails(r, error)]
        || (error.DatabaseFailure? && es == [CommitTicket(r, ticket, LostBefore)])
        || (error.DatabaseFailure? && es == [CommitTicket(r, ticket, LostAfter)]))
  }

  /** The phase of an execution under `claim` that has raised. */
  function FailedPhase(claim: Option<nat>, error: ExecutionError): Phase {
    if claim.Some? then Releasing(claim.value, error) else Finished(Failed(error))
  }

  /** One step by which `r`, which executes, fails before its commit. */
  method FailBeforeCommit(world: World, r: RequestId, error: ExecutionError)
    requires world.Valid() && Executes(world.state, r) && !world.state.requests[r].phase.committed
    requires !error.WorkflowFailure?
    modifies world
    ensures world.Valid() && old(world.trace) <= world.trace && r in world.state.requests
    ensures Own(r, world.trace) == Own(r, old(world.trace)) + [ExecutionFails(r, error)]
    ensures world.state.requests[r]
         == old(world.state.requests[r]).(phase := FailedPhase(old(world.state.requests[r]).phase.claim, error))
  {
    var _ := world.Proceed(r, ExecutionFails(r, error));
  }

  method Stop(world: World, r: RequestId)
    requires world.Valid() && r in world.state.requests && !world.state.requests[r].phase.Finished?
    modifies world
    ensures world.Valid() && old(world.trace) <= world.trace && r in world.state.requests
    ensures Own(r, world.trace) == Own(r, old(world.trace)) + [Cancel(r)]
    ensures world.state.requests[r] == old(world.state.requests[r]).(phase := Finished(Cancelled))
  {
    var _ := world.Proceed(r, Cancel(r));
  }

  lemma OneEventLosesACommit(e: Event)
    ensures LosesACommit([e]) <==> CommitIsLost(e)
  {
    assert [e][0] == e;
  }

  /** What the commit makes of the request and of its caller. */
  method CommitInsert(world: World, r: RequestId, ticket: Ticket, at: CommitAwait)
    returns (res: Inserted, ghost own: seq<Event>)
    requires world.Valid() && Executes(world.state, r) && !world.state.requests[r].phase.committed
    modifies world
    ensures world.Valid() && old(world.trace) <= world.trace && r in world.state.requests
    ensures Own(r, world.trace) == Own(r, old(world.trace)) + own
    ensures InsertFits(r, own, res, ticket, old(world.state.requests[r]), world.state.requests[r])
    ensures res.InTable? <==> at == Commits(Delivered)
    ensures res == NotCreated(CustomerNotFound) <==> at.Refused?
    ensures res == StoppedThere <==> at.Commits? && at.delivery.Cut()
    ensures LosesACommit(own) <==> at == Commits(LostAfter)
  {
    match at {
      case Refused =>
        FailBeforeCommit(world, r, CustomerNotFound);
        OneEventLosesACommit(ExecutionFails(r, CustomerNotFound));
        return NotCreated(CustomerNotFound), [ExecutionFails(r, CustomerNotFound)];
      case Commits(delivery) =>
        OneEventLosesACommit(CommitTicket(r, ticket, delivery));
        var _ := world.Proceed(r, CommitTicket(r, ticket, delivery));
        res := if delivery.Cut() then StoppedThere
               else if delivery.Raised() then NotCreated(DatabaseFailure)
               else InTable(ticket);
        own := [CommitTicket(r, ticket, delivery)];
    }
  }

  /** The call was cancelled while the database committed its ticket, or did not. */
  predicate IsCutCommit(r: RequestId, es: seq<Event>, ticket: Ticket) {
    es == [CommitTicket(r, ticket, CutBefore)] || es == [CommitTicket(r, ticket, CutAfter)]
  }

  /** The events, the result and the request's new phase belong together. */
  predicate InsertFits(r: RequestId, own: seq<Event>, res: Inserted, ticket: Ticket, before: Request, after: Request)
    requires before.phase.Executing?
  {
    && after.key == before.key
    && match res
       case InTable(t) =>
         && t == ticket && own == [CommitTicket(r, ticket, Delivered)]
         && after.phase == Executing(before.phase.claim, true)
       case NotCreated(error) =>
         IsFailure(r, own, error, ticket) && after.phase == FailedPhase(before.phase.claim, error)
       case StoppedThere =>
         && (own == [Cancel(r)] || IsCutCommit(r, own, ticket))
         && after.phase == Finished(Cancelled)
  }

  /** A ticket was put into the table. */
  ghost predicate Committed(es: seq<Event>) {
    exists i :: 0 <= i < |es| && es[i].CommitTicket? && es[i].delivery.Applied()
  }

  /** How the looks and the surroundings decide the end of the insert. */
  ghost predicate EndFits(own: seq<Event>, looks: seq<Look>, res: Inserted, id: string, env: Surroundings) {
    && LooksFit(looks, id, env)
    && (Committed(own) ==> Found(looks, id))
    && (res == NotCreated(CustomerNotFound) <==> Missing(looks) || (Found(looks, id) && env.atCommit.Refused?))
    && (res == StoppedThere <==> StopsEarly(looks, id, env))
    && (LosesACommit(own) <==> Found(looks, id) && env.atCommit == Commits(LostAfter))
    && (res.InTable? <==> Found(looks, id) && env.atCommit == Commits(Delivered))
  }

  /**
   The first half of `_execute`: the customer check, the insert and the commit. Every look is for
   the payload's customer; the table gets a ticket only if that customer was there at both looks;
   and each way to end occurs exactly when the looks and the surroundings say so.
   */
  method InsertTicket(world: World, customers: CustomerTable, r: RequestId, payload: Runs.Payload, env: Surroundings)
    returns (res: Inserted, ghost own: seq<Event>, ghost looks: seq<Look>)
    requires world.Valid() && Executes(world.state, r) && !world.state.requests[r].phase.committed
    modifies world, customers
    ensures world.Valid() && old(world.trace) <= world.trace && r in world.state.requests
    ensures Own(r, world.trace) == Own(r, old(world.trace)) + own
    ensures InsertFits(r, own, res, TicketOf(payload, env), old(world.state.requests[r]), world.state.requests[r])
    ensures customers.looks == old(customers.looks) + looks
    ensures EndFits(own, looks, res, payload.customerId, env)
  {
    if env.atCheck.IsCancelled? {
      Stop(world, r);
      return StoppedThere, [Cancel(r)], [];
    }
    if env.atCheck.Errs? {
      FailBeforeCommit(world, r, DatabaseFailure);
      return NotCreated(DatabaseFailure), [ExecutionFails(r, DatabaseFailure)], [];
    }
    var customer := customers.Knows(payload.customerId);
    looks := [Look(payload.customerId, customer)];
    if !customer {
      FailBeforeCommit(world, r, CustomerNotFound);
      return NotCreated(CustomerNotFound), [ExecutionFails(r, CustomerNotFound)], looks;
    }
    if env.atInsert.IsCancelled? {
      Stop(world, r);
      return StoppedThere, [Cancel(r)], looks;
    }
    if env.atInsert.Errs? {
      FailBeforeCommit(world, r, DatabaseFailure);
      return NotCreated(DatabaseFailure), [ExecutionFails(r, DatabaseFailure)], looks;
    }
    var ticket := TicketOf(payload, env);
    var referenced := customers.Knows(ticket.customerId);
    looks := looks + [Look(ticket.customerId, referenced)];
    if !referenced {
      FailBeforeCommit(world, r, CustomerNotFound);
      return NotCreated(CustomerNotFound), [ExecutionFails(r, CustomerNotFound)], looks;
    }
    res, own := CommitInsert(world, r, ticket, env.atCommit);
  }

  /** The workflow as `_execute` sees it: the compiled graph, and what its nodes read and write. */
  datatype Backend = Backend(
    graph: Workflow.CompiledGraph,
    runs: WorkflowExecution.World,
    checkpoints: WorkflowExecution.WorkflowCheckpointStore,
    queue: ApprovalRepository.SupervisorQueue)

  ghost predicate Ready(b: Backend, ticketId: string)
    reads b.runs, b.queue, b.queue.repository, b.queue.repository.table
  {
    && Workflow.IsSupportWorkflow(b.graph) && b.checkpoints.world == b.runs
    && b.runs.Valid() && b.queue.Valid() && ticketId !in b.runs.state.runs
  }

  /** The response that a call in these surroundings owes its client. */
  function ResponseDue(payload: Runs.Payload, env: Surroundings): (due: TicketResponse)
    requires Workflow.Answers(env.oracles)
    ensures due.ticketId == env.ticketId && due.customerId == payload.customerId && due.createdAt == env.createdAt
    ensures due.category == CategoryValue(env.oracles.category.value) && due.selectedAgent == due.category + "_agent"
    ensures due.draftResponse == WorkflowSafety.DraftOf(env.oracles.generation) && !due.idempotentReplay
    ensures due.matchedPolicyRules
         == WorkflowSafety.RulesFor(payload.subject + "\n\n" + payload.description, env.oracles)
    ensures due.requiresHumanReview <==> due.matchedPolicyRules != []
  {
    Workflow.AgentBearsCategoryName(env.oracles.category.value);
    Runs.BuildResponse(WorkflowSafety.Outcome(Runs.InitialState(env.ticketId, payload), env.oracles), env.createdAt)
  }

  predicate IsResponseDue(response: TicketResponse, payload: Runs.Payload, env: Surroundings) {
    Workflow.Answers(env.oracles) && response == ResponseDue(payload, env)
  }

  /**
   The second half of `_execute`. It gives the response due exactly when the workflow's classifier
   answers and its agent can be built; otherwise it raises, which None stands for, and no review
   item is attempted.
   */
  method AnswerTicket(b: Backend, ticket: Ticket, payload: Runs.Payload, env: Surroundings)
    returns (response: Option<TicketResponse>)
    requires Ready(b, ticket.id) && ticket == TicketOf(payload, env)
    modifies b.runs, b.queue, b.queue.repository, b.queue.repository.table
    ensures response == if Workflow.Answers(env.oracles) then Some(ResponseDue(payload, env)) else None
    ensures b.runs.Valid() && ticket.id in b.runs.state.runs
    ensures b.runs.state.runs[ticket.id].done == |Workflow.ORDER| <==> response.Some?
    ensures b.queue.Valid() && old(b.queue.history) <= b.queue.history
    ensures |Runs.ItemsFor(b.runs.state.enqueued, ticket.id)|
         == if response.Some? && response.value.requiresHumanReview then 1 else 0
    ensures WorkflowExecution.AllQueued(b.queue.history, |old(b.queue.history)|,
                                        Runs.ItemsFor(b.runs.state.enqueued, ticket.id), env.reviewCommits)
    ensures response.None? ==> unchanged(b.queue, b.queue.repository)
  {
    var final, attempts :=
      WorkflowExecution.Invoke(b.graph, b.runs, b.checkpoints, b.queue, ticket.id, payload, env.oracles,
                               env.reviewCommits);
    response := match final
      case Some(state) => Some(Runs.BuildResponse(state, ticket.createdAt))
      case None => None;
  }

  datatype WorkResult = Response(response: TicketResponse) | Raises(error: ExecutionError) | Stopped

  /** The events of `r` in `_execute`, by how it ends for its caller. */
  predicate IsWork(r: RequestId, es: seq<Event>, res: WorkResult, ticket: Ticket) {
    match res
    case Response(response) => es == [CommitTicket(r, ticket, Delivered), ExecutionSucceeds(r, response)]
    case Raises(WorkflowFailure) => es == [CommitTicket(r, ticket, Delivered), ExecutionFails(r, WorkflowFailure)]
    case Raises(error) => IsFailure(r, es, error, ticket)
    case Stopped =>
      es == [Cancel(r)] || IsCutCommit(r, es, ticket) || es == [CommitTicket(r, ticket, Delivered), Cancel(r)]
  }

  /** The phase `_execute` leaves a request in. */
  function PhaseAfter(claim: Option<nat>, res: WorkResult): Phase {
    match res
    case Response(response) =>
      if claim.Some? then Completing(claim.value, response) else Finished(Created(response, None))
    case Raises(error) => FailedPhase(claim, error)
    case Stopped => Finished(Cancelled)
  }

  /** How a call ends whose commit was answered. */
  function LateResult(payload: Runs.Payload, env: Surroundings): WorkResult {
    if RaisesLate(env) then Raises(WorkflowFailure)
    else if WaitsForWorkflow(env) then Response(ResponseDue(payload, env))
    else Stopped
  }

  /** The event by which it ends. */
  function LateEvent(r: RequestId, res: WorkResult): Event {
    match res
    case Response(response) => ExecutionSucceeds(r, response)
    case Raises(error) => ExecutionFails(r, error)
    case Stopped => Cancel(r)
  }

  /** The second half of `_execute` for its caller, who may be cancelled before the workflow starts or while it runs. */
  method AnswerAndEnd(world: World, b: Backend, r: RequestId, ticket: Ticket, payload: Runs.Payload, env: Surroundings)
    returns (res: WorkResult)
    requires world.Valid() && Executes(world.state, r) && world.state.requests[r].phase.committed
    requires Ready(b, ticket.id) && ticket == TicketOf(payload, env)
    modifies world, b.runs, b.queue, b.queue.repository, b.queue.repository.table
    ensures world.Valid() && old(world.trace) <= world.trace && r in world.state.requests
    ensures res == LateResult(payload, env)
    ensures Own(r, world.trace) == Own(r, old(world.trace)) + [LateEvent(r, res)]
    ensures world.state.requests[r]
         == old(world.state.requests[r]).(phase := PhaseAfter(old(world.state.requests[r]).phase.claim, res))
    ensures ticket.id in b.runs.state.runs <==> env.atStart.Answers?
  {
    if env.atStart.Errs? {
      res := Raises(WorkflowFailure);
    } else if env.atStart.IsCancelled? {
      res := Stopped;
    } else {
      var response := AnswerTicket(b, ticket, payload, env);
      res := if env.cancelledAtWorkflow then Stopped
             else if response.None? then Raises(WorkflowFailure)
             else Response(response.value);
    }
    var _ := world.Proceed(r, LateEvent(r, res));
  }

  /** How the events, the looks and the surroundings decide the end of `_execute`. */
  ghost predicate ResultFits(r: RequestId, own: seq<Event>, looks: seq<Look>, res: WorkResult,
                             payload: Runs.Payload, env: Surroundings) {
    var found, answered := Found(looks, payload.customerId), env.atCommit == Commits(Delivered);
    && IsWork(r, own, res, TicketOf(payload, env)) && CarriesPayload(TicketOf(payload, env), payload, env)
    && LooksFit(looks, payload.customerId, env)
    && (Committed(own) ==> found)
    && (res == Raises(CustomerNotFound) <==> Missing(looks) || (found && env.atCommit.Refused?))
    && (found && answered ==> res == LateResult(payload, env))
    && (res.Response? ==> found && answered)
    && (res.Stopped? && !(found && answered) <==> StopsEarly(looks, payload.customerId, env))
    && (FailsLate(own) <==> found && LeavesTicketBehind(env))
  }

  /** What `_execute` says of itself: that, and the request's new phase. */
  ghost predicate WorkFits(r: RequestId, own: seq<Event>, looks: seq<Look>, res: WorkResult,
                           payload: Runs.Payload, env: Surroundings, before: Request, after: Request)
    requires before.phase.Executing?
  {
    ResultFits(r, own, looks, res, payload, env) && after == before.(phase := PhaseAfter(before.phase.claim, res))
  }

  /** Some of the events are a failure with the ticket already in the table. */
  ghost predicate FailsLate(es: seq<Event>) {
    exists i :: 0 <= i < |es| && FailsAfterCommit(es[i])
  }

  /** The call will raise with its ticket in the table, if it gets as far as the commit. */
  predicate LeavesTicketBehind(env: Surroundings) {
    env.atCommit == Commits(LostAfter) || (env.atCommit == Commits(Delivered) && RaisesLate(env))
  }

  lemma FirstCommits(own: seq<Event>)
    requires own != [] && own[0].CommitTicket? && own[0].delivery.Applied()
    ensures Committed(own)
  {}

  /** A call fails with its ticket in the table exactly when it got that far in surroundings that make it fail then. */
  lemma LateFailureExactly(r: RequestId, own: seq<Event>, looks: seq<Look>, res: WorkResult,
                           payload: Runs.Payload, env: Surroundings, before: Request, after: Request)
    requires before.phase.Executing? && WorkFits(r, own, looks, res, payload, env, before, after)
    ensures FailsLate(own) <==> Committed(own) && LeavesTicketBehind(env)
  {
    if FailsLate(own) {
      FirstCommits(own);
    }
  }

  lemma NotInsertedFits(r: RequestId, own: seq<Event>, looks: seq<Look>, inserted: Inserted,
                        payload: Runs.Payload, env: Surroundings, before: Request, after: Request)
    requires before.phase.Executing? && InsertFits(r, own, inserted, TicketOf(payload, env), before, after)
    requires EndFits(own, looks, inserted, payload.customerId, env) && !inserted.InTable?
    ensures inserted.StoppedThere? ==> WorkFits(r, own, looks, Stopped, payload, env, before, after)
    ensures inserted.NotCreated? ==> WorkFits(r, own, looks, Raises(inserted.error), payload, env, before, after)
  {
    assert |own| == 1;
    assert FailsLate(own) <==> FailsAfterCommit(own[0]);
    assert LosesACommit(own) <==> CommitIsLost(own[0]);
  }

  /** The events of a call whose commit was answered. */
  function LateStory(r: RequestId, payload: Runs.Payload, env: Surroundings): seq<Event> {
    [CommitTicket(r, TicketOf(payload, env), Delivered), LateEvent(r, LateResult(payload, env))]
  }

  lemma AnsweredFits(r: RequestId, looks: seq<Look>, payload: Runs.Payload, env: Surroundings,
                     before: Request, after: Request)
    requires before.phase.Executing? && env.atCommit == Commits(Delivered)
    requires Found(looks, payload.customerId) && LooksFit(looks, payload.customerId, env)
    requires after == before.(phase := PhaseAfter(before.phase.claim, LateResult(payload, env)))
    ensures WorkFits(r, LateStory(r, payload, env), looks, LateResult(payload, env), payload, env, before, after)
    ensures Committed(LateStory(r, payload, env))
  {
    var own := LateStory(r, payload, env);
    FirstCommits(own);
    assert FailsAfterCommit(own[1]) <==> RaisesLate(env);
  }

  /** What remains to be done once the ticket is in the table; `before` is the request as `_execute` found it. */
  method AnswerInserted(world: World, b: Backend, r: RequestId, ghost looks: seq<Look>, payload: Runs.Payload,
                        env: Surroundings, ghost before: Request)
    returns (res: WorkResult, ghost own: seq<Event>)
    requires world.Valid() && Executes(world.state, r) && before.phase.Executing?
    requires world.state.requests[r] == before.(phase := Executing(before.phase.claim, true))
    requires Ready(b, env.ticketId) && env.atCommit == Commits(Delivered)
    requires Found(looks, payload.customerId) && LooksFit(looks, payload.customerId, env)
    modifies world, b.runs, b.queue, b.queue.repository, b.queue.repository.table
    ensures world.Valid() && old(world.trace) <= world.trace && r in world.state.requests
    ensures own != [] && own == [CommitTicket(r, TicketOf(payload, env), Delivered)] + own[1..]
    ensures Own(r, world.trace) == Own(r, old(world.trace)) + own[1..]
    ensures WorkFits(r, own, looks, res, payload, env, before, world.state.requests[r]) && Committed(own)
    ensures res.Response? ==> env.ticketId in b.runs.state.runs
  {
    res := AnswerAndEnd(world, b, r, TicketOf(payload, env), payload, env);
    AnsweredFits(r, looks, payload, env, before, world.state.requests[r]);
    own := LateStory(r, payload, env);
  }

  lemma Regroup(a: seq<Event>, b: seq<Event>, c: seq<Event>)
    ensures a + b + c == a + (b + c)
  {}

  /**
   `_execute`. The ticket is committed before the workflow begins, and without a committed ticket
   the workflow does not run. Once the commit is answered, the call returns the response due,
   raises an error that leaves the ticket behind, or is cancelled, each exactly when its
   surroundings say so.
   */
  method Execute(world: World, customers: CustomerTable, b: Backend, r: RequestId, payload: Runs.Payload,
                 env: Surroundings)
    returns (res: WorkResult, ghost own: seq<Event>, ghost looks: seq<Look>)
    requires world.Valid() && Executes(world.state, r) && !world.state.requests[r].phase.committed
    requires Ready(b, env.ticketId)
    modifies world, customers, b.runs, b.queue, b.queue.repository, b.queue.repository.table
    ensures world.Valid() && old(world.trace) <= world.trace && r in world.state.requests
    ensures Own(r, world.trace) == Own(r, old(world.trace)) + own
    ensures WorkFits(r, own, looks, res, payload, env, old(world.state.requests[r]), world.state.requests[r])
    ensures customers.looks == old(customers.looks) + looks
    ensures env.ticketId in b.runs.state.runs ==> Committed(own)
    ensures res.Response? ==> env.ticketId in b.runs.state.runs
  {
    ghost var before, was := world.state.requests[r], Own(r, world.trace);
    var inserted;
    inserted, own, looks := InsertTicket(world, customers, r, payload, env);
    if inserted.InTable? {
      HeldClaimExists(world, r);
      res, own := AnswerInserted(world, b, r, looks, payload, env, before);
      Regroup(was, [CommitTicket(r, TicketOf(payload, env), Delivered)], own[1..]);
    } else {
      res := if inserted.StoppedThere? then Stopped else Raises(inserted.error);
      NotInsertedFits(r, own, looks, inserted, payload, env, before, world.state.requests[r]);
    }
  }

  lemma HeldClaimExists(world: World, r: RequestId)
    requires world.Valid() && r in world.state.requests
    ensures Holds(world.state.requests[r]) ==> HeldClaim(world.state.requests[r]) < |world.state.claims|
  {
    RunKeepsPairs(world.ttl, world.trace);
    assert PhaseOk(r, world.state.requests[r], world.state.claims);
  }

  // ---- `create_ticket` ----

  /** The last event of `r` under its claim, if it was not cancelled before. */
  function Settlement(r: RequestId, res: WorkResult, at: Delivery): seq<Event> {
    match res
    case Response(_) => [Event.Complete(r, at)]
    case Raises(_) => [Event.Release(r, at)]
    case Stopped => []
  }

  /** What the caller is told once `_execute` has ended with `res` under claim `c`. */
  function SettledOutcome(res: WorkResult, c: nat, at: Delivery): Outcome {
    match res
    case Response(response) => if at.Raised() then Unanswered(at) else Created(response, Some(c))
    case Raises(error) => if at.Cut() then Cancelled else Failed(error)
    case Stopped => Cancelled
  }

  /** The try block of `create_ticket` and what follows it: an error releases the claim, an answer completes it. */
  method Settle(store: IdempotencyStore, r: RequestId, res: WorkResult, c: nat, at: Delivery) returns (outcome: Outcome)
    requires store.world.Valid() && r in store.world.state.requests && store.world.state.requests[r].key.Some?
    requires store.world.state.requests[r].phase == PhaseAfter(Some(c), res)
    requires res.Stopped? || c < |store.world.state.claims|
    modifies store.world
    ensures store.world.Valid() && old(store.world.trace) <= store.world.trace && r in store.world.state.requests
    ensures Own(r, store.world.trace) == Own(r, old(store.world.trace)) + Settlement(r, res, at)
    ensures store.world.state.requests[r] == old(store.world.state.requests[r]).(phase := Finished(outcome))
    ensures outcome == SettledOutcome(res, c, at)
  {
    match res {
      case Stopped =>
        outcome := Cancelled;
      case Raises(_) =>
        outcome := store.Release(r, at);
      case Response(_) =>
        outcome := store.Complete(r, at);
    }
  }

  /** What `create_ticket` makes of a key it did not win; `recorded` supplies a replay's history marks. */
  method AnswerWithoutClaim(existing: ClaimResult, recorded: Outcome) returns (outcome: Outcome)
    requires AnswerFits(existing, recorded)
    ensures outcome == recorded
  {
    match existing {
      case Unavailable => outcome := BackendUnavailable;
      case Interrupted => outcome := Cancelled;
      case Existing(o) =>
        if IsInProgress(o) {
          outcome := CreationInProgress;
        } else {
          match Replay(o) {
            case Some(response) => outcome := Replayed(response, recorded.source, recorded.at);
            case None => outcome := InvalidRecord;
          }
        }
    }
  }

  /** What one call has done: whether it won its key, how its execution went, and what that did to the world. */
  datatype Course = NotExecuted | Executed(res: WorkResult, own: seq<Event>, looks: seq<Look>)

  function LooksOf(course: Course): seq<Look> {
    if course.Executed? then course.looks else []
  }

  /**
   What a call says of itself: how its execution, if it came to that, went; that the execution
   failed with a ticket in the table exactly when it got that far in surroundings that make it
   fail then; and that a response it creates is the one due.
   */
  ghost predicate CourseFits(r: RequestId, course: Course, outcome: Outcome, payload: Runs.Payload, env: Surroundings) {
    && (course.Executed? ==>
          && ResultFits(r, course.own, course.looks, course.res, payload, env)
          && (FailsLate(course.own) <==> Committed(course.own) && LeavesTicketBehind(env)))
    && (outcome.Created? ==>
          course.Executed? && course.res == Response(outcome.response) && IsResponseDue(outcome.response, payload, env))
  }

  lemma WorkMakesCourse(r: RequestId, own: seq<Event>, looks: seq<Look>, res: WorkResult, outcome: Outcome,
                        payload: Runs.Payload, env: Surroundings, before: Request, after: Request)
    requires before.phase.Executing? && WorkFits(r, own, looks, res, payload, env, before, after)
    requires outcome.Created? ==> res == Response(outcome.response)
    ensures CourseFits(r, Executed(res, own, looks), outcome, payload, env)
  {
    LateFailureExactly(r, own, looks, res, payload, env, before, after);
  }

  /** The events of a call after its arrival. */
  function StoryOf(r: RequestId, keyed: bool, env: Surroundings, course: Course): seq<Event> {
    if !keyed then (if course.Executed? then course.own else [])
    else ClaimStory(r, env.atClaim, env.atRead, course.Executed?)
         + if course.Executed? then course.own + Settlement(r, course.res, env.atSettle) else []
  }

  /** The part of `create_ticket` that runs under a claim. */
  method ExecuteUnderClaim(store: IdempotencyStore, customers: CustomerTable, b: Backend, r: RequestId,
                           payload: Runs.Payload, env: Surroundings)
    returns (outcome: Outcome, ghost course: Course)
    requires store.world.Valid() && Executes(store.world.state, r) && Ready(b, env.ticketId)
    requires !store.world.state.requests[r].phase.committed && store.world.state.requests[r].phase.claim.Some?
    requires store.world.state.requests[r].key.Some?
    modifies store.world, customers, b.runs, b.queue, b.queue.repository, b.queue.repository.table
    ensures store.world.Valid() && old(store.world.trace) <= store.world.trace && r in store.world.state.requests
    ensures course.Executed? && CourseFits(r, course, outcome, payload, env)
    ensures Own(r, store.world.trace)
         == Own(r, old(store.world.trace)) + (course.own + Settlement(r, course.res, env.atSettle))
    ensures store.world.state.requests[r] == old(store.world.state.requests[r]).(phase := Finished(outcome))
    ensures customers.looks == old(customers.looks) + LooksOf(course)
  {
    ghost var was, before := Own(r, store.world.trace), store.world.state.requests[r];
    var c := store.world.state.requests[r].phase.claim.value;
    ghost var own, looks;
    var res;
    res, own, looks := Execute(store.world, customers, b, r, payload, env);
    ghost var after := store.world.state.requests[r];
    HeldClaimExists(store.world, r);
    outcome := Settle(store, r, res, c, env.atSettle);
    course := Executed(res, own, looks);
    WorkMakesCourse(r, own, looks, res, outcome, payload, env, before, after);
    Regroup(was, own, Settlement(r, res, env.atSettle));
  }

  /**
   `create_ticket`. In whatever surroundings, the call is part of a run of the protocol: its own
   events are exactly those of its story, the outcome it reports is the one recorded, and a
   response it creates is the one due.
   */
  method CreateTicket(world: World, customers: CustomerTable, b: Backend, r: RequestId, key: Option<string>,
                      payload: Runs.Payload, env: Surroundings)
    returns (outcome: Outcome, ghost course: Course)
    requires world.Valid() && r !in world.state.requests && Own(r, world.trace) == [] && Ready(b, env.ticketId)
    modifies world, customers, b.runs, b.queue, b.queue.repository, b.queue.repository.table
    ensures world.Valid() && old(world.trace) <= world.trace
    ensures Own(r, world.trace) == [Arrive(r, key)] + StoryOf(r, key.Some?, env, course)
    ensures CourseFits(r, course, outcome, payload, env)
    ensures key.None? ==> course.Executed?
    ensures course.Executed? && key.Some? ==> env.atClaim.Delivered?
    ensures r in world.state.requests && world.state.requests[r] == Request(key, Finished(outcome))
    ensures customers.looks == old(customers.looks) + LooksOf(course)
  {
    Begin(world, r, key);
    if key.None? {
      outcome, course := ExecuteUnkeyed(world, customers, b, r, payload, env);
    } else {
      outcome, course := ExecuteKeyed(world, customers, b, r, key.value, payload, env);
    }
  }

  method Begin(world: World, r: RequestId, key: Option<string>)
    requires world.Valid() && r !in world.state.requests
    modifies world
    ensures world.Valid() && old(world.trace) <= world.trace
    ensures Own(r, world.trace) == Own(r, old(world.trace)) + [Arrive(r, key)]
    ensures r in world.state.requests
    ensures world.state.requests[r] == Request(key, if key.Some? then Claiming else Executing(None, false))
  {
    OwnOfMine(r, world.trace, Arrive(r, key));
    world.Do(Arrive(r, key));
  }

  method ExecuteUnkeyed(world: World, customers: CustomerTable, b: Backend, r: RequestId,
                        payload: Runs.Payload, env: Surroundings)
    returns (outcome: Outcome, ghost course: Course)
    requires world.Valid() && r in world.state.requests && Ready(b, env.ticketId)
    requires world.state.requests[r] == Request(None, Executing(None, false))
    modifies world, customers, b.runs, b.queue, b.queue.repository, b.queue.repository.table
    ensures world.Valid() && old(world.trace) <= world.trace
    ensures course.Executed? && CourseFits(r, course, outcome, payload, env)
    ensures Own(r, world.trace) == Own(r, old(world.trace)) + StoryOf(r, false, env, course)
    ensures r in world.state.requests && world.state.requests[r] == Request(None, Finished(outcome))
    ensures customers.looks == old(customers.looks) + LooksOf(course)
  {
    ghost var own, looks;
    ghost var before := world.state.requests[r];
    var res;
    res, own, looks := Execute(world, customers, b, r, payload, env);
    outcome := match res
      case Response(response) => Created(response, None)
      case Raises(error) => Failed(error)
      case Stopped => Cancelled;
    course := Executed(res, own, looks);
    WorkMakesCourse(r, own, looks, res, outcome, payload, env, before, world.state.requests[r]);
  }

  method ExecuteKeyed(world: World, customers: CustomerTable, b: Backend, r: RequestId, key: string,
                      payload: Runs.Payload, env: Surroundings)
    returns (outcome: Outcome, ghost course: Course)
    requires world.Valid() && r in world.state.requests && Ready(b, env.ticketId)
    requires world.state.requests[r] == Request(Some(key), Claiming)
    modifies world, customers, b.runs, b.queue, b.queue.repository, b.queue.repository.table
    ensures world.Valid() && old(world.trace) <= world.trace
    ensures Own(r, world.trace) == Own(r, old(world.trace)) + StoryOf(r, true, env, course)
    ensures CourseFits(r, course, outcome, payload, env)
    ensures course.Executed? ==> env.atClaim.Delivered?
    ensures r in world.state.requests && world.state.requests[r] == Request(Some(key), Finished(outcome))
    ensures customers.looks == old(customers.looks) + LooksOf(course)
  {
    ghost var was := Own(r, world.trace);
    var store := new IdempotencyStore(world);
    var existing, _ := store.ClaimOrGetExisting(r, key, env.atClaim, env.atRead);
    if existing.Won? {
      outcome, course := ExecuteUnderClaim(store, customers, b, r, payload, env);
      Regroup(was, ClaimStory(r, env.atClaim, env.atRead, true), course.own + Settlement(r, course.res, env.atSettle));
    } else {
      outcome := AnswerWithoutClaim(existing, world.state.requests[r].phase.outcome);
      course := NotExecuted;
    }
  }

  /**
   Whatever calls of `create_ticket` do to a world in which nobody outlives a claim: no key ever
   has two holders; and a key gets a second ticket within a time to live only if some call failed
   with its ticket in the table.
   */
  lemma TimelyWorldIsSafe(world: World, key: string, from: nat)
    requires world.Valid() && IsTimelyRun(Init(world.ttl), world.trace)
    ensures Exclusive(world.state)
    ensures |RowsInWindow(world.state, key, from)| <= 1 || FailsLate(world.trace)
  {
    AtMostOneHolder(world.ttl, world.trace);
    if !FailsLate(world.trace) {
      AtMostOneRow(world.ttl, world.trace, key, from);
    }
  }

  /** If moreover nothing is raised after an answered commit, that takes a commit whose answer was lost. */
  lemma QuietWorldNeedsALostCommit(world: World, key: string, from: nat)
    requires world.Valid() && IsTimelyRun(Init(world.ttl), world.trace) && NobodyRaises(world.trace)
    ensures |RowsInWindow(world.state, key, from)| <= 1 || LosesACommit(world.trace)
  {
    TimelyWorldIsSafe(world, key, from);
  }
}
