/**
 Runs of the support workflow with their checkpoints (`backend/graph/nodes.py`,
 `backend/graph/checkpoint.py`): any number of tickets at once, each step of each taken
 separately, with lost saves, expiring checkpoints and crashes anywhere.
 */
module WorkflowRuns {
  import opened Options
  import opened TtlStore
  import opened WorkflowStates
  import opened Workflow
  import opened TicketResponses

  type TicketId = string

  /** The stages `_checkpointed` is given. */
  datatype Stage = Classification | AgentSelection | SpecialistExecution | PolicyEvaluation

  /** The stage a node's wrapper saves, if the node has one. */
  function StageOf(node: Node): Option<Stage> {
    match node
    case LoadTicket => None
    case ClassifyTicket => Some(Classification)
    case SelectAgent => Some(AgentSelection)
    case ExecuteAgent => Some(SpecialistExecution)
    case ConfidenceEvaluation => Some(PolicyEvaluation)
    case PersistResults => None
  }

  /** The place in `ORDER` of the node that completes a stage. */
  function NodeIndex(stage: Stage): (i: nat)
    ensures i < |ORDER| && StageOf(ORDER[i]) == Some(stage)
  {
    match stage
    case Classification => 1
    case AgentSelection => 2
    case SpecialistExecution => 3
    case PolicyEvaluation => 4
  }

  datatype Payload = Payload(customerId: string, subject: string, description: string)

  function TicketText(p: Payload): string {
    p.subject + "\n\n" + p.description
  }

  /** The state `_execute` invokes the graph with. */
  function InitialState(ticket: TicketId, p: Payload): WorkflowState {
    WorkflowState(ticket, p.customerId, TicketText(p), None, None, None, None, None, None, None, None, Some(Pending))
  }

  /** What the first `n` nodes make of a state when nothing else happens. */
  function StateAfter(initial: WorkflowState, o: Oracles, n: nat): WorkflowState
    requires n <= |ORDER|
  {
    if n == 0 then initial
    else
      var s := StateAfter(initial, o, n - 1);
      Merge(s, NodeUpdate(ORDER[n - 1], s, o))
  }

  datatype Checkpoint = Checkpoint(stage: Stage, snapshot: Update, savedAt: nat)

  /** A save the wrapper has still to make. */
  datatype Save = Save(stage: Stage, snapshot: Update)

  /**
   A run: its input, its state, how many nodes it has executed, the save in progress, and whether
   it has ended before its end, because a node raised or its thread died.
   */
  datatype Progress = Progress(
    payload: Payload,
    oracles: Oracles,
    state: WorkflowState,
    done: nat,
    pending: Option<Save>,
    ended: bool)

  /** The arguments of one attempt to create a review item. */
  datatype ReviewItem = ReviewItem(
    ticketId: TicketId,
    draftResponse: string,
    retrievedContext: Option<string>,
    selectedAgent: string,
    matchedPolicyRules: seq<string>)

  /** What `_enqueue_supervisor_review` passes on. */
  function ReviewItemOf(s: WorkflowState): ReviewItem {
    ReviewItem(
      s.ticketId,
      GetOr(s.draftResponse, ""),
      s.retrievedContext,
      AgentValue(GetOr(s.selectedAgent, GeneralAgent)),
      GetOr(s.matchedPolicyRules, []))
  }

  /** The response `_execute` builds from the final state. */
  function BuildResponse(s: WorkflowState, createdAt: string): TicketResponse {
    TicketResponse(
      s.ticketId,
      s.customerId,
      CategoryValue(GetOr(s.category, General)),
      AgentValue(GetOr(s.selectedAgent, GeneralAgent)),
      GetOr(s.draftResponse, ""),
      GetOr(s.requiresHumanReview, false),
      GetOr(s.matchedPolicyRules, []),
      createdAt,
      false)
  }

  datatype State = State(
    ttl: nat,
    now: nat,
    store: Store<TicketId, Checkpoint>,
    runs: map<TicketId, Progress>,
    enqueued: seq<ReviewItem>)

  datatype Event =
    | Tick
    | Begin(ticket: TicketId, payload: Payload, oracles: Oracles)
    | ExecuteNode(ticket: TicketId)
    | RaiseError(ticket: TicketId)
    | SaveCheckpoint(ticket: TicketId, delivery: Delivery)
    | Crash(ticket: TicketId)

  function Init(ttl: nat): State {
    State(ttl, 0, map[], map[], [])
  }

  predicate Active(s: State, ticket: TicketId) {
    ticket in s.runs && !s.runs[ticket].ended
  }

  /** The run of the ticket is about to begin a node. */
  predicate AtNode(s: State, ticket: TicketId) {
    Active(s, ticket) && s.runs[ticket].pending.None? && s.runs[ticket].done < |ORDER|
  }

  predicate Enabled(s: State, e: Event) {
    match e
    case Tick => true
    case Begin(ticket, _, _) => ticket !in s.runs
    case ExecuteNode(ticket) => AtNode(s, ticket) && !NodeRaises(ORDER[s.runs[ticket].done], s.runs[ticket].oracles)
    case RaiseError(ticket) => AtNode(s, ticket) && NodeRaises(ORDER[s.runs[ticket].done], s.runs[ticket].oracles)
    case SaveCheckpoint(ticket, _) => Active(s, ticket) && s.runs[ticket].pending.Some?
    case Crash(ticket) => Active(s, ticket)
  }

  /** A run after its next node: the update is merged, and the wrapper is about to save it. */
  function Advance(p: Progress): Progress
    requires p.done < |ORDER|
  {
    var node := ORDER[p.done];
    var update := NodeUpdate(node, p.state, p.oracles);
    p.(state := Merge(p.state, update),
       done := p.done + 1,
       pending := match StageOf(node)
                  case Some(stage) => Some(Save(stage, update))
                  case None => None)
  }

  /** Only the last node creates a review item, and only when review is required. */
  function Enqueues(p: Progress): seq<ReviewItem>
    requires p.done < |ORDER|
  {
    if ORDER[p.done] == PersistResults && GetOr(p.state.requiresHumanReview, false) then [ReviewItemOf(p.state)] else []
  }

  /** The run ends before its end. */
  function End(s: State, ticket: TicketId): State
    requires ticket in s.runs
  {
    s.(runs := s.runs[ticket := s.runs[ticket].(ended := true)])
  }

  function Apply(s: State, e: Event): State
    requires Enabled(s, e)
  {
    match e
    case Tick => s.(now := s.now + 1)
    case Begin(ticket, payload, oracles) =>
      s.(runs := s.runs[ticket := Progress(payload, oracles, InitialState(ticket, payload), 0, None, false)])
    case ExecuteNode(ticket) =>
      s.(runs := s.runs[ticket := Advance(s.runs[ticket])], enqueued := s.enqueued + Enqueues(s.runs[ticket]))
    case SaveCheckpoint(ticket, delivery) =>
      var p := s.runs[ticket];
      var Save(stage, snapshot) := p.pending.value;
      s.(runs := s.runs[ticket := p.(pending := None)],
         store := if delivery.Applied() then SetEx(s.store, ticket, Checkpoint(stage, snapshot, s.now), s.now, s.ttl)
                  else s.store)
    case RaiseError(ticket) => End(s, ticket)
    case Crash(ticket) => End(s, ticket)
  }

  ghost predicate IsRun(ttl: nat, es: seq<Event>)
    decreases |es|, 0
  {
    es == [] || (IsRun(ttl, es[..|es| - 1]) && Enabled(Run(ttl, es[..|es| - 1]), es[|es| - 1]))
  }

  ghost function Run(ttl: nat, es: seq<Event>): (s: State)
    requires IsRun(ttl, es)
    ensures s.ttl == ttl
    decreases |es|, 1
  {
    if es == [] then Init(ttl) else Apply(Run(ttl, es[..|es| - 1]), es[|es| - 1])
  }

  // ---- The invariant ----

  /** The update that the node of `stage` made in this run. */
  ghost function SnapshotOf(ticket: TicketId, p: Progress, stage: Stage): Update {
    var n := NodeIndex(stage);
    NodeUpdate(ORDER[n], StateAfter(InitialState(ticket, p.payload), p.oracles, n), p.oracles)
  }

  /** How many nodes have returned from their wrapper. */
  ghost function Returned(p: Progress): int {
    if p.pending.Some? then p.done - 1 else p.done
  }

  /** A save under way is that of the node just executed. */
  ghost predicate SaveInPlace(p: Progress) {
    p.done <= Reach(p.oracles) && (p.pending.Some? ==> NodeIndex(p.pending.value.stage) == p.done - 1)
  }

  ghost predicate RunOk(ticket: TicketId, p: Progress) {
    && SaveInPlace(p)
    && p.state == StateAfter(InitialState(ticket, p.payload), p.oracles, p.done)
    && (p.pending.Some? ==> p.pending.value.snapshot == SnapshotOf(ticket, p, p.pending.value.stage))
  }

  ghost predicate CheckpointOk(ticket: TicketId, entry: Entry<Checkpoint>, p: Progress, now: nat, ttl: nat) {
    var c := entry.value;
    && NodeIndex(c.stage) < Returned(p)
    && c.snapshot == SnapshotOf(ticket, p, c.stage)
    && c.savedAt <= now && entry.expiry == c.savedAt + ttl
  }

  /** The attempts made for one ticket. */
  ghost function ItemsFor(items: seq<ReviewItem>, ticket: TicketId): seq<ReviewItem> {
    if items == [] then []
    else
      var last := items[|items| - 1];
      ItemsFor(items[..|items| - 1], ticket) + if last.ticketId == ticket then [last] else []
  }

  /** The attempts a run should have made. */
  ghost function Due(runs: map<TicketId, Progress>, ticket: TicketId): seq<ReviewItem> {
    if && ticket in runs && runs[ticket].done == |ORDER|
       && GetOr(runs[ticket].state.requiresHumanReview, false)
    then [ReviewItemOf(runs[ticket].state)] else []
  }

  ghost predicate RunsOk(runs: map<TicketId, Progress>) {
    forall t :: t in runs ==> RunOk(t, runs[t])
  }

  ghost predicate StoreOk(store: Store<TicketId, Checkpoint>, runs: map<TicketId, Progress>, now: nat, ttl: nat) {
    forall t :: t in store ==> t in runs && CheckpointOk(t, store[t], runs[t], now, ttl)
  }

  ghost predicate QueueOk(items: seq<ReviewItem>, runs: map<TicketId, Progress>) {
    forall t :: ItemsFor(items, t) == Due(runs, t)
  }

  ghost predicate Inv(s: State) {
    RunsOk(s.runs) && StoreOk(s.store, s.runs, s.now, s.ttl) && QueueOk(s.enqueued, s.runs)
  }

  lemma AdvanceKeepsRun(ticket: TicketId, p: Progress)
    requires RunOk(ticket, p) && p.done < |ORDER| && p.pending.None? && !NodeRaises(ORDER[p.done], p.oracles)
    ensures RunOk(ticket, Advance(p))
  {
    match StageOf(ORDER[p.done])
    case Some(stage) =>
      assert NodeIndex(stage) == p.done;
    case None =>
  }

  lemma StepKeepsRuns(s: State, e: Event)
    requires RunsOk(s.runs) && Enabled(s, e)
    ensures RunsOk(Apply(s, e).runs)
  {
    if e.ExecuteNode? {
      AdvanceKeepsRun(e.ticket, s.runs[e.ticket]);
    }
  }

  /** A run that goes on, or merely waits, leaves what its checkpoint says true. */
  ghost predicate GoesOn(p: Progress, p': Progress) {
    && p'.payload == p.payload && p'.oracles == p.oracles
    && (p' == p || (p.pending.None? && p'.done == p.done + 1)
        || (p.pending.Some? && p'.pending.None? && p'.done == p.done)
        || (p'.pending == p.pending && p'.done == p.done))
  }

  lemma RunsGoOn(s: State, e: Event, t: TicketId)
    requires Enabled(s, e) && t in s.runs
    ensures t in Apply(s, e).runs && GoesOn(s.runs[t], Apply(s, e).runs[t]) && s.now <= Apply(s, e).now
  {}

  lemma CheckpointStays(t: TicketId, entry: Entry<Checkpoint>, p: Progress, p': Progress, now: nat, now': nat, ttl: nat)
    requires CheckpointOk(t, entry, p, now, ttl) && GoesOn(p, p') && now <= now'
    ensures CheckpointOk(t, entry, p', now', ttl)
  {}

  lemma SavedCheckpointIsOk(s: State, t: TicketId, delivery: Delivery)
    requires Enabled(s, SaveCheckpoint(t, delivery)) && delivery.Applied() && RunOk(t, s.runs[t])
    ensures var s' := Apply(s, SaveCheckpoint(t, delivery));
            t in s'.store && t in s'.runs && CheckpointOk(t, s'.store[t], s'.runs[t], s'.now, s'.ttl)
  {}

  lemma StepKeepsStore(s: State, e: Event)
    requires RunsOk(s.runs) && StoreOk(s.store, s.runs, s.now, s.ttl) && Enabled(s, e)
    ensures StoreOk(Apply(s, e).store, Apply(s, e).runs, Apply(s, e).now, Apply(s, e).ttl)
  {
    var s' := Apply(s, e);
    forall t | t in s'.store ensures t in s'.runs && CheckpointOk(t, s'.store[t], s'.runs[t], s'.now, s'.ttl) {
      if e.SaveCheckpoint? && e.ticket == t && e.delivery.Applied() {
        SavedCheckpointIsOk(s, t, e.delivery);
      } else {
        RunsGoOn(s, e, t);
        CheckpointStays(t, s.store[t], s.runs[t], s'.runs[t], s.now, s'.now, s.ttl);
      }
    }
  }

  lemma ItemsForOneMore(items: seq<ReviewItem>, item: ReviewItem, ticket: TicketId)
    ensures ItemsFor(items + [item], ticket) == ItemsFor(items, ticket) + if item.ticketId == ticket then [item] else []
  {
    assert (items + [item])[..|items|] == items;
  }

  /** A node leaves the ticket's own fields alone. */
  lemma {:induction false} StateAfterKeepsInput(initial: WorkflowState, o: Oracles, n: nat)
    requires n <= |ORDER|
    ensures var s := StateAfter(initial, o, n);
            s.ticketId == initial.ticketId && s.customerId == initial.customerId && s.ticketText == initial.ticketText
  {
    if n > 0 {
      StateAfterKeepsInput(initial, o, n - 1);
    }
  }

  /** The last node decides nothing: the attempt it makes is the one due in its result. */
  lemma AdvanceMeetsDue(ticket: TicketId, p: Progress)
    requires RunOk(ticket, p) && p.done < |ORDER|
    ensures Enqueues(p) == Due(map[ticket := Advance(p)], ticket)
    ensures Enqueues(p) != [] ==> Enqueues(p)[0].ticketId == ticket
  {
    StateAfterKeepsInput(InitialState(ticket, p.payload), p.oracles, p.done);
  }

  lemma AdvanceKeepsQueue(items: seq<ReviewItem>, runs: map<TicketId, Progress>, ticket: TicketId, t: TicketId)
    requires ticket in runs && RunOk(ticket, runs[ticket]) && runs[ticket].done < |ORDER|
    requires ItemsFor(items, t) == Due(runs, t)
    ensures ItemsFor(items + Enqueues(runs[ticket]), t) == Due(runs[ticket := Advance(runs[ticket])], t)
  {
    var p := runs[ticket];
    AdvanceMeetsDue(ticket, p);
    if Enqueues(p) == [] {
      assert items + Enqueues(p) == items;
    } else {
      ItemsForOneMore(items, Enqueues(p)[0], t);
      assert Enqueues(p) == [Enqueues(p)[0]];
    }
  }

  lemma StepKeepsQueue(s: State, e: Event)
    requires RunsOk(s.runs) && QueueOk(s.enqueued, s.runs) && Enabled(s, e)
    ensures QueueOk(Apply(s, e).enqueued, Apply(s, e).runs)
  {
    var s' := Apply(s, e);
    forall t ensures ItemsFor(s'.enqueued, t) == Due(s'.runs, t) {
      assert ItemsFor(s.enqueued, t) == Due(s.runs, t);
      if e.ExecuteNode? {
        AdvanceKeepsQueue(s.enqueued, s.runs, e.ticket, t);
      }
    }
  }

  lemma {:induction false} RunKeepsInv(ttl: nat, es: seq<Event>)
    requires IsRun(ttl, es)
    ensures Inv(Run(ttl, es))
  {
    if es != [] {
      var s, e := Run(ttl, es[..|es| - 1]), es[|es| - 1];
      RunKeepsInv(ttl, es[..|es| - 1]);
      StepKeepsRuns(s, e);
      StepKeepsStore(s, e);
      StepKeepsQueue(s, e);
    }
  }
}
