/**
 `backend/graph/checkpoint.py`, the wrapper and the last node of `backend/graph/nodes.py`, and
 the invocation of the compiled graph, in the form of the source. Other tickets' runs take
 their steps in between; what one invocation does is a run of `WorkflowRuns`.
 */
module WorkflowExecution {
  import opened Options
  import opened TtlStore
  import opened WorkflowStates
  import opened Workflow
  import opened WorkflowRuns
  import opened WorkflowSafety
  import ApprovalQueue
  import ApprovalRepository

  predicate Concerns(e: Event, ticket: TicketId) {
    !e.Tick? && e.ticket == ticket
  }

  class World {
    const ttl: nat
    var state: State
    ghost var trace: seq<Event>

    ghost predicate Valid()
      reads this
    {
      IsRun(ttl, trace) && state == Run(ttl, trace)
    }

    constructor (ttl: nat)
      ensures Valid() && this.ttl == ttl && trace == []
    {
      this.ttl := ttl;
      state := Init(ttl);
      trace := [];
    }

    method Do(e: Event)
      requires Valid() && Enabled(state, e)
      modifies this
      ensures Valid() && state == Apply(old(state), e) && trace == old(trace) + [e]
    {
      assert (trace + [e])[..|trace|] == trace;
      state := Apply(state, e);
      trace := trace + [e];
    }

    /** Time passes, and other tickets' runs take any number of steps. */
    method Interleave(ticket: TicketId)
      requires Valid() && ticket in state.runs
      modifies this
      ensures Valid() && old(trace) <= trace
      ensures ticket in state.runs && state.runs[ticket] == old(state).runs[ticket]
    {
      var steps: nat := *;
      while steps > 0
        invariant Valid() && old(trace) <= trace
        invariant ticket in state.runs && state.runs[ticket] == old(state).runs[ticket]
      {
        var e: Event := *;
        if Enabled(state, e) && !Concerns(e, ticket) {
          Do(e);
        }
        steps := steps - 1;
      }
    }
  }

  class WorkflowCheckpointStore {
    const world: World

    constructor (world: World)
      ensures this.world == world
    {
      this.world := world;
    }

    /** `save`, for a wrapper whose node has just returned `snapshot`. It raises only if it is cut off. */
    method Save(ticket: TicketId, stage: Stage, snapshot: Update, delivery: Delivery) returns (raised: bool)
      requires world.Valid() && Active(world.state, ticket)
      requires world.state.runs[ticket].pending == Some(WorkflowRuns.Save(stage, snapshot))
      modifies world
      ensures world.Valid() && world.trace == old(world.trace) + [SaveCheckpoint(ticket, delivery)]
      ensures raised <==> delivery.Cut()
      ensures ticket in world.state.runs && world.state.runs[ticket] == old(world.state).runs[ticket].(pending := None)
      ensures world.state.now == old(world.state).now
      ensures world.state.store
           == if delivery.Applied()
              then SetEx(old(world.state).store, ticket, Checkpoint(stage, snapshot, world.state.now),
                         world.state.now, world.ttl)
              else old(world.state).store
    {
      world.Do(SaveCheckpoint(ticket, delivery));
      raised := delivery.Cut();
    }

    /**
     `get_latest`: nothing when Redis fails, otherwise exactly the live checkpoint, if there is one;
     and that names a stage the run has completed, with what its node returned. It raises only if
     it is cut off.
     */
    method GetLatest(ticket: TicketId, delivery: Delivery) returns (latest: Option<Checkpoint>, raised: bool)
      requires world.Valid()
      ensures raised <==> delivery.Cut()
      ensures delivery.Raised() ==> latest == None
      ensures !delivery.Raised() && Live(world.state.store, ticket, world.state.now) ==>
                latest == Some(world.state.store[ticket].value)
      ensures latest.Some? ==>
                && ticket in world.state.runs
                && NodeIndex(latest.value.stage) < world.state.runs[ticket].done
                && latest.value.snapshot == SnapshotOf(ticket, world.state.runs[ticket], latest.value.stage)
                && Merge(world.state.runs[ticket].state, latest.value.snapshot) == world.state.runs[ticket].state
                && latest.value.savedAt <= world.state.now < latest.value.savedAt + world.ttl
    {
      raised := delivery.Cut();
      if delivery.Raised() {
        return None, raised;
      }
      latest := Lookup(world.state.store, ticket, world.state.now);
      if latest.Some? {
        CheckpointsNameCompletedStages(world.ttl, world.trace, ticket);
      }
    }
  }

  /** The run of `ticket` is alive, between two nodes, and in state `s`. */
  ghost predicate Between(world: World, ticket: TicketId, payload: Payload, s: WorkflowState, o: Oracles, n: nat)
    reads world
  {
    && world.Valid() && ticket in world.state.runs
    && world.state.runs[ticket] == Progress(payload, o, s, n, None, false)
  }

  /** The run of `ticket` ended at the node at place `n`, which raised. */
  ghost predicate RaisedAt(world: World, ticket: TicketId, payload: Payload, s: WorkflowState, o: Oracles, n: nat)
    reads world
  {
    && world.Valid() && ticket in world.state.runs
    && world.state.runs[ticket] == Progress(payload, o, s, n, None, true)
  }

  /**
   A node in its wrapper: its update comes back unchanged whatever becomes of the checkpoint, and
   its error, if it raises, comes back as well, with nothing saved. None stands for raising.
   */
  method RunCheckpointed(world: World, store: WorkflowCheckpointStore, ticket: TicketId, node: Node,
                         ghost payload: Payload, s: WorkflowState, o: Oracles, ghost n: nat)
    returns (u: Option<Update>)
    requires store.world == world && n < |ORDER| && ORDER[n] == node && Between(world, ticket, payload, s, o, n)
    modifies world
    ensures u == if NodeRaises(node, o) then None else Some(NodeUpdate(node, s, o))
    ensures u.Some? ==> Between(world, ticket, payload, Merge(s, u.value), o, n + 1)
    ensures u.None? ==> RaisedAt(world, ticket, payload, s, o, n)
    ensures old(world.trace) <= world.trace
  {
    world.Interleave(ticket);
    if NodeRaises(node, o) {
      world.Do(RaiseError(ticket));
      return None;
    }
    var update: Update;
    if node.ConfidenceEvaluation? {
      update := EvaluateConfidence(s, o);
    } else {
      update := NodeUpdate(node, s, o);
    }
    world.Do(ExecuteNode(ticket));
    match StageOf(node) {
      case Some(stage) =>
        world.Interleave(ticket);
        var delivery: Delivery := *;
        var _ := store.Save(ticket, stage, update, delivery);
      case None =>
    }
    u := Some(update);
  }

  /**
   `persist_results_node`: one attempt at a review item when review is required, none otherwise.
   The attempt adds one request to the queue if its transaction commits; if not, nobody is told.
   `before` is what the others had done to the queue by then.
   */
  method PersistResults(s: WorkflowState, queue: ApprovalRepository.SupervisorQueue, commits: bool)
    returns (u: Update, attempts: seq<ReviewItem>, ghost before: seq<ApprovalQueue.Op>, ghost now: nat)
    requires queue.Valid()
    modifies queue, queue.repository, queue.repository.table
    ensures queue.Valid() && old(queue.history) <= before
    ensures u == NO_CHANGE.(workflowStatus := Some(Completed))
    ensures attempts == if GetOr(s.requiresHumanReview, false) then [ReviewItemOf(s)] else []
    ensures queue.history
         == if attempts != [] && commits then before + [ApprovalQueue.Create(attempts[0], now)] else before
  {
    attempts, now := [], 0;
    queue.Interleave();
    before := queue.history;
    if GetOr(s.requiresHumanReview, false) {
      attempts := [ReviewItemOf(s)];
      if commits {
        var at: nat := *;
        now := at;
        queue.Enqueue(attempts[0], at);
      }
    }
    u := NO_CHANGE.(workflowStatus := Some(Completed));
  }

  /** The queue has a creation with this content among the operations since the first `n`. */
  ghost predicate IsQueued(history: seq<ApprovalQueue.Op>, n: nat, item: ReviewItem) {
    exists i :: n <= i < |history| && history[i].Create? && history[i].item == item
  }

  /** Every attempt whose transaction commits reaches the queue. */
  ghost predicate AllQueued(history: seq<ApprovalQueue.Op>, n: nat, attempts: seq<ReviewItem>, commits: bool) {
    commits ==> forall k :: 0 <= k < |attempts| ==> IsQueued(history, n, attempts[k])
  }

  function ItemsOf(s: WorkflowState): seq<ReviewItem> {
    if GetOr(s.requiresHumanReview, false) then [ReviewItemOf(s)] else []
  }

  /** The last node, which has no wrapper. */
  method RunLast(world: World, queue: ApprovalRepository.SupervisorQueue, ticket: TicketId,
                 ghost payload: Payload, s: WorkflowState, o: Oracles, commits: bool)
    returns (u: Update, attempts: seq<ReviewItem>)
    requires Between(world, ticket, payload, s, o, |ORDER| - 1) && queue.Valid()
    modifies world, queue, queue.repository, queue.repository.table
    ensures u == NodeUpdate(Node.PersistResults, s, o) && attempts == ItemsOf(s)
    ensures Between(world, ticket, payload, Merge(s, u), o, |ORDER|) && old(world.trace) <= world.trace
    ensures queue.Valid() && old(queue.history) <= queue.history
    ensures AllQueued(queue.history, |old(queue.history)|, attempts, commits)
  {
    ghost var before, now;
    u, attempts, before, now := PersistResults(s, queue, commits);
    assert attempts != [] && commits ==> queue.history[|before|] == ApprovalQueue.Create(attempts[0], now);
    world.Interleave(ticket);
    world.Do(ExecuteNode(ticket));
  }

  /** The graph stands before the node at place `n`, or at its end. */
  predicate At(name: Name, n: nat) {
    n <= |ORDER| && name == if n < |ORDER| then NodeName(ORDER[n]) else END
  }

  lemma Follow(g: CompiledGraph, name: Name, n: nat)
    requires IsSupportWorkflow(g) && At(name, n) && name != END
    ensures n < |ORDER| && name in g.nodes && g.nodes[name] == ORDER[n] && name in g.next && At(g.next[name], n + 1)
    ensures ORDER[n] == Node.PersistResults <==> n == |ORDER| - 1
  {}

  /** One node of the graph in its place; None stands for raising. */
  method RunNodeAt(g: CompiledGraph, name: Name, world: World, store: WorkflowCheckpointStore,
                   queue: ApprovalRepository.SupervisorQueue, ticket: TicketId,
                   ghost payload: Payload, s: WorkflowState, o: Oracles, commits: bool, ghost n: nat)
    returns (s': Option<WorkflowState>, attempts: seq<ReviewItem>)
    requires n < |ORDER| && name in g.nodes && g.nodes[name] == ORDER[n]
    requires ORDER[n] == Node.PersistResults <==> n == |ORDER| - 1
    requires store.world == world && queue.Valid() && Between(world, ticket, payload, s, o, n)
    modifies world, queue, queue.repository, queue.repository.table
    ensures s'.None? <==> NodeRaises(ORDER[n], o)
    ensures s'.Some? ==> Between(world, ticket, payload, s'.value, o, n + 1)
    ensures s'.None? ==> RaisedAt(world, ticket, payload, s, o, n)
    ensures n < |ORDER| - 1 ==> attempts == [] && unchanged(queue, queue.repository)
    ensures n == |ORDER| - 1 && s'.Some? ==> attempts == ItemsOf(s'.value)
    ensures queue.Valid() && old(world.trace) <= world.trace && old(queue.history) <= queue.history
    ensures AllQueued(queue.history, |old(queue.history)|, attempts, commits)
  {
    var node := g.nodes[name];
    attempts := [];
    if node == Node.PersistResults {
      var u;
      u, attempts := RunLast(world, queue, ticket, payload, s, o, commits);
      s' := Some(Merge(s, u));
    } else {
      var u := RunCheckpointed(world, store, ticket, node, payload, s, o, n);
      s' := if u.Some? then Some(Merge(s, u.value)) else None;
    }
  }

  lemma FinishedRun(ttl: nat, es: seq<Event>, ticket: TicketId, p: Progress)
    requires IsRun(ttl, es) && ticket in Run(ttl, es).runs && Run(ttl, es).runs[ticket] == p && p.done == |ORDER|
    ensures Answers(p.oracles) && p.state == Outcome(InitialState(ticket, p.payload), p.oracles)
    ensures p.state.selectedAgent.Some?
    ensures AgentValue(p.state.selectedAgent.value) == CategoryValue(p.oracles.category.value) + "_agent"
    ensures ItemsFor(Run(ttl, es).enqueued, ticket) == ItemsOf(p.state)
  {
    RunKeepsInv(ttl, es);
    assert RunOk(ticket, p);
    LastNodes(InitialState(ticket, p.payload), p.oracles);
    AgentBearsCategoryName(p.oracles.category.value);
    assert ItemsFor(Run(ttl, es).enqueued, ticket) == Due(Run(ttl, es).runs, ticket);
  }

  lemma RaisedRun(ttl: nat, es: seq<Event>, ticket: TicketId, p: Progress)
    requires IsRun(ttl, es) && ticket in Run(ttl, es).runs && Run(ttl, es).runs[ticket] == p
    requires p.done < |ORDER| && NodeRaises(ORDER[p.done], p.oracles)
    ensures !Answers(p.oracles) && p.done == Reach(p.oracles)
    ensures p.state == StateAfter(InitialState(ticket, p.payload), p.oracles, p.done)
    ensures ItemsFor(Run(ttl, es).enqueued, ticket) == []
  {
    RunKeepsInv(ttl, es);
    assert RunOk(ticket, p);
    NoItemBeforeTheEnd(ttl, es, ticket);
  }

  /** How an invocation ends: with the outcome of all nodes, or raised at the first node that cannot return. */
  ghost predicate Ended(world: World, ticket: TicketId, payload: Payload, o: Oracles,
                        final: Option<WorkflowState>, attempts: seq<ReviewItem>)
    reads world
  {
    var initial := InitialState(ticket, payload);
    && (final.Some? <==> Answers(o))
    && (final.Some? ==>
          && final.value == Outcome(initial, o) && attempts == ItemsOf(final.value)
          && final.value.selectedAgent.Some?
          && AgentValue(final.value.selectedAgent.value) == CategoryValue(o.category.value) + "_agent"
          && Between(world, ticket, payload, final.value, o, |ORDER|))
    && (final.None? ==>
          attempts == [] && RaisedAt(world, ticket, payload, StateAfter(initial, o, Reach(o)), o, Reach(o)))
  }

  /**
   `get_graph().invoke(initial_state)`, following the edges of the compiled graph. Whatever
   happens to the checkpoints and whatever others do meanwhile, it returns exactly when the
   classifier answers and the agent can be built; the final state is then the one the outcome
   says; and the review item attempted is the one the run of the protocol records, which reaches
   the queue if its transaction commits. If it raises, the supervisor's queue is as it was.
   */
  method Invoke(g: CompiledGraph, world: World, store: WorkflowCheckpointStore,
                queue: ApprovalRepository.SupervisorQueue, ticket: TicketId, payload: Payload, o: Oracles,
                commits: bool)
    returns (final: Option<WorkflowState>, attempts: seq<ReviewItem>)
    requires IsSupportWorkflow(g) && store.world == world && world.Valid() && queue.Valid()
    requires ticket !in world.state.runs
    modifies world, queue, queue.repository, queue.repository.table
    ensures world.Valid() && queue.Valid() && old(world.trace) <= world.trace && old(queue.history) <= queue.history
    ensures Ended(world, ticket, payload, o, final, attempts)
    ensures ticket in world.state.runs && attempts == ItemsFor(world.state.enqueued, ticket)
    ensures final.None? ==> unchanged(queue, queue.repository)
    ensures AllQueued(queue.history, |old(queue.history)|, attempts, commits)
  {
    world.Do(Begin(ticket, payload, o));
    var s := InitialState(ticket, payload);
    attempts := [];
    var name := g.next[START];
    ghost var n := 0;
    while name != END
      invariant At(name, n) && Between(world, ticket, payload, s, o, n)
      invariant n < |ORDER| ==> attempts == [] && unchanged(queue, queue.repository)
      invariant n == |ORDER| ==> attempts == ItemsOf(s)
      invariant AllQueued(queue.history, |old(queue.history)|, attempts, commits)
      invariant queue.Valid() && old(queue.history) <= queue.history && old(world.trace) <= world.trace
      decreases |ORDER| - n
    {
      Follow(g, name, n);
      var s';
      s', attempts := RunNodeAt(g, name, world, store, queue, ticket, payload, s, o, commits, n);
      if s'.None? {
        RaisedRun(world.ttl, world.trace, ticket, Progress(payload, o, s, n, None, true));
        return None, attempts;
      }
      s := s'.value;
      name := g.next[name];
      n := n + 1;
    }
    FinishedRun(world.ttl, world.trace, ticket, Progress(payload, o, s, |ORDER|, None, false));
    final := Some(s);
  }
}
