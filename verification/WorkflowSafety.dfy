/**
 What the workflow promises in every run: what a checkpoint says, that checkpoints never
 disturb the workflow, and which tickets reach a supervisor.
 */
module WorkflowSafety {
  import opened Options
  import opened TtlStore
  import opened WorkflowStates
  import opened PolicyRules
  import opened Agents
  import opened Workflow
  import opened WorkflowRuns

  // ---- Checkpoints ----

  /** Nodes write different fields, so what one of them wrote is still there after the later ones. */
  lemma {:induction false} UpdateStays(initial: WorkflowState, o: Oracles, i: nat, n: nat)
    requires i < n <= |ORDER| && StageOf(ORDER[i]).Some?
    ensures var s := StateAfter(initial, o, n);
            Merge(s, NodeUpdate(ORDER[i], StateAfter(initial, o, i), o)) == s
  {
    if n > i + 1 {
      UpdateStays(initial, o, i, n - 1);
      var s := StateAfter(initial, o, n - 1);
      NodesWriteDifferentFields(ORDER[i], StateAfter(initial, o, i), ORDER[n - 1], s, o);
      MergeKeeps(s, NodeUpdate(ORDER[i], StateAfter(initial, o, i), o), NodeUpdate(ORDER[n - 1], s, o));
    }
  }

  lemma NodesWriteDifferentFields(a: Node, sa: WorkflowState, b: Node, sb: WorkflowState, o: Oracles)
    requires a != b && StageOf(a).Some?
    ensures WriteDifferentFields(NodeUpdate(a, sa, o), NodeUpdate(b, sb, o))
  {}

  predicate WriteDifferentFields(u: Update, v: Update) {
    && (u.category.None? || v.category.None?)
    && (u.selectedAgent.None? || v.selectedAgent.None?)
    && (u.retrievedContext.None? || v.retrievedContext.None?)
    && (u.draftResponse.None? || v.draftResponse.None?)
    && (u.agentUnresolved.None? || v.agentUnresolved.None?)
    && (u.confidenceScore.None? || v.confidenceScore.None?)
    && (u.requiresHumanReview.None? || v.requiresHumanReview.None?)
    && (u.matchedPolicyRules.None? || v.matchedPolicyRules.None?)
    && (u.workflowStatus.None? || v.workflowStatus.None?)
  }

  lemma MergeKeeps(s: WorkflowState, u: Update, v: Update)
    requires Merge(s, u) == s && WriteDifferentFields(u, v)
    ensures Merge(Merge(s, v), u) == Merge(s, v)
  {}

  /**
   At every moment of every run, a stored checkpoint names a stage whose node the run has
   completed, holds that node's own update, which no later node has overwritten, and expires
   one TTL after it was saved.
   */
  lemma CheckpointsNameCompletedStages(ttl: nat, es: seq<Event>, t: TicketId)
    requires IsRun(ttl, es) && t in Run(ttl, es).store
    ensures var s := Run(ttl, es);
            var c := s.store[t].value;
            && t in s.runs && NodeIndex(c.stage) < Returned(s.runs[t]) <= s.runs[t].done
            && c.snapshot == SnapshotOf(t, s.runs[t], c.stage)
            && Merge(s.runs[t].state, c.snapshot) == s.runs[t].state
            && s.store[t].expiry == c.savedAt + ttl && c.savedAt <= s.now
  {
    RunKeepsInv(ttl, es);
    var s := Run(ttl, es);
    assert CheckpointOk(t, s.store[t], s.runs[t], s.now, s.ttl);
    var p := s.runs[t];
    assert RunOk(t, p);
    UpdateStays(InitialState(t, p.payload), p.oracles, NodeIndex(s.store[t].value.stage), p.done);
  }

  /** The last stage among the first `n` nodes. */
  function StageReached(n: int): Option<Stage> {
    if n <= 1 then None
    else if n == 2 then Some(Classification)
    else if n == 3 then Some(AgentSelection)
    else if n == 4 then Some(SpecialistExecution)
    else Some(Stage.PolicyEvaluation)
  }

  ghost predicate NoLostSaves(es: seq<Event>, t: TicketId) {
    forall i :: 0 <= i < |es| && es[i].SaveCheckpoint? && es[i].ticket == t ==> es[i].delivery.Applied()
  }

  function StoredStage(store: Store<TicketId, Checkpoint>, t: TicketId): Option<Stage> {
    if t in store then Some(store[t].value.stage) else None
  }

  /** The store holds exactly the last stage whose wrapper has returned. */
  ghost predicate UpToDate(store: Store<TicketId, Checkpoint>, runs: map<TicketId, Progress>, t: TicketId) {
    StoredStage(store, t) == if t in runs then StageReached(Returned(runs[t])) else None
  }

  lemma AdvanceReachesNothingYet(p: Progress)
    requires SaveInPlace(p) && p.done < |ORDER| && p.pending.None?
    ensures StageReached(Returned(Advance(p))) == StageReached(Returned(p))
  {}

  lemma SaveReachesItsStage(p: Progress)
    requires SaveInPlace(p) && p.pending.Some?
    ensures StageReached(p.done) == Some(p.pending.value.stage)
  {}

  lemma StepKeepsUpToDate(s: State, e: Event, t: TicketId)
    requires Enabled(s, e) && UpToDate(s.store, s.runs, t) && (t in s.runs ==> SaveInPlace(s.runs[t]))
    requires e.SaveCheckpoint? && e.ticket == t ==> e.delivery.Applied()
    ensures UpToDate(Apply(s, e).store, Apply(s, e).runs, t)
  {
    if t in s.runs {
      if e == ExecuteNode(t) {
        AdvanceReachesNothingYet(s.runs[t]);
      } else if e.SaveCheckpoint? && e.ticket == t {
        SaveReachesItsStage(s.runs[t]);
      }
    }
  }

  lemma {:induction false} RunStaysUpToDate(ttl: nat, es: seq<Event>, t: TicketId)
    requires IsRun(ttl, es) && NoLostSaves(es, t)
    ensures UpToDate(Run(ttl, es).store, Run(ttl, es).runs, t)
  {
    if es != [] {
      var front := es[..|es| - 1];
      assert NoLostSaves(front, t);
      RunStaysUpToDate(ttl, front, t);
      RunKeepsInv(ttl, front);
      assert t in Run(ttl, front).runs ==> RunOk(t, Run(ttl, front).runs[t]);
      StepKeepsUpToDate(Run(ttl, front), es[|es| - 1], t);
    }
  }

  /**
   If no save for a ticket is lost and its checkpoint has not expired, then at every moment,
   also after a crash, reading the checkpoint gives the last stage the run has completed, or the
   stage before it while the save of the last one is still under way.
   */
  lemma CheckpointLagsByAtMostThePendingSave(ttl: nat, es: seq<Event>, t: TicketId)
    requires IsRun(ttl, es) && NoLostSaves(es, t) && t in Run(ttl, es).runs
    requires var s := Run(ttl, es); t in s.store ==> s.now < s.store[t].value.savedAt + ttl
    ensures var s := Run(ttl, es);
            var p := s.runs[t];
            var read := Lookup(s.store, t, s.now);
            && (read.None? <==> StageReached(Returned(p)).None?)
            && (read.Some? ==> StageReached(Returned(p)) == Some(read.value.stage))
            && (p.pending.None? ==> StageReached(Returned(p)) == StageReached(p.done))
            && (p.pending.Some? ==> StageReached(p.done) == Some(p.pending.value.stage) && Returned(p) == p.done - 1)
  {
    RunStaysUpToDate(ttl, es, t);
    RunKeepsInv(ttl, es);
    var s := Run(ttl, es);
    assert SaveInPlace(s.runs[t]) by {
      assert RunOk(t, s.runs[t]);
    }
    if t in s.store {
      assert CheckpointOk(t, s.store[t], s.runs[t], s.now, s.ttl);
    }
    if s.runs[t].pending.Some? {
      SaveReachesItsStage(s.runs[t]);
    }
  }

  lemma OnlySavesWrite(s: State, e: Event, t: TicketId)
    requires Enabled(s, e) && !(e.SaveCheckpoint? && e.ticket == t && e.delivery.Applied()) && t in s.store
    ensures t in Apply(s, e).store && Apply(s, e).store[t] == s.store[t]
  {}

  lemma StepAdvancesStage(s: State, e: Event, t: TicketId)
    requires Inv(s) && Enabled(s, e) && t in s.store
    ensures var s' := Apply(s, e);
            t in s'.store && NodeIndex(s.store[t].value.stage) <= NodeIndex(s'.store[t].value.stage)
  {
    if e.SaveCheckpoint? && e.ticket == t && e.delivery.Applied() {
      assert CheckpointOk(t, s.store[t], s.runs[t], s.now, s.ttl);
      assert RunOk(t, s.runs[t]);
    } else {
      OnlySavesWrite(s, e, t);
    }
  }

  /** Stored stages only move forward in the order of the graph. */
  lemma {:induction false} StagesOnlyAdvance(ttl: nat, es: seq<Event>, n: nat, t: TicketId)
    requires IsRun(ttl, es) && n <= |es|
    ensures IsRun(ttl, es[..n])
    ensures var before, after := Run(ttl, es[..n]).store, Run(ttl, es).store;
            t in before ==> t in after && NodeIndex(before[t].value.stage) <= NodeIndex(after[t].value.stage)
    decreases |es|
  {
    if n == |es| {
      assert es[..n] == es;
    } else {
      var front := es[..|es| - 1];
      assert es[..n] == front[..n];
      StagesOnlyAdvance(ttl, front, n, t);
      RunKeepsInv(ttl, front);
      if t in Run(ttl, front).store {
        StepAdvancesStage(Run(ttl, front), es[|es| - 1], t);
      }
    }
  }

  // ---- Non-interference ----

  /** The same steps, with other fates for the saves. */
  ghost predicate SameButDeliveries(a: seq<Event>, b: seq<Event>) {
    && |a| == |b|
    && forall i :: 0 <= i < |a| ==>
         a[i] == b[i] || (a[i].SaveCheckpoint? && b[i].SaveCheckpoint? && a[i].ticket == b[i].ticket)
  }

  lemma StepsDoNotInterfere(sa: State, a: Event, sb: State, b: Event)
    requires sa.runs == sb.runs && sa.enqueued == sb.enqueued && Enabled(sa, a)
    requires a == b || (a.SaveCheckpoint? && b.SaveCheckpoint? && a.ticket == b.ticket)
    ensures Enabled(sb, b)
    ensures Apply(sa, a).runs == Apply(sb, b).runs && Apply(sa, a).enqueued == Apply(sb, b).enqueued
  {}

  /**
   Whatever becomes of the checkpoints, the same steps stay possible and lead to the same
   workflow states and the same review items.
   */
  lemma {:induction false} CheckpointsDoNotInterfere(ttl: nat, a: seq<Event>, b: seq<Event>)
    requires IsRun(ttl, a) && SameButDeliveries(a, b)
    ensures IsRun(ttl, b)
    ensures Run(ttl, a).runs == Run(ttl, b).runs && Run(ttl, a).enqueued == Run(ttl, b).enqueued
    decreases |a|
  {
    if a != [] {
      var frontA, frontB := a[..|a| - 1], b[..|b| - 1];
      assert forall i :: 0 <= i < |frontA| ==> frontA[i] == a[i] && frontB[i] == b[i];
      CheckpointsDoNotInterfere(ttl, frontA, frontB);
      StepsDoNotInterfere(Run(ttl, frontA), a[|a| - 1], Run(ttl, frontB), b[|b| - 1]);
    }
  }

  // ---- Escalation ----

  function UnresolvedBy(generation: Generation): bool {
    generation.Structured? ==> generation.unresolved
  }

  /** The rules that fire on a ticket, given what its agent did. */
  function RulesFor(text: string, o: Oracles): seq<string> {
    Firing(ALL_RULES, Signals(text, PLACEHOLDER_CONFIDENCE_SCORE, UnresolvedBy(o.generation)), o.fl)
  }

  function DraftOf(generation: Generation): string
    requires !generation.NotBuilt?
  {
    match generation
    case Raises(_) => FALLBACK_RESPONSE
    case Unstructured(text) => text
    case Structured(response, _) => response
  }

  /** The six nodes together, without the order in which they work. */
  function Outcome(initial: WorkflowState, o: Oracles): WorkflowState
    requires Answers(o)
  {
    var rules := RulesFor(initial.ticketText, o);
    initial.(
      category := o.category,
      selectedAgent := Some(AgentByCategory(o.category.value)),
      retrievedContext := Some(GetOr(o.lookup, "")),
      draftResponse := Some(DraftOf(o.generation)),
      agentUnresolved := Some(UnresolvedBy(o.generation)),
      confidenceScore := Some(PLACEHOLDER_CONFIDENCE_SCORE),
      requiresHumanReview := Some(rules != []),
      matchedPolicyRules := Some(rules),
      workflowStatus := Some(Completed))
  }

  lemma FirstNodes(initial: WorkflowState, o: Oracles)
    requires Answers(o)
    ensures StateAfter(initial, o, 3)
            == initial.(category := o.category, selectedAgent := Some(AgentByCategory(o.category.value)))
  {
    assert StateAfter(initial, o, 0) == initial;
    assert StateAfter(initial, o, 1) == initial;
    assert StateAfter(initial, o, 2) == initial.(category := o.category);
  }

  lemma LastNodes(initial: WorkflowState, o: Oracles)
    requires Answers(o)
    ensures StateAfter(initial, o, |ORDER|) == Outcome(initial, o)
  {
    FirstNodes(initial, o);
    var s := StateAfter(initial, o, 4);
    assert s == StateAfter(initial, o, 3).(
                  retrievedContext := Some(GetOr(o.lookup, "")),
                  draftResponse := Some(DraftOf(o.generation)),
                  agentUnresolved := Some(UnresolvedBy(o.generation)));
    assert StateAfter(initial, o, 5) == Merge(s, NodeUpdate(ConfidenceEvaluation, s, o));
  }

  lemma UnresolvedFires(text: string, o: Oracles)
    ensures UNRESOLVED_RULE in RulesFor(text, o) <==> UnresolvedBy(o.generation)
  {
    assert ALL_RULES[|ALL_RULES| - 1] == UNRESOLVED_RULE;
    assert UNRESOLVED_RULE in ALL_RULES;
    assert UNRESOLVED_RULE != OVER_THRESHOLD_RULE && UNRESOLVED_RULE != LOW_CONFIDENCE_RULE;
  }

  /**
   For every finished ticket in every run, whatever the classifier and the agent did: review is
   required exactly when some rule is listed; a generation that failed, was malformed or gave up
   always requires review; and exactly one review item was attempted if review is required, none
   otherwise, with the draft, the agent and the rules of the response.
   */
  lemma EscalationEndToEnd(ttl: nat, es: seq<Event>, t: TicketId, createdAt: string)
    requires IsRun(ttl, es) && t in Run(ttl, es).runs && Run(ttl, es).runs[t].done == |ORDER|
    ensures var s := Run(ttl, es);
            var p := s.runs[t];
            var r := BuildResponse(p.state, createdAt);
            var items := ItemsFor(s.enqueued, t);
            && Answers(p.oracles)
            && r.ticketId == t && r.customerId == p.payload.customerId && r.createdAt == createdAt
            && r.category == CategoryValue(p.oracles.category.value)
            && r.selectedAgent == r.category + "_agent" && !r.idempotentReplay
            && r.draftResponse == DraftOf(p.oracles.generation)
            && r.matchedPolicyRules == RulesFor(TicketText(p.payload), p.oracles)
            && (r.requiresHumanReview <==> r.matchedPolicyRules != [])
            && (UnresolvedBy(p.oracles.generation) ==> r.requiresHumanReview && UNRESOLVED_RULE in r.matchedPolicyRules)
            && |items| == (if r.requiresHumanReview then 1 else 0)
            && (r.requiresHumanReview ==>
                  && items[0].ticketId == r.ticketId && items[0].draftResponse == r.draftResponse
                  && items[0].selectedAgent == r.selectedAgent
                  && items[0].matchedPolicyRules == r.matchedPolicyRules
                  && items[0].retrievedContext == Some(GetOr(p.oracles.lookup, "")))
  {
    RunKeepsInv(ttl, es);
    var s := Run(ttl, es);
    var p := s.runs[t];
    assert RunOk(t, p);
    assert ItemsFor(s.enqueued, t) == Due(s.runs, t);
    LastNodes(InitialState(t, p.payload), p.oracles);
    AgentBearsCategoryName(p.oracles.category.value);
    UnresolvedFires(TicketText(p.payload), p.oracles);
  }

  /** Before its last node has run, a ticket has attempted no review item. */
  lemma NoItemBeforeTheEnd(ttl: nat, es: seq<Event>, t: TicketId)
    requires IsRun(ttl, es) && (t in Run(ttl, es).runs ==> Run(ttl, es).runs[t].done < |ORDER|)
    ensures ItemsFor(Run(ttl, es).enqueued, t) == []
  {
    RunKeepsInv(ttl, es);
    var s := Run(ttl, es);
    assert ItemsFor(s.enqueued, t) == Due(s.runs, t);
  }

  lemma {:induction false} PolicyComesLate(initial: WorkflowState, o: Oracles, n: nat)
    requires n <= 4 && n <= |ORDER|
    ensures var s := StateAfter(initial, o, n);
            && s.requiresHumanReview == initial.requiresHumanReview
            && s.matchedPolicyRules == initial.matchedPolicyRules
            && s.workflowStatus == initial.workflowStatus
  {
    if n > 0 {
      PolicyComesLate(initial, o, n - 1);
    }
  }

  /**
   A ticket whose classifier raises or whose agent cannot be built never reaches the policy: in
   every run its flag and its rules are never set, it is never completed, and no review item is
   ever attempted for it.
   */
  lemma RaisingTicketsAreNeverEscalated(ttl: nat, es: seq<Event>, t: TicketId)
    requires IsRun(ttl, es) && t in Run(ttl, es).runs && !Answers(Run(ttl, es).runs[t].oracles)
    ensures var s := Run(ttl, es);
            && s.runs[t].state.requiresHumanReview.None? && s.runs[t].state.matchedPolicyRules.None?
            && s.runs[t].state.workflowStatus == Some(Pending) && s.runs[t].done < |ORDER|
            && ItemsFor(s.enqueued, t) == []
  {
    RunKeepsInv(ttl, es);
    var p := Run(ttl, es).runs[t];
    assert RunOk(t, p);
    PolicyComesLate(InitialState(t, p.payload), p.oracles, p.done);
    NoItemBeforeTheEnd(ttl, es, t);
  }

  /**
   At every moment of every run, a live ticket that is about to begin a node raises there exactly
   when it has come as far as its classifier and its agent let it.
   */
  lemma RaisesExactlyAtItsReach(ttl: nat, es: seq<Event>, t: TicketId)
    requires IsRun(ttl, es) && AtNode(Run(ttl, es), t)
    ensures var s := Run(ttl, es);
            && (Enabled(s, RaiseError(t)) <==> s.runs[t].done == Reach(s.runs[t].oracles))
            && (Enabled(s, ExecuteNode(t)) <==> s.runs[t].done < Reach(s.runs[t].oracles))
  {
    RunKeepsInv(ttl, es);
    assert RunOk(t, Run(ttl, es).runs[t]);
  }

  /** Every rule that the subject or the description fires on its own is listed in the response. */
  lemma SubjectAndDescriptionBothCount(p: Payload, o: Oracles, rule: string)
    requires Monotone(o.fl) && (rule in RulesFor(p.subject, o) || rule in RulesFor(p.description, o))
    ensures rule in RulesFor(TicketText(p), o)
  {
    var head := p.subject + "\n\n";
    JoinedTextKeepsBothPartsRules(p.subject, "\n\n", PLACEHOLDER_CONFIDENCE_SCORE, UnresolvedBy(o.generation), o.fl);
    JoinedTextKeepsBothPartsRules(head, p.description, PLACEHOLDER_CONFIDENCE_SCORE, UnresolvedBy(o.generation), o.fl);
  }
}
