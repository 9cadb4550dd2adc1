/**
 `backend/core/redis_client.py` and `backend/database/session.py`: one resource (a Redis
 client, a session factory) per event loop, built on first use and kept in a registry.

 Operations run on loops. Looking a resource up is synchronous code, so on one loop it is not
 interrupted by that loop's other operations, while other loops run in other threads.
 */
module LoopRegistry {
  type LoopId = nat
  type OperationId = nat
  type ResourceId = nat

  datatype Phase =
    | Resolving
    | Building
    | Registering(resource: ResourceId)
    | Using(resource: ResourceId)
    | Done

  datatype Operation = Operation(loop: LoopId, phase: Phase)

  /** `builtOn[x]` is the loop on which resource `x` was built; `inside[l]` the operation looking up on `l`. */
  datatype State = State(
    registry: map<LoopId, ResourceId>,
    builtOn: seq<LoopId>,
    operations: map<OperationId, Operation>,
    inside: map<LoopId, OperationId>,
    closed: set<LoopId>)

  datatype Event =
    | StartOperation(o: OperationId, loop: LoopId)
    | HandOver(o: OperationId, loop: LoopId, resource: ResourceId)
    | ReadRegistry(o: OperationId)
    | Build(o: OperationId)
    | Register(o: OperationId)
    | Finish(o: OperationId)
    | CloseLoop(loop: LoopId)
    | Collect(loop: LoopId)

  const INIT := State(map[], [], map[], map[], {})

  predicate InPhase(s: State, o: OperationId, phase: Phase) {
    o in s.operations && s.operations[o].phase == phase
  }

  predicate Enabled(s: State, e: Event) {
    match e
    case StartOperation(o, loop) => o !in s.operations && loop !in s.closed
    case HandOver(o, loop, resource) => o !in s.operations && loop !in s.closed && resource < |s.builtOn|
    case ReadRegistry(o) => InPhase(s, o, Resolving) && s.operations[o].loop !in s.inside
    case Build(o) => InPhase(s, o, Building)
    case Register(o) => o in s.operations && s.operations[o].phase.Registering?
    case Finish(o) => o in s.operations && s.operations[o].phase.Using?
    case CloseLoop(loop) => forall o | o in s.operations :: s.operations[o].loop == loop ==> s.operations[o].phase.Done?
    case Collect(loop) => loop in s.closed
  }

  function At(s: State, o: OperationId, phase: Phase): State
    requires o in s.operations
  {
    s.(operations := s.operations[o := s.operations[o].(phase := phase)])
  }

  function Apply(s: State, e: Event): State
    requires Enabled(s, e)
  {
    match e
    case StartOperation(o, loop) => s.(operations := s.operations[o := Operation(loop, Resolving)])
    case HandOver(o, loop, resource) => s.(operations := s.operations[o := Operation(loop, Using(resource))])
    case ReadRegistry(o) =>
      var loop := s.operations[o].loop;
      if loop in s.registry then At(s, o, Using(s.registry[loop]))
      else At(s, o, Building).(inside := s.inside[loop := o])
    case Build(o) => At(s, o, Registering(|s.builtOn|)).(builtOn := s.builtOn + [s.operations[o].loop])
    case Register(o) =>
      var Operation(loop, Registering(resource)) := s.operations[o];
      At(s, o, Using(resource)).(registry := s.registry[loop := resource], inside := s.inside - {loop})
    case Finish(o) => At(s, o, Done)
    case CloseLoop(loop) => s.(closed := s.closed + {loop})
    case Collect(loop) => s.(registry := s.registry - {loop})
  }

  ghost predicate IsRun(s: State, es: seq<Event>)
    decreases |es|, 0
  {
    es == [] || (IsRun(s, es[..|es| - 1]) && Enabled(Run(s, es[..|es| - 1]), es[|es| - 1]))
  }

  ghost function Run(s: State, es: seq<Event>): State
    requires IsRun(s, es)
    decreases |es|, 1
  {
    if es == [] then s else Apply(Run(s, es[..|es| - 1]), es[|es| - 1])
  }

  /** Every operation resolves its resource itself, on the loop it runs on. */
  ghost predicate ResolvesInside(es: seq<Event>) {
    forall i :: 0 <= i < |es| ==> !es[i].HandOver?
  }

  // ---- The invariant ----

  /** Resources are used only on the loop they were built on. */
  ghost predicate Affine(s: State) {
    forall o :: o in s.operations && s.operations[o].phase.Using? ==>
      s.operations[o].phase.resource < |s.builtOn|
      && s.builtOn[s.operations[o].phase.resource] == s.operations[o].loop
  }

  ghost predicate OperationOk(s: State, o: OperationId, op: Operation) {
    && (op.phase.Done? || op.loop !in s.closed)
    && match op.phase
       case Building => op.loop in s.inside && s.inside[op.loop] == o && op.loop !in s.registry
       case Registering(x) =>
         && op.loop in s.inside && s.inside[op.loop] == o && op.loop !in s.registry
         && x < |s.builtOn| && s.builtOn[x] == op.loop
       case Using(x) => op.loop in s.registry && s.registry[op.loop] == x
       case _ => true
  }

  ghost predicate Inv(s: State) {
    && (forall l :: l in s.registry ==> s.registry[l] < |s.builtOn| && s.builtOn[s.registry[l]] == l)
    && (forall o :: o in s.operations ==> OperationOk(s, o, s.operations[o]))
  }

  lemma StepKeepsInv(s: State, e: Event)
    requires Inv(s) && Enabled(s, e) && !e.HandOver?
    ensures Inv(Apply(s, e))
  {
    var s' := Apply(s, e);
    if e.Build? || e.Register? || e.ReadRegistry? || e.Finish? {
      assert OperationOk(s, e.o, s.operations[e.o]);
    }
    forall o | o in s'.operations ensures OperationOk(s', o, s'.operations[o]) {
      assert o in s.operations ==> OperationOk(s, o, s.operations[o]);
    }
  }

  lemma {:induction false} RunKeepsInv(s: State, es: seq<Event>)
    requires Inv(s) && IsRun(s, es) && ResolvesInside(es)
    ensures Inv(Run(s, es))
    decreases |es|
  {
    if es != [] {
      var front := es[..|es| - 1];
      assert ResolvesInside(front) && !es[|es| - 1].HandOver?;
      RunKeepsInv(s, front);
      StepKeepsInv(Run(s, front), es[|es| - 1]);
    }
  }

  /** Loop `l` has been closed, or `x` is registered for it. */
  predicate Keeps(s: State, l: LoopId, x: ResourceId) {
    l in s.closed || (l in s.registry && s.registry[l] == x)
  }

  lemma StepKeepsResource(s: State, e: Event, l: LoopId, x: ResourceId)
    requires Inv(s) && Enabled(s, e) && !e.HandOver? && Keeps(s, l, x)
    ensures Keeps(Apply(s, e), l, x)
  {
    if e.Register? {
      assert OperationOk(s, e.o, s.operations[e.o]);
    }
  }

  lemma {:induction false} RunKeepsResource(s: State, es: seq<Event>, l: LoopId, x: ResourceId)
    requires Inv(s) && IsRun(s, es) && ResolvesInside(es) && Keeps(s, l, x)
    ensures Keeps(Run(s, es), l, x)
    decreases |es|
  {
    if es != [] {
      var front := es[..|es| - 1];
      assert ResolvesInside(front) && !es[|es| - 1].HandOver?;
      RunKeepsResource(s, front, l, x);
      RunKeepsInv(s, front);
      StepKeepsResource(Run(s, front), es[|es| - 1], l, x);
    }
  }

  predicate Uses(s: State, o: OperationId, l: LoopId, x: ResourceId) {
    o in s.operations && s.operations[o] == Operation(l, Using(x))
  }

  /**
   When every operation resolves its resource itself, then in every run no resource is
   registered under two loops, every operation uses a resource built on its own loop, and all
   operations of one loop, at whatever two moments of the run, use one and the same resource.
   */
  lemma LoopAffinity(a: seq<Event>, b: seq<Event>, o1: OperationId, o2: OperationId, l: LoopId,
                     x1: ResourceId, x2: ResourceId)
    requires IsRun(INIT, a) && IsRun(Run(INIT, a), b) && ResolvesInside(a) && ResolvesInside(b)
    ensures var s := Run(INIT, a);
            && (forall l1, l2 :: l1 in s.registry && l2 in s.registry && s.registry[l1] == s.registry[l2] ==> l1 == l2)
            && Affine(s)
    ensures Uses(Run(INIT, a), o1, l, x1) && Uses(Run(Run(INIT, a), b), o2, l, x2) ==> x1 == x2
  {
    RunKeepsInv(INIT, a);
    var s := Run(INIT, a);
    InvIsAffine(s);
    RunKeepsInv(s, b);
    var s' := Run(s, b);
    if Uses(s, o1, l, x1) && Uses(s', o2, l, x2) {
      assert OperationOk(s, o1, s.operations[o1]) && OperationOk(s', o2, s'.operations[o2]);
      RunKeepsResource(s, b, l, x1);
    }
  }

  lemma InvIsAffine(s: State)
    requires Inv(s)
    ensures Affine(s)
    ensures forall l1, l2 :: l1 in s.registry && l2 in s.registry && s.registry[l1] == s.registry[l2] ==> l1 == l2
  {
    assert forall o :: o in s.operations ==> OperationOk(s, o, s.operations[o]);
  }

  // ---- When operations are handed resources ----

  /** What is registered, or about to be, for a loop was built on that loop. */
  ghost predicate BuiltInPlace(s: State) {
    && (forall l :: l in s.registry ==> s.registry[l] < |s.builtOn| && s.builtOn[s.registry[l]] == l)
    && (forall o :: o in s.operations && s.operations[o].phase.Registering? ==>
          && s.operations[o].phase.resource < |s.builtOn|
          && s.builtOn[s.operations[o].phase.resource] == s.operations[o].loop)
  }

  lemma StepBuildsInPlace(s: State, e: Event)
    requires BuiltInPlace(s) && Enabled(s, e)
    ensures BuiltInPlace(Apply(s, e))
  {}

  lemma {:induction false} RunBuildsInPlace(es: seq<Event>)
    requires IsRun(INIT, es)
    ensures BuiltInPlace(Run(INIT, es))
    decreases |es|
  {
    if es != [] {
      RunBuildsInPlace(es[..|es| - 1]);
      StepBuildsInPlace(Run(INIT, es[..|es| - 1]), es[|es| - 1]);
    }
  }

  /** An operation is handed a resource that was built on another loop. */
  predicate HandsOverForeign(s: State, e: Event) {
    e.HandOver? && e.resource < |s.builtOn| && s.builtOn[e.resource] != e.loop
  }

  lemma StepBreaksAffinityExactly(s: State, e: Event)
    requires BuiltInPlace(s) && Affine(s) && Enabled(s, e)
    ensures Affine(Apply(s, e)) <==> !HandsOverForeign(s, e)
  {
    var s' := Apply(s, e);
    if e.HandOver? {
      assert s'.operations[e.o] == Operation(e.loop, Using(e.resource));
    }
  }

  lemma {:induction false} PrefixIsRun(es: seq<Event>, n: nat)
    requires IsRun(INIT, es) && n <= |es|
    ensures IsRun(INIT, es[..n])
    decreases |es|
  {
    if n == |es| {
      assert es[..n] == es;
    } else {
      PrefixIsRun(es[..|es| - 1], n);
      assert es[..|es| - 1][..n] == es[..n];
    }
  }

  /** The state after the first `n` steps. */
  ghost function After(es: seq<Event>, n: nat): (s: State)
    requires IsRun(INIT, es) && n <= |es|
    ensures BuiltInPlace(s)
  {
    PrefixIsRun(es, n);
    RunBuildsInPlace(es[..n]);
    Run(INIT, es[..n])
  }

  ghost predicate Steps(s: State, e: Event, s': State) {
    Enabled(s, e) && s' == Apply(s, e)
  }

  lemma AfterStep(es: seq<Event>, n: nat)
    requires IsRun(INIT, es) && n < |es|
    ensures Steps(After(es, n), es[n], After(es, n + 1))
  {
    PrefixIsRun(es, n + 1);
    assert es[..n + 1][..n] == es[..n];
  }

  lemma {:induction false} AffineUntil(es: seq<Event>, n: nat)
    requires IsRun(INIT, es) && n <= |es|
    requires forall m: nat :: m < |es| ==> !HandsOverForeign(After(es, m), es[m])
    ensures Affine(After(es, n))
  {
    if n > 0 {
      AffineUntil(es, n - 1);
      AfterStep(es, n - 1);
      StepBreaksAffinityExactly(After(es, n - 1), es[n - 1]);
    }
  }

  /**
   In every run, whoever resolves resources, each resource is always used only on the loop it was
   built on if and only if no operation is ever handed a resource built on another loop.
   */
  lemma AffinityBreaksExactly(es: seq<Event>)
    requires IsRun(INIT, es)
    ensures (forall n: nat :: n <= |es| ==> Affine(After(es, n)))
       <==> (forall m: nat :: m < |es| ==> !HandsOverForeign(After(es, m), es[m]))
  {
    if forall n: nat :: n <= |es| ==> Affine(After(es, n)) {
      forall m: nat | m < |es| ensures !HandsOverForeign(After(es, m), es[m]) {
        AfterStep(es, m);
        assert Affine(After(es, m)) && Affine(After(es, m + 1));
        StepBreaksAffinityExactly(After(es, m), es[m]);
      }
    }
    if forall m: nat :: m < |es| ==> !HandsOverForeign(After(es, m), es[m]) {
      forall n: nat | n <= |es| ensures Affine(After(es, n)) {
        AffineUntil(es, n);
      }
    }
  }

  /** What can happen while an operation on `loop` is in its synchronous lookup. */
  predicate IsElsewhere(s: State, e: Event, loop: LoopId) {
    match e
    case StartOperation(_, _) => true
    case HandOver(_, _, _) => false
    case CloseLoop(l) => l != loop
    case Collect(l) => l != loop
    case _ => e.o in s.operations && s.operations[e.o].loop != loop
  }

  class Registry {
    var state: State
    ghost var trace: seq<Event>

    ghost predicate Valid()
      reads this
    {
      IsRun(INIT, trace) && ResolvesInside(trace) && state == Run(INIT, trace)
    }

    constructor ()
      ensures Valid() && trace == []
    {
      state := INIT;
      trace := [];
    }

    method Do(e: Event)
      requires Valid() && Enabled(state, e) && !e.HandOver?
      modifies this
      ensures Valid() && state == Apply(old(state), e) && trace == old(trace) + [e]
      ensures Inv(old(state)) && Inv(state)
    {
      RunKeepsInv(INIT, trace);
      StepKeepsInv(state, e);
      assert (trace + [e])[..|trace|] == trace;
      state := Apply(state, e);
      trace := trace + [e];
    }

    method Interleave(o: OperationId)
      requires Valid() && o in state.operations
      modifies this
      ensures Valid() && o in state.operations && state.operations[o] == old(state.operations[o])
      ensures var loop := state.operations[o].loop;
              && (loop in state.registry <==> loop in old(state.registry))
              && (loop in state.registry ==> state.registry[loop] == old(state.registry)[loop])
              && (loop in state.inside <==> loop in old(state.inside))
      ensures old(trace) <= trace
    {
      var loop := state.operations[o].loop;
      var steps: nat := *;
      while steps > 0
        invariant Valid() && o in state.operations && state.operations[o] == old(state.operations[o])
        invariant loop in state.registry <==> loop in old(state.registry)
        invariant loop in state.registry ==> state.registry[loop] == old(state.registry)[loop]
        invariant loop in state.inside <==> loop in old(state.inside)
        invariant old(trace) <= trace
      {
        var e: Event := *;
        if IsElsewhere(state, e, loop) && Enabled(state, e) {
          Do(e);
        }
        steps := steps - 1;
      }
    }

    /**
     `get_redis_client` and the lookup in `async_session_factory`, called by `o` while its loop
     runs it: the loop's resource, built and registered if there was none, the same from then on.
     */
    method GetOrCreate(o: OperationId) returns (resource: ResourceId)
      requires Valid() && InPhase(state, o, Resolving) && state.operations[o].loop !in state.inside
      modifies this
      ensures Valid() && old(trace) <= trace
      ensures o in state.operations && state.operations[o] == Operation(old(state.operations[o]).loop, Using(resource))
      ensures var loop := state.operations[o].loop;
              && loop in state.registry && state.registry[loop] == resource && loop !in state.inside
              && resource < |state.builtOn| && state.builtOn[resource] == loop
              && (loop in old(state.registry) ==> resource == old(state.registry)[loop])
    {
      Interleave(o);
      Do(ReadRegistry(o));
      if state.operations[o].phase.Building? {
        Interleave(o);
        Do(Build(o));
        Interleave(o);
        Do(Register(o));
      }
      assert OperationOk(state, o, state.operations[o]);
      resource := state.operations[o].phase.resource;
    }
  }
}
