/**
 `RedisCache` of `backend/core/cache.py` in the form of the source: a cache whose store, like
 the data source behind it, is changed by others between any two actions of a call.
 */
module RedisCaches {
  import opened Options
  import opened TtlStore
  import opened CacheAside

  predicate IsBy<In, Out, Db>(r: CallId, e: Event<In, Out, Db>) {
    match e
    case StartCall(q, _) => q == r
    case LookUp(q, _) => q == r
    case Compute(q, _) => q == r
    case StoreResult(q, _) => q == r
    case Abort(q) => q == r
    case _ => false
  }

  /** The events of call `r` among `es`. */
  ghost function Own<In, Out, Db>(r: CallId, es: seq<Event<In, Out, Db>>): seq<Event<In, Out, Db>> {
    if es == [] then []
    else if IsBy(r, es[0]) then [es[0]] + Own(r, es[1..])
    else Own(r, es[1..])
  }

  lemma {:induction false} OwnAppend<In, Out, Db>(r: CallId, a: seq<Event<In, Out, Db>>, b: seq<Event<In, Out, Db>>)
    ensures Own(r, a + b) == Own(r, a) + Own(r, b)
    decreases |a|
  {
    if a == [] {
      assert a + b == b;
    } else {
      OwnAppend(r, a[1..], b);
      assert (a + b)[1..] == a[1..] + b;
    }
  }

  class CacheWorld<In, Out, Db> {
    const protocol: Protocol<In, Out, Db>
    const db0: Db
    var state: State<In, Out, Db>
    ghost var trace: seq<Event<In, Out, Db>>

    /** The state is the one the recorded run leads to. */
    ghost predicate Valid()
      reads this
    {
      IsRun(protocol, Init(db0), trace) && state == Run(protocol, Init(db0), trace)
    }

    constructor (protocol: Protocol<In, Out, Db>, db0: Db)
      ensures Valid() && this.protocol == protocol && this.db0 == db0 && trace == []
    {
      this.protocol := protocol;
      this.db0 := db0;
      state := Init(db0);
      trace := [];
    }

    /** The last step was `e`, taken in the state `before`. */
    ghost predicate EndsWith(e: Event<In, Out, Db>, before: State<In, Out, Db>)
      reads this
    {
      && trace != [] && trace[|trace| - 1] == e
      && IsRun(protocol, Init(db0), trace[..|trace| - 1]) && Run(protocol, Init(db0), trace[..|trace| - 1]) == before
    }

    lemma IsSound()
      requires Valid()
      ensures Inv(protocol, state)
    {
      RunKeepsInv(protocol, Init(db0), trace);
    }

    method Do(e: Event<In, Out, Db>)
      requires Valid() && Enabled(protocol, state, e)
      modifies this
      ensures Valid() && trace == old(trace) + [e] && state == Apply(protocol, old(state), e)
    {
      RunExtends(protocol, Init(db0), trace, e);
      state := Apply(protocol, state, e);
      trace := trace + [e];
    }

    /** Any number of steps of other calls, of the data source, of time and of the cache itself. */
    method Interleave(r: CallId)
      requires Valid() && r in state.calls
      modifies this
      ensures Valid() && r in state.calls && state.calls[r] == old(state.calls[r])
      ensures old(trace) <= trace && Own(r, trace) == Own(r, old(trace))
    {
      var steps: nat := *;
      while steps > 0
        invariant Valid() && r in state.calls && state.calls[r] == old(state.calls[r])
        invariant old(trace) <= trace && Own(r, trace) == Own(r, old(trace))
      {
        var e: Event<In, Out, Db> := *;
        if Enabled(protocol, state, e) && !IsBy(r, e) {
          OwnAppend(r, trace, [e]);
          assert Own(r, [e]) == [];
          Do(e);
        }
        steps := steps - 1;
      }
    }

    /** One action of `r` itself. */
    method Act(r: CallId, e: Event<In, Out, Db>)
      requires Valid() && IsBy(r, e) && Enabled(protocol, state, e)
      modifies this
      ensures Valid() && trace == old(trace) + [e] && state == Apply(protocol, old(state), e)
      ensures Own(r, trace) == Own(r, old(trace)) + [e] && EndsWith(e, old(state))
    {
      OwnAppend(r, trace, [e]);
      assert [e][1..] == [];
      assert Own(r, [e]) == [e];
      assert (trace + [e])[..|trace|] == trace;
      Do(e);
    }
  }

  class RedisCache<In, Out, Db> {
    const world: CacheWorld<In, Out, Db>

    constructor (world: CacheWorld<In, Out, Db>)
      ensures this.world == world
    {
      this.world := world;
    }

    /**
     A miss and a Redis failure look the same; a value that is not of the cached kind is returned
     as Junk. Only a read that is cut off raises. `before` is the state that the others had led to
     when the command reached Redis.
     */
    method Get(r: CallId, delivery: Delivery)
      returns (raw: Option<Cached<Out>>, raised: bool, ghost before: State<In, Out, Db>)
      requires world.Valid() && r in world.state.calls && world.state.calls[r].phase.Looking?
      modifies world
      ensures world.Valid() && old(world.trace) <= world.trace
      ensures Own(r, world.trace) == Own(r, old(world.trace)) + [LookUp(r, delivery)]
      ensures r in world.state.calls && world.state.calls[r].input == old(world.state.calls[r]).input
      ensures raised <==> delivery.Cut()
      ensures var key := world.protocol.key(world.state.calls[r].input);
              raw == if delivery.Delivered? && key in before.store && before.now < before.store[key].expiry
                     then Some(before.store[key].value) else None
      ensures world.EndsWith(LookUp(r, delivery), before)
      ensures PhaseFits(raw, raised, world.state.calls[r].phase, world.state.now)
    {
      world.Interleave(r);
      before := world.state;
      raw := CacheGet(world.state.store, world.protocol.key(world.state.calls[r].input), world.state.now, delivery);
      raised := delivery.Cut();
      world.Act(r, LookUp(r, delivery));
    }

    /** What a read gives decides where its call stands. */
    static ghost predicate PhaseFits(raw: Option<Cached<Out>>, raised: bool, phase: Phase<Out>, now: nat) {
      if raised then phase == Answered(Aborted, now)
      else match raw
           case Some(Good(value, source, setAt)) => phase == Answered(FromCache(value, source, setAt), now)
           case _ => phase == Computing
    }

    /** The beginning of a call: it looks its input up. */
    method Open(r: CallId, input: In, delivery: Delivery) returns (raw: Option<Cached<Out>>, raised: bool)
      requires world.Valid() && r !in world.state.calls && Own(r, world.trace) == []
      modifies world
      ensures world.Valid() && old(world.trace) <= world.trace
      ensures Own(r, world.trace) == [StartCall(r, input)] + [LookUp(r, delivery)]
      ensures r in world.state.calls && world.state.calls[r].input == input
      ensures (raised <==> delivery.Cut()) && (delivery.Raised() ==> raw == None)
      ensures PhaseFits(raw, raised, world.state.calls[r].phase, world.state.now)
    {
      world.Act(r, StartCall(r, input));
      ghost var before;
      raw, raised, before := Get(r, delivery);
    }

    /** The end of a call that has computed `value`: it is written to the cache and becomes the answer. */
    method Keep(r: CallId, value: Out, delivery: Delivery) returns (raised: bool)
      requires world.Valid() && r in world.state.calls && Enabled(world.protocol, world.state, Compute(r, Some(value)))
      modifies world
      ensures world.Valid() && old(world.trace) <= world.trace
      ensures Own(r, world.trace) == Own(r, old(world.trace)) + [Compute(r, Some(value)), StoreResult(r, delivery)]
      ensures r in world.state.calls && world.state.calls[r].input == old(world.state.calls[r]).input
      ensures (raised <==> delivery.Cut()) && world.state.calls[r].phase.Answered?
      ensures var answer := world.state.calls[r].phase.answer;
              if raised then answer.Aborted? else answer.Computed? && answer.value == value
    {
      ghost var own := Own(r, world.trace);
      world.Act(r, Compute(r, Some(value)));
      ghost var before;
      raised, before := Set(r, delivery);
      assert own + [Compute(r, Some(value)), StoreResult(r, delivery)]
          == own + [Compute(r, Some(value))] + [StoreResult(r, delivery)];
    }

    /**
     A failed write leaves the cache as it was and the answer as it is; only a write that is cut
     off raises. `before` is the state that the others had led to when the command reached Redis.
     */
    method Set(r: CallId, delivery: Delivery) returns (raised: bool, ghost before: State<In, Out, Db>)
      requires world.Valid() && r in world.state.calls && world.state.calls[r].phase.Storing?
      modifies world
      ensures world.Valid() && old(world.trace) <= world.trace && (raised <==> delivery.Cut())
      ensures Own(r, world.trace) == Own(r, old(world.trace)) + [StoreResult(r, delivery)]
      ensures r in world.state.calls && world.state.calls[r].input == old(world.state.calls[r]).input
      ensures world.EndsWith(StoreResult(r, delivery), before)
      ensures r in before.calls && before.calls[r] == old(world.state.calls[r]) && before.now == world.state.now
      ensures var Storing(value, source) := old(world.state.calls[r]).phase;
              && world.state.calls[r].phase
                 == Answered(if raised then Aborted else Computed(value, source), world.state.now)
              && world.state.store
                 == if delivery.Applied()
                    then SetEx(before.store, world.protocol.key(world.state.calls[r].input),
                               Good(value, source, before.now), before.now, world.protocol.ttl)
                    else before.store
    {
      world.Interleave(r);
      before := world.state;
      world.Act(r, StoreResult(r, delivery));
      raised := delivery.Cut();
    }
  }
}
