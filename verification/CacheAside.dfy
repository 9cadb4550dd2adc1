/**
 The cache-aside protocol shared by the knowledge-base tool and the ticket classifier
 (`RedisCache.get` and `RedisCache.set` of `backend/core/cache.py` around an expensive
 computation): any number of concurrent calls over one store with a time to live, a data
 source that changes underneath them, and a cache that can fail or lose entries at any time.

 `computed` records every successful computation and `versions` every state of the data
 source; no action of the program depends on the records.
 */
module CacheAside {
  import opened TtlStore
  import opened CacheKeys
  import opened Options

  type CallId = nat

  /** What distinguishes one use of the protocol: its keys, its possible results, its time to live. */
  datatype Protocol<!In, !Out, !Db> = Protocol(
    key: In -> CacheKey,
    legal: (In, Db, Out) -> bool,
    ttl: nat)

  /** A cached value; Junk is anything the reader does not accept as a value of its kind. */
  datatype Cached<+Out> = Good(value: Out, source: nat, setAt: nat) | Junk

  /** A successful computation, with the call that made it, when, and in which state of the data source. */
  datatype Computation<+In, +Out> = Computation(input: In, output: Out, at: nat, version: nat, caller: CallId)

  datatype Version<+Db> = Version(db: Db, since: nat)

  datatype Answer<+Out> =
    | FromCache(value: Out, source: nat, setAt: nat)
    | Computed(value: Out, source: nat)
    | ComputationFailed
    /** The call raised, or its thread died: nobody got an answer. */
    | Aborted

  datatype Phase<+Out> =
    | Looking
    | Computing
    | Storing(value: Out, source: nat)
    | Answered(answer: Answer<Out>, at: nat)

  datatype Call<+In, +Out> = Call(input: In, phase: Phase<Out>)

  datatype State<+In, +Out, +Db> = State(
    now: nat,
    store: Store<CacheKey, Cached<Out>>,
    calls: map<CallId, Call<In, Out>>,
    computed: seq<Computation<In, Out>>,
    versions: seq<Version<Db>>)

  datatype Event<+In, +Out, +Db> =
    | Tick(elapsed: nat)
    | ChangeDb(db: Db)
    | Evict(key: CacheKey)
    | Corrupt(key: CacheKey, expiry: nat)
    | StartCall(r: CallId, input: In)
    | LookUp(r: CallId, delivery: Delivery)
    | Compute(r: CallId, output: Option<Out>)
    | StoreResult(r: CallId, delivery: Delivery)
    | Abort(r: CallId)

  function Init<In, Out, Db>(db: Db): State<In, Out, Db> {
    State(0, map[], map[], [], [Version(db, 0)])
  }

  predicate Enabled<In, Out, Db>(p: Protocol<In, Out, Db>, s: State<In, Out, Db>, e: Event<In, Out, Db>) {
    match e
    case StartCall(r, _) => r !in s.calls
    case LookUp(r, _) => r in s.calls && s.calls[r].phase.Looking?
    case Compute(r, output) =>
      && r in s.calls && s.calls[r].phase.Computing? && s.versions != []
      && (output.Some? ==> p.legal(s.calls[r].input, s.versions[|s.versions| - 1].db, output.value))
    case StoreResult(r, _) => r in s.calls && s.calls[r].phase.Storing?
    case Abort(r) => r in s.calls && !s.calls[r].phase.Answered?
    case _ => true
  }

  function Enter<In, Out, Db>(s: State<In, Out, Db>, r: CallId, phase: Phase<Out>): State<In, Out, Db>
    requires r in s.calls
  {
    s.(calls := s.calls[r := s.calls[r].(phase := phase)])
  }

  /** `RedisCache.get`: a missing key and any Redis error are the same miss. */
  function CacheGet<Out>(store: Store<CacheKey, Cached<Out>>, key: CacheKey, now: nat, delivery: Delivery)
    : Option<Cached<Out>>
  {
    if delivery.Raised() then None else Lookup(store, key, now)
  }

  function Apply<In, Out, Db>(p: Protocol<In, Out, Db>, s: State<In, Out, Db>, e: Event<In, Out, Db>)
    : State<In, Out, Db>
    requires Enabled(p, s, e)
  {
    match e
    case Tick(elapsed) => s.(now := s.now + elapsed)
    case ChangeDb(db) => s.(versions := s.versions + [Version(db, s.now)])
    case Evict(key) => s.(store := Delete(s.store, key))
    case Corrupt(key, expiry) => s.(store := s.store[key := Entry(Junk, expiry)])
    case StartCall(r, input) => s.(calls := s.calls[r := Call(input, Looking)])
    case LookUp(r, delivery) =>
      if delivery.Cut() then Enter(s, r, Answered(Aborted, s.now))
      else (match CacheGet(s.store, p.key(s.calls[r].input), s.now, delivery)
            case Some(Good(value, source, setAt)) => Enter(s, r, Answered(FromCache(value, source, setAt), s.now))
            case _ => Enter(s, r, Computing))
    case Compute(r, output) =>
      (match output
       case None => Enter(s, r, Answered(ComputationFailed, s.now))
       case Some(value) =>
         Enter(s, r, Storing(value, |s.computed|)).(
           computed := s.computed + [Computation(s.calls[r].input, value, s.now, |s.versions| - 1, r)]))
    case StoreResult(r, delivery) =>
      var Storing(value, source) := s.calls[r].phase;
      var s1 := Enter(s, r, Answered(if delivery.Cut() then Aborted else Computed(value, source), s.now));
      if delivery.Applied()
      then s1.(store := SetEx(s.store, p.key(s.calls[r].input), Good(value, source, s.now), s.now, p.ttl))
      else s1
    case Abort(r) => Enter(s, r, Answered(Aborted, s.now))
  }

  ghost predicate IsRun<In, Out, Db>(p: Protocol<In, Out, Db>, s: State<In, Out, Db>, es: seq<Event<In, Out, Db>>)
    decreases |es|, 0
  {
    es == [] || (IsRun(p, s, es[..|es| - 1]) && Enabled(p, Run(p, s, es[..|es| - 1]), es[|es| - 1]))
  }

  ghost function Run<In, Out, Db>(p: Protocol<In, Out, Db>, s: State<In, Out, Db>, es: seq<Event<In, Out, Db>>)
    : State<In, Out, Db>
    requires IsRun(p, s, es)
    decreases |es|, 1
  {
    if es == [] then s else Apply(p, Run(p, s, es[..|es| - 1]), es[|es| - 1])
  }

  lemma RunExtends<In, Out, Db>(p: Protocol<In, Out, Db>, s: State<In, Out, Db>, es: seq<Event<In, Out, Db>>,
                                e: Event<In, Out, Db>)
    requires IsRun(p, s, es) && Enabled(p, Run(p, s, es), e)
    ensures IsRun(p, s, es + [e]) && Run(p, s, es + [e]) == Apply(p, Run(p, s, es), e)
  {
    assert (es + [e])[..|es|] == es;
  }

  // ---- The invariant ----

  /** The data source was in its `v`-th state at time `t`. */
  ghost predicate CurrentAt<Db>(versions: seq<Version<Db>>, v: nat, t: nat) {
    v < |versions| && versions[v].since <= t && (v + 1 < |versions| ==> t <= versions[v + 1].since)
  }

  ghost predicate ComputationOk<In, Out, Db>(p: Protocol<In, Out, Db>, now: nat, versions: seq<Version<Db>>,
                                             c: Computation<In, Out>) {
    c.at <= now && CurrentAt(versions, c.version, c.at) && p.legal(c.input, versions[c.version].db, c.output)
  }

  ghost predicate ComputedOk<In, Out, Db>(p: Protocol<In, Out, Db>, now: nat, versions: seq<Version<Db>>,
                                          computed: seq<Computation<In, Out>>) {
    && versions != [] && versions[|versions| - 1].since <= now
    && (forall i :: 0 <= i < |computed| ==> ComputationOk(p, now, versions, computed[i]))
  }

  /**
   The result number `source`, of an input with the key `key`, whose own call stored it at
   `setAt` and answered with it, unless it was cut off while storing.
   */
  ghost predicate StoredOk<In, Out, Db>(p: Protocol<In, Out, Db>, computed: seq<Computation<In, Out>>,
                                        calls: map<CallId, Call<In, Out>>,
                                        key: CacheKey, value: Out, source: nat, setAt: nat) {
    && source < |computed| && p.key(computed[source].input) == key
    && computed[source].output == value && computed[source].at <= setAt
    && computed[source].caller in calls && StoredThen(calls[computed[source].caller].phase, value, source, setAt)
  }

  predicate StoredThen<Out(==)>(phase: Phase<Out>, value: Out, source: nat, setAt: nat) {
    phase == Answered(Computed(value, source), setAt) || phase == Answered(Aborted, setAt)
  }

  ghost predicate StoreOk<In, Out, Db>(p: Protocol<In, Out, Db>, now: nat, computed: seq<Computation<In, Out>>,
                                       calls: map<CallId, Call<In, Out>>, store: Store<CacheKey, Cached<Out>>) {
    forall k :: k in store && store[k].value.Good? ==>
      var Good(value, source, setAt) := store[k].value;
      StoredOk(p, computed, calls, k, value, source, setAt) && setAt <= now && store[k].expiry == setAt + p.ttl
  }

  /** Result number `source` is this call's own. */
  ghost predicate OwnOk<In, Out>(computed: seq<Computation<In, Out>>, r: CallId, input: In, value: Out, source: nat,
                                 at: nat) {
    && source < |computed| && computed[source].input == input && computed[source].output == value
    && computed[source].at <= at && computed[source].caller == r
  }

  ghost predicate CallOk<In, Out, Db>(p: Protocol<In, Out, Db>, now: nat, computed: seq<Computation<In, Out>>,
                                      calls: map<CallId, Call<In, Out>>, r: CallId, call: Call<In, Out>) {
    match call.phase
    case Storing(value, source) => OwnOk(computed, r, call.input, value, source, now)
    case Answered(FromCache(value, source, setAt), at) =>
      StoredOk(p, computed, calls, p.key(call.input), value, source, setAt) && setAt <= at < setAt + p.ttl
    case Answered(Computed(value, source), at) => OwnOk(computed, r, call.input, value, source, at)
    case _ => true
  }

  ghost predicate CallsOk<In, Out, Db>(p: Protocol<In, Out, Db>, now: nat, computed: seq<Computation<In, Out>>,
                                       calls: map<CallId, Call<In, Out>>) {
    forall r :: r in calls ==> CallOk(p, now, computed, calls, r, calls[r])
  }

  ghost predicate Inv<In, Out, Db>(p: Protocol<In, Out, Db>, s: State<In, Out, Db>) {
    && ComputedOk(p, s.now, s.versions, s.computed)
    && StoreOk(p, s.now, s.computed, s.calls, s.store)
    && CallsOk(p, s.now, s.computed, s.calls)
  }

  lemma ComputedOkLater<In, Out, Db>(p: Protocol<In, Out, Db>, s: State<In, Out, Db>, now: nat)
    requires ComputedOk(p, s.now, s.versions, s.computed) && s.now <= now
    ensures ComputedOk(p, now, s.versions, s.computed)
  {
    forall i | 0 <= i < |s.computed| ensures ComputationOk(p, now, s.versions, s.computed[i]) {
      assert ComputationOk(p, s.now, s.versions, s.computed[i]);
    }
  }

  lemma CallsOkLater<In, Out, Db>(p: Protocol<In, Out, Db>, s: State<In, Out, Db>, now: nat)
    requires CallsOk(p, s.now, s.computed, s.calls) && s.now <= now
    ensures CallsOk(p, now, s.computed, s.calls)
  {
    forall r | r in s.calls ensures CallOk(p, now, s.computed, s.calls, r, s.calls[r]) {
      assert CallOk(p, s.now, s.computed, s.calls, r, s.calls[r]);
    }
  }

  lemma ComputedOkNewVersion<In, Out, Db>(p: Protocol<In, Out, Db>, s: State<In, Out, Db>, db: Db)
    requires ComputedOk(p, s.now, s.versions, s.computed)
    ensures ComputedOk(p, s.now, s.versions + [Version(db, s.now)], s.computed)
  {
    var versions := s.versions + [Version(db, s.now)];
    forall i | 0 <= i < |s.computed| ensures ComputationOk(p, s.now, versions, s.computed[i]) {
      assert ComputationOk(p, s.now, s.versions, s.computed[i]);
    }
  }

  /** A call that is not yet answered moves on; what answered calls vouch for stands. */
  lemma CallMoves<In, Out, Db>(p: Protocol<In, Out, Db>, s: State<In, Out, Db>, r: CallId, call: Call<In, Out>)
    requires Inv(p, s) && (r in s.calls ==> !s.calls[r].phase.Answered?)
    requires CallOk(p, s.now, s.computed, s.calls, r, call)
    ensures Inv(p, s.(calls := s.calls[r := call]))
  {
    var calls := s.calls[r := call];
    forall q | q in calls ensures CallOk(p, s.now, s.computed, calls, q, calls[q]) {
      assert q != r ==> CallOk(p, s.now, s.computed, s.calls, q, s.calls[q]);
    }
  }

  lemma ComputationAppended<In, Out, Db>(p: Protocol<In, Out, Db>, s: State<In, Out, Db>, c: Computation<In, Out>)
    requires Inv(p, s) && ComputationOk(p, s.now, s.versions, c)
    ensures Inv(p, s.(computed := s.computed + [c]))
  {
    var computed := s.computed + [c];
    forall r | r in s.calls ensures CallOk(p, s.now, computed, s.calls, r, s.calls[r]) {
      assert CallOk(p, s.now, s.computed, s.calls, r, s.calls[r]);
    }
  }

  lemma LookUpKeepsInv<In, Out, Db>(p: Protocol<In, Out, Db>, s: State<In, Out, Db>, r: CallId, delivery: Delivery)
    requires Inv(p, s) && Enabled(p, s, LookUp(r, delivery))
    ensures Inv(p, Apply(p, s, LookUp(r, delivery)))
  {
    var call := Apply(p, s, LookUp(r, delivery)).calls[r];
    var key := p.key(s.calls[r].input);
    if key in s.store && s.store[key].value.Good? {
      var Good(value, source, setAt) := s.store[key].value;
      assert StoredOk(p, s.computed, s.calls, key, value, source, setAt);
    }
    assert CallOk(p, s.now, s.computed, s.calls, r, call);
    CallMoves(p, s, r, call);
  }

  lemma ComputeKeepsInv<In, Out, Db>(p: Protocol<In, Out, Db>, s: State<In, Out, Db>, r: CallId, output: Option<Out>)
    requires Inv(p, s) && Enabled(p, s, Compute(r, output))
    ensures Inv(p, Apply(p, s, Compute(r, output)))
  {
    match output
    case Some(value) =>
      var c := Computation(s.calls[r].input, value, s.now, |s.versions| - 1, r);
      ComputationAppended(p, s, c);
      CallMoves(p, s.(computed := s.computed + [c]), r, Call(s.calls[r].input, Storing(value, |s.computed|)));
    case None =>
      CallMoves(p, s, r, Call(s.calls[r].input, Answered(ComputationFailed, s.now)));
  }

  /** A store in which one entry is new is right if that entry is. */
  lemma EntryWritten<In, Out, Db>(p: Protocol<In, Out, Db>, s: State<In, Out, Db>, key: CacheKey, value: Out,
                                  source: nat)
    requires Inv(p, s) && StoredOk(p, s.computed, s.calls, key, value, source, s.now)
    ensures Inv(p, s.(store := SetEx(s.store, key, Good(value, source, s.now), s.now, p.ttl)))
  {}

  lemma StoreResultKeepsInv<In, Out, Db>(p: Protocol<In, Out, Db>, s: State<In, Out, Db>, r: CallId, delivery: Delivery)
    requires Inv(p, s) && Enabled(p, s, StoreResult(r, delivery))
    ensures Inv(p, Apply(p, s, StoreResult(r, delivery)))
  {
    assert CallOk(p, s.now, s.computed, s.calls, r, s.calls[r]);
    var Storing(value, source) := s.calls[r].phase;
    var answer := if delivery.Cut() then Aborted else Computed(value, source);
    CallMoves(p, s, r, Call(s.calls[r].input, Answered(answer, s.now)));
    if delivery.Applied() {
      EntryWritten(p, Enter(s, r, Answered(answer, s.now)), p.key(s.calls[r].input), value, source);
    }
  }

  lemma StepKeepsInv<In, Out, Db>(p: Protocol<In, Out, Db>, s: State<In, Out, Db>, e: Event<In, Out, Db>)
    requires Inv(p, s) && Enabled(p, s, e)
    ensures Inv(p, Apply(p, s, e))
  {
    match e
    case Tick(elapsed) =>
      ComputedOkLater(p, s, s.now + elapsed);
      CallsOkLater(p, s, s.now + elapsed);
    case ChangeDb(db) => ComputedOkNewVersion(p, s, db);
    case Evict(_) =>
    case Corrupt(_, _) =>
    case StartCall(r, input) => CallMoves(p, s, r, Call(input, Looking));
    case LookUp(r, delivery) => LookUpKeepsInv(p, s, r, delivery);
    case Compute(r, output) => ComputeKeepsInv(p, s, r, output);
    case StoreResult(r, delivery) => StoreResultKeepsInv(p, s, r, delivery);
    case Abort(r) => CallMoves(p, s, r, Call(s.calls[r].input, Answered(Aborted, s.now)));
  }

  lemma {:induction false} RunKeepsInv<In, Out, Db>(p: Protocol<In, Out, Db>, s: State<In, Out, Db>,
                                                    es: seq<Event<In, Out, Db>>)
    requires Inv(p, s) && IsRun(p, s, es)
    ensures Inv(p, Run(p, s, es))
    decreases |es|
  {
    if es != [] {
      RunKeepsInv(p, s, es[..|es| - 1]);
      StepKeepsInv(p, Run(p, s, es[..|es| - 1]), es[|es| - 1]);
    }
  }

  // ---- What is stored is found again ----

  /** The step removes, spoils or rewrites what is stored under `key`. */
  predicate Disturbs<In, Out, Db>(p: Protocol<In, Out, Db>, s: State<In, Out, Db>, e: Event<In, Out, Db>, key: CacheKey)
    requires Enabled(p, s, e)
  {
    match e
    case Evict(k) => k == key
    case Corrupt(k, _) => k == key
    case StoreResult(r, _) => p.key(s.calls[r].input) == key
    case _ => false
  }

  ghost predicate Undisturbed<In, Out, Db>(p: Protocol<In, Out, Db>, s: State<In, Out, Db>, es: seq<Event<In, Out, Db>>,
                                           key: CacheKey)
    requires IsRun(p, s, es)
    decreases |es|
  {
    es == []
    || (Undisturbed(p, s, es[..|es| - 1], key) && !Disturbs(p, Run(p, s, es[..|es| - 1]), es[|es| - 1], key))
  }

  lemma {:induction false} UndisturbedEntryStays<In, Out, Db>(p: Protocol<In, Out, Db>, s: State<In, Out, Db>,
                                                              es: seq<Event<In, Out, Db>>, key: CacheKey)
    requires IsRun(p, s, es) && Undisturbed(p, s, es, key) && key in s.store
    ensures key in Run(p, s, es).store && Run(p, s, es).store[key] == s.store[key]
    decreases |es|
  {
    if es != [] {
      UndisturbedEntryStays(p, s, es[..|es| - 1], key);
    }
  }

  /**
   A result whose write took effect is found again: as long as nothing removes, spoils or rewrites
   the entry, every answered lookup with the same key less than a time to live later is answered
   with that result, whoever asks and whatever else happens.
   */
  lemma StoredResultIsFoundAgain<In, Out, Db>(p: Protocol<In, Out, Db>, s: State<In, Out, Db>, w: CallId,
                                              delivery: Delivery, es: seq<Event<In, Out, Db>>, r: CallId)
    requires Enabled(p, s, StoreResult(w, delivery)) && delivery.Applied()
    requires var key := p.key(s.calls[w].input);
             && IsRun(p, Apply(p, s, StoreResult(w, delivery)), es)
             && Undisturbed(p, Apply(p, s, StoreResult(w, delivery)), es, key)
             && var s' := Run(p, Apply(p, s, StoreResult(w, delivery)), es);
                && Enabled(p, s', LookUp(r, Delivered)) && p.key(s'.calls[r].input) == key && s'.now < s.now + p.ttl
    ensures var s' := Run(p, Apply(p, s, StoreResult(w, delivery)), es);
            var answered := Apply(p, s', LookUp(r, Delivered)).calls[r].phase;
            && answered.Answered? && answered.answer.FromCache?
            && answered.answer.value == s.calls[w].phase.value
  {
    UndisturbedEntryStays(p, Apply(p, s, StoreResult(w, delivery)), es, p.key(s.calls[w].input));
  }
}
