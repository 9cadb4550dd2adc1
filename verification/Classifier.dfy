/**
 `backend/graph/classifier.py`: ticket classification with a cache of successful answers.
 */
module Classifier {
  import opened Options
  import opened TtlStore
  import opened CacheKeys
  import opened CacheAside
  import opened RedisCaches
  import opened WorkflowStates
  import KnowledgeBase

  const CACHE_KEY_PREFIX := "classification"

  function TextKey(text: string): CacheKey {
    BuildCacheKey(CACHE_KEY_PREFIX, [NormalizeText(text)])
  }

  /** The cache holds category values; the model may answer any category, and has no data source that matters here. */
  function ClassificationProtocol(ttl: nat): Protocol<string, string, ()> {
    Protocol(TextKey, (text: string, db: (), value: string) => ParseCategory(value).Some?, ttl)
  }

  /** The category the caller gets; None stands for a call that raised. */
  function CategoryOf(answer: Answer<string>): Option<TicketCategory> {
    match answer
    case FromCache(value, _, _) => Some(GetOr(ParseCategory(value), General))
    case Computed(value, _) => Some(GetOr(ParseCategory(value), General))
    case ComputationFailed => Some(General)
    case Aborted => None
  }

  /** The two caches of the program share no key. */
  lemma CachesAreApart(text: string, q: KnowledgeBase.Query)
    ensures TextKey(text) != KnowledgeBase.QueryKey(q)
  {
    assert "classification" != "knowledge_base";
  }

  lemma SameKeySameWords(text1: string, text2: string)
    ensures TextKey(text1) == TextKey(text2) <==> SameWords(text1, text2)
  {
    NormalizeIdentifiesExactlySameWords(text1, text2);
  }

  /**
   In every run, a category taken from the cache is the model's successful answer, recorded as
   number `source`, for a text with the same words up to case, cached less than the time to
   live ago; and everything of its kind in the cache is such an answer, so that the GENERAL
   given on a failure is never stored.
   */
  lemma ClassificationProvenance(ttl: nat, es: seq<Event<string, string, ()>>, r: CallId, key: CacheKey)
    requires IsRun(ClassificationProtocol(ttl), Init(()), es)
    ensures var s := Run(ClassificationProtocol(ttl), Init(()), es);
            r in s.calls && s.calls[r].phase.Answered? && s.calls[r].phase.answer.FromCache? ==>
              var Call(text, Answered(FromCache(value, source, setAt), at)) := s.calls[r];
              && source < |s.computed| && s.computed[source].output == value
              && ParseCategory(value).Some? && CategoryOf(s.calls[r].phase.answer) == ParseCategory(value)
              && SameWords(s.computed[source].input, text) && setAt <= at < setAt + ttl
    ensures var s := Run(ClassificationProtocol(ttl), Init(()), es);
            key in s.store && s.store[key].value.Good? ==>
              var Good(value, source, _) := s.store[key].value;
              && source < |s.computed| && s.computed[source].output == value && ParseCategory(value).Some?
              && TextKey(s.computed[source].input) == key
  {
    var p := ClassificationProtocol(ttl);
    RunKeepsInv(p, Init(()), es);
    var s := Run(p, Init(()), es);
    if r in s.calls && s.calls[r].phase.Answered? && s.calls[r].phase.answer.FromCache? {
      assert CallOk(p, s.now, s.computed, s.calls, r, s.calls[r]);
      CachedValueParses(p, s, s.calls[r].phase.answer.source);
      SameKeySameWords(s.computed[s.calls[r].phase.answer.source].input, s.calls[r].input);
    }
    if key in s.store && s.store[key].value.Good? {
      CachedValueParses(p, s, s.store[key].value.source);
    }
  }

  lemma CachedValueParses(p: Protocol<string, string, ()>, s: State<string, string, ()>, source: nat)
    requires Inv(p, s) && p == ClassificationProtocol(p.ttl) && source < |s.computed|
    ensures ParseCategory(s.computed[source].output).Some?
  {
    assert ComputationOk(p, s.now, s.versions, s.computed[source]);
  }

  /** The events of a call that asks the model. */
  function ModelStory(r: CallId, model: Option<TicketCategory>, setDelivery: Delivery): seq<Event<string, string, ()>> {
    match model
    case None => [Compute(r, None)]
    case Some(c) => [Compute(r, Some(CategoryValue(c))), StoreResult(r, setDelivery)]
  }

  /** The events of a call after a miss. */
  function MissStory(r: CallId, clientBuilt: bool, model: Option<TicketCategory>, setDelivery: Delivery)
    : seq<Event<string, string, ()>>
  {
    if clientBuilt then ModelStory(r, model, setDelivery) else [Abort(r)]
  }

  /** The model call after a miss: only an answer is cached. */
  method AskModel(world: CacheWorld<string, string, ()>, cache: RedisCache<string, string, ()>, r: CallId,
                  model: Option<TicketCategory>, setDelivery: Delivery)
    returns (category: Option<TicketCategory>)
    requires cache.world == world && world.Valid()
    requires r in world.state.calls && world.state.calls[r].phase.Computing?
    requires exists ttl :: world.protocol == ClassificationProtocol(ttl)
    modifies world
    ensures world.Valid() && old(world.trace) <= world.trace && r in world.state.calls
    ensures world.state.calls[r].input == old(world.state.calls[r]).input
    ensures world.state.calls[r].phase.Answered? && category == CategoryOf(world.state.calls[r].phase.answer)
    ensures category == if model.Some? && setDelivery.Cut() then None else Some(GetOr(model, General))
    ensures Own(r, world.trace) == Own(r, old(world.trace)) + ModelStory(r, model, setDelivery)
  {
    world.Interleave(r);
    world.IsSound();
    match model {
      case None =>
        world.Act(r, Compute(r, None));
        category := Some(General);
      case Some(c) =>
        CategoryRoundTrip(CategoryValue(c), c);
        var raised := cache.Keep(r, CategoryValue(c), setDelivery);
        category := if raised then None else Some(c);
    }
  }

  /** What the classifier reads back from the cache is the value of a category. */
  lemma HitParses(world: CacheWorld<string, string, ()>, r: CallId)
    requires world.Valid() && r in world.state.calls
    requires exists ttl :: world.protocol == ClassificationProtocol(ttl)
    requires world.state.calls[r].phase.Answered? && world.state.calls[r].phase.answer.FromCache?
    ensures ParseCategory(world.state.calls[r].phase.answer.value).Some?
  {
    world.IsSound();
    assert CallOk(world.protocol, world.state.now, world.state.computed, world.state.calls, r, world.state.calls[r]);
    CachedValueParses(world.protocol, world.state, world.state.calls[r].phase.answer.source);
  }

  /**
   `classify_ticket`. A hit returns the cached category without asking the model; otherwise the
   model's answer is returned and cached, or GENERAL is returned and nothing is cached. It raises
   exactly when the lookup is cut off, when after a miss no client can be built, or when the
   write of the model's answer is cut off.
   */
  method ClassifyTicket(world: CacheWorld<string, string, ()>, r: CallId, ticketText: string,
                        getDelivery: Delivery, clientBuilt: bool, model: Option<TicketCategory>, setDelivery: Delivery)
    returns (category: Option<TicketCategory>, hit: bool)
    requires world.Valid() && r !in world.state.calls && Own(r, world.trace) == []
    requires exists ttl :: world.protocol == ClassificationProtocol(ttl)
    modifies world
    ensures world.Valid() && old(world.trace) <= world.trace && r in world.state.calls
    ensures world.state.calls[r].input == ticketText
    ensures world.state.calls[r].phase.Answered? && category == CategoryOf(world.state.calls[r].phase.answer)
    ensures hit ==> world.state.calls[r].phase.answer.FromCache?
    ensures !hit && category.Some? ==> category.value == GetOr(model, General)
    ensures getDelivery.Raised() ==> !hit
    ensures category.None? <==>
            getDelivery.Cut() || (!hit && (!clientBuilt || (model.Some? && setDelivery.Cut())))
    ensures Own(r, world.trace) == [StartCall(r, ticketText)] + [LookUp(r, getDelivery)]
            + if hit || getDelivery.Cut() then [] else MissStory(r, clientBuilt, model, setDelivery)
  {
    var cache := new RedisCache(world);
    var cached, raised := cache.Open(r, ticketText, getDelivery);
    if raised {
      return None, false;
    }
    if cached.Some? && cached.value.Good? {
      match ParseCategory(cached.value.value) {
        case Some(c) =>
          return Some(c), true;
        case None =>
          HitParses(world, r);
          assert false;
      }
    }
    hit := false;
    if clientBuilt {
      category := AskModel(world, cache, r, model, setDelivery);
    } else {
      category := None;
      world.Interleave(r);
      world.Act(r, Abort(r));
    }
  }
}
