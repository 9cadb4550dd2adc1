/**
 `backend/tools/knowledge_base.py`: the knowledge-base search tool and how old its answers can be.
 */
module KnowledgeBase {
  import opened Options
  import opened TtlStore
  import opened Text
  import opened CacheKeys
  import opened KnowledgeArticles
  import opened KnowledgeSearch
  import opened CacheAside
  import opened RedisCaches

  const NO_RESULTS_MESSAGE := "No relevant knowledge-base articles were found."
  const UNAVAILABLE_MESSAGE := "Knowledge-base lookup is unavailable right now."
  const MAX_RESULTS := 3
  const CACHE_KEY_PREFIX := "knowledge_base"

  /** One of the agents' categories; none has a colon in it. */
  type Category = c: string | ':' !in c witness "general"

  datatype Query = Query(category: Category, text: string)

  type Table = seq<KnowledgeArticle>

  function Lines(articles: seq<KnowledgeArticle>): seq<string> {
    seq(|articles|, i requires 0 <= i < |articles| => articles[i].title + ": " + articles[i].content)
  }

  function Render(articles: seq<KnowledgeArticle>): string {
    if articles == [] then NO_RESULTS_MESSAGE else Join("\n\n", Lines(articles))
  }

  /** What a search without any cache answers on the given table. */
  function UncachedAnswer(table: Table, q: Query): string {
    Render(Search(table, q.category, q.text, MAX_RESULTS))
  }

  function Paragraph(article: KnowledgeArticle): string {
    article.title + ": " + article.content
  }

  /**
   The answer in full: a message exactly when the table has no row of the category, and otherwise
   the best three rows or fewer, one paragraph each.
   */
  lemma AnswerListsTheBestThree(table: Table, q: Query)
    ensures var found := Search(table, q.category, q.text, 3);
            var rows := set i: nat | i < |table| && table[i].category == q.category;
            var text := UncachedAnswer(table, q);
            && (rows == {} <==> found == []) && |found| <= 3
            && match |found|
               case 0 => text == "No relevant knowledge-base articles were found."
               case 1 => text == Paragraph(found[0])
               case 2 => text == Paragraph(found[0]) + "\n\n" + Paragraph(found[1])
               case _ => text == Paragraph(found[0]) + "\n\n" + Paragraph(found[1]) + "\n\n" + Paragraph(found[2])
  {
    var found := Search(table, q.category, q.text, 3);
    var at := SearchFindsTheBest(table, q.category, q.text, 3);
    EmptyRows(table, q.category);
    if |found| == 1 {
      JoinOne(Lines(found));
    } else if |found| == 2 {
      JoinTwo(Lines(found));
    } else if |found| == 3 {
      JoinTwo(Lines(found)[1..]);
    }
  }

  lemma EmptyRows(table: Table, category: string)
    ensures var rows := set i: nat | i < |table| && table[i].category == category;
            rows == {} <==> |rows| == 0
  {}

  lemma JoinOne(lines: seq<string>)
    requires |lines| == 1
    ensures Join("\n\n", lines) == lines[0]
  {}

  lemma JoinTwo(lines: seq<string>)
    requires |lines| == 2
    ensures Join("\n\n", lines) == lines[0] + "\n\n" + lines[1]
  {}

  /** Two queries share a cache entry exactly when they are in one category and have the same words up to case. */
  lemma QueriesShareExactly(q1: Query, q2: Query)
    ensures QueryKey(q1) == QueryKey(q2) <==> q1.category == q2.category && SameWords(q1.text, q2.text)
  {
    KeysAgreeExactly(CACHE_KEY_PREFIX, q1.category, q1.text, CACHE_KEY_PREFIX, q2.category, q2.text);
  }

  function QueryKey(q: Query): CacheKey {
    BuildCacheKey(CACHE_KEY_PREFIX, [q.category, NormalizeText(q.text)])
  }

  function KnowledgeProtocol(ttl: nat): Protocol<Query, string, Table> {
    Protocol(QueryKey, (q: Query, table: Table, text: string) => text == UncachedAnswer(table, q), ttl)
  }

  type KnowledgeState = State<Query, string, Table>

  /** The tool's answer as the agent sees it; None stands for a call that raised. */
  function TextOf(answer: Answer<string>): Option<string> {
    match answer
    case FromCache(text, _, _) => Some(text)
    case Computed(text, _) => Some(text)
    case ComputationFailed => Some(UNAVAILABLE_MESSAGE)
    case Aborted => None
  }

  lemma SameKeySameAnswer(table: Table, q1: Query, q2: Query)
    requires QueryKey(q1) == QueryKey(q2)
    ensures UncachedAnswer(table, q1) == UncachedAnswer(table, q2)
  {
    SharedKeySameSearch(CACHE_KEY_PREFIX, q1.category, q1.text, q2.category, q2.text, table, MAX_RESULTS);
  }

  /** The text is what an uncached search for `q` answers on a table that was current at `t`. */
  ghost predicate AnswersAsOf(versions: seq<Version<Table>>, v: nat, t: nat, q: Query, text: string) {
    CurrentAt(versions, v, t) && text == UncachedAnswer(versions[v].db, q)
  }

  /**
   Bounded staleness. In every run, with any number of concurrent calls, table updates and cache
   failures, a call that does not raise answers with the unavailable message of a search that
   failed in this very call, or with exactly what an uncached search for its own query answers on
   a recorded state of the table: for an answer computed in this call, the state this call
   searched; for an answer from the cache, the state that the call which wrote it had searched,
   which lies back less than the time to live plus the time that call took from its search to its
   write.
   */
  lemma BoundedStaleness(ttl: nat, table: Table, es: seq<Event<Query, string, Table>>, r: CallId)
    requires IsRun(KnowledgeProtocol(ttl), Init(table), es)
    requires r in Run(KnowledgeProtocol(ttl), Init(table), es).calls
    requires Run(KnowledgeProtocol(ttl), Init(table), es).calls[r].phase.Answered?
    ensures var s := Run(KnowledgeProtocol(ttl), Init(table), es);
            var Call(q, Answered(answer, at)) := s.calls[r];
            match answer
            case FromCache(text, source, setAt) =>
              && source < |s.computed|
              && var c := s.computed[source];
                 && AnswersAsOf(s.versions, c.version, c.at, q, text)
                 && c.caller in s.calls && StoredThen(s.calls[c.caller].phase, text, source, setAt)
                 && c.at <= setAt <= at && at - c.at < ttl + (setAt - c.at)
            case Computed(text, source) =>
              && source < |s.computed|
              && var c := s.computed[source];
                 c.caller == r && c.at <= at && AnswersAsOf(s.versions, c.version, c.at, q, text)
            case ComputationFailed => TextOf(answer) == Some("Knowledge-base lookup is unavailable right now.")
            case Aborted => TextOf(answer) == None
  {
    var p := KnowledgeProtocol(ttl);
    RunKeepsInv(p, Init(table), es);
    var s := Run(p, Init(table), es);
    var call := s.calls[r];
    assert CallOk(p, s.now, s.computed, s.calls, r, call);
    match call.phase.answer {
      case FromCache(text, source, setAt) =>
        var c := s.computed[source];
        assert ComputationOk(p, s.now, s.versions, c);
        SameKeySameAnswer(s.versions[c.version].db, c.input, call.input);
      case Computed(text, source) =>
        assert ComputationOk(p, s.now, s.versions, s.computed[source]);
      case _ =>
    }
  }

  /** The events of a call that searches. */
  function SearchStory(r: CallId, text: string, fails: bool, delivery: Delivery): seq<Event<Query, string, Table>> {
    if fails then [Compute(r, None)] else [Compute(r, Some(text)), StoreResult(r, delivery)]
  }

  class KnowledgeBaseSearchTool {
    const category: Category
    const world: CacheWorld<Query, string, Table>

    constructor (category: Category, world: CacheWorld<Query, string, Table>)
      ensures this.category == category && this.world == world
    {
      this.category := category;
      this.world := world;
    }

    /** What the search makes of the table it sees: a message, or the articles as text. */
    method SearchText(table: Table, q: Query) returns (text: string)
      requires q.category == category
      ensures text == UncachedAnswer(table, q)
    {
      var articles := Search(table, category, q.text, MAX_RESULTS);
      if articles == [] {
        text := NO_RESULTS_MESSAGE;
      } else {
        text := Join("\n\n", Lines(articles));
      }
    }

    /**
     The search after a miss: a failure is reported and not cached, a result is cached and
     returned. `found` is the result as text; it is lost only if the write is cut off.
     */
    method SearchAndCache(cache: RedisCache<Query, string, Table>, r: CallId, searchFails: bool, setDelivery: Delivery)
      returns (text: Option<string>, ghost found: string)
      requires cache.world == world && world.Valid()
      requires r in world.state.calls && world.state.calls[r].phase.Computing?
      requires world.state.calls[r].input.category == category
      requires exists ttl :: world.protocol == KnowledgeProtocol(ttl)
      modifies world
      ensures world.Valid() && old(world.trace) <= world.trace && r in world.state.calls
      ensures world.state.calls[r].input == old(world.state.calls[r]).input
      ensures world.state.calls[r].phase.Answered? && text == TextOf(world.state.calls[r].phase.answer)
      ensures if searchFails then world.state.calls[r].phase.answer.ComputationFailed?
              else !world.state.calls[r].phase.answer.FromCache?
                   && text == if setDelivery.Cut() then None else Some(found)
      ensures Own(r, world.trace) == Own(r, old(world.trace))
              + SearchStory(r, found, searchFails, setDelivery)
    {
      world.Interleave(r);
      world.IsSound();
      if searchFails {
        world.Act(r, Compute(r, None));
        return Some(UNAVAILABLE_MESSAGE), "";
      }
      var q := world.state.calls[r].input;
      var result := SearchText(world.state.versions[|world.state.versions| - 1].db, q);
      var raised := cache.Keep(r, result, setDelivery);
      text, found := if raised then None else Some(result), result;
    }

    /**
     `_run`. The call is part of a run of the cache-aside protocol in which it looks up once,
     searches exactly when that gives no text, and writes the cache exactly when its search
     succeeded; what it returns is the answer recorded for it. It raises exactly when one of its
     two cache operations is cut off, as when `run_sync` has no loop; a failing search never does
     that.
     */
    method Run(r: CallId, query: string, getDelivery: Delivery, searchFails: bool, setDelivery: Delivery)
      returns (text: Option<string>, hit: bool, ghost found: string)
      requires world.Valid() && r !in world.state.calls && Own(r, world.trace) == []
      requires exists ttl :: world.protocol == KnowledgeProtocol(ttl)
      modifies world
      ensures world.Valid() && old(world.trace) <= world.trace && r in world.state.calls
      ensures world.state.calls[r].input == Query(category, query)
      ensures world.state.calls[r].phase.Answered? && text == TextOf(world.state.calls[r].phase.answer)
      ensures hit <==> world.state.calls[r].phase.answer.FromCache?
      ensures getDelivery.Raised() ==> !hit
      ensures text.None? <==> getDelivery.Cut() || (!hit && !searchFails && setDelivery.Cut())
      ensures !hit && text.Some? ==> text.value == if searchFails then UNAVAILABLE_MESSAGE else found
      ensures Own(r, world.trace) == [StartCall(r, Query(category, query))] + [LookUp(r, getDelivery)]
              + if hit || getDelivery.Cut() then [] else SearchStory(r, found, searchFails, setDelivery)
    {
      var cache := new RedisCache(world);
      var cached, raised := cache.Open(r, Query(category, query), getDelivery);
      if raised {
        return None, false, "";
      }
      if cached.Some? && cached.value.Good? {
        return Some(cached.value.value), true, "";
      }
      text, found := SearchAndCache(cache, r, searchFails, setDelivery);
      hit := false;
    }
  }
}
