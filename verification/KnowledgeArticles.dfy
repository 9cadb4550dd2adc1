/**
 `backend/database/repositories/knowledge_article.py`: keyword extraction, ranking, search.
 */
module KnowledgeArticles {
  import opened Text
  import opened Regex
  import opened StableSort
  import opened CacheKeys

  datatype KnowledgeArticle = KnowledgeArticle(category: string, title: string, content: string, createdAt: nat)

  const MIN_WORD_LENGTH := 3

  predicate IsWordChar(c: char) {
    'a' <= c <= 'z' || 'A' <= c <= 'Z' || c == '\''
  }

  function Keywords(text: string): set<string> {
    set word | word in FindAll(OneOrMore(IsWordChar), Lower(text)) && |word| >= MIN_WORD_LENGTH
  }

  function Overlap(queryWords: set<string>, article: KnowledgeArticle): nat {
    |queryWords * Keywords(article.title + " " + article.content)|
  }

  function ScoreBy(queryWords: set<string>): KnowledgeArticle -> int {
    article => Overlap(queryWords, article)
  }

  function RankByKeywordOverlap(articles: seq<KnowledgeArticle>, queryText: string, limit: nat): seq<KnowledgeArticle> {
    if articles == [] then []
    else
      var score := ScoreBy(Keywords(queryText));
      var ranked := SortDesc(articles, score);
      if score(ranked[0]) == 0 then Take(articles, limit) else Take(ranked, limit)
  }

  function InCategory(table: seq<KnowledgeArticle>, category: string): seq<KnowledgeArticle> {
    if table == [] then []
    else (if table[0].category == category then [table[0]] else []) + InCategory(table[1..], category)
  }

  /** The table's articles of one category, most recent first; ties come in table order. */
  function MostRecentFirst(table: seq<KnowledgeArticle>, category: string): seq<KnowledgeArticle> {
    SortDesc(InCategory(table, category), (article: KnowledgeArticle) => article.createdAt)
  }

  function Search(table: seq<KnowledgeArticle>, category: string, queryText: string, limit: nat)
    : seq<KnowledgeArticle>
  {
    RankByKeywordOverlap(MostRecentFirst(table, category), queryText, limit)
  }

  // ---- The tokenizer cannot see what normalization removes ----

  lemma KeywordsOfNormalForm(text: string)
    ensures Keywords(NormalizeText(text)) == Keywords(text)
  {
    FindAllGivesSegments(IsWordChar, Lower(text));
    FindAllGivesSegments(IsWordChar, Lower(NormalizeText(text)));
    NormalFormIsTidy(text);
    NormalizeKeepsSegments(IsWordChar, text);
    LowerCommutesWithSegments(IsWordChar, text);
  }

  /** Lookups that share a cache key rank the same articles, whatever the table holds. */
  lemma SharedKeySameSearch(prefix: string, category1: string, query1: string, category2: string, query2: string,
                            table: seq<KnowledgeArticle>, limit: nat)
    requires ':' !in category1 && ':' !in category2
    requires BuildCacheKey(prefix, [category1, NormalizeText(query1)])
          == BuildCacheKey(prefix, [category2, NormalizeText(query2)])
    ensures Search(table, category1, query1, limit) == Search(table, category2, query2, limit)
  {
    JoinIsInjective(category1, NormalizeText(query1), category2, NormalizeText(query2));
    KeywordsOfNormalForm(query1);
    KeywordsOfNormalForm(query2);
  }

  // ---- The ranking is a stable top-k ----

  /** Returning the incoming order when nothing overlaps is what sorting would have done anyway. */
  lemma FallbackAgreesWithRanking(articles: seq<KnowledgeArticle>, queryText: string, limit: nat)
    ensures RankByKeywordOverlap(articles, queryText, limit)
         == Take(SortDesc(articles, ScoreBy(Keywords(queryText))), limit)
  {
    var score := ScoreBy(Keywords(queryText));
    var ranked := SortDesc(articles, score);
    if articles != [] && score(ranked[0]) == 0 {
      forall i | 0 <= i < |articles| ensures score(articles[i]) == 0 {
        SortPutsEachAtItsPosition(articles, score, i);
        SortDescends(articles, score);
        assert score(ranked[0]) >= score(ranked[Position(articles, score, i)]);
      }
      SortOfEquals(articles, score);
    }
  }

  /** An article is returned, at its position, when that position is within the limit, and beats all those left out. */
  lemma RankingIsStableTopK(articles: seq<KnowledgeArticle>, queryText: string, limit: nat, i: nat)
    requires i < |articles|
    ensures var score := ScoreBy(Keywords(queryText));
            var result := RankByKeywordOverlap(articles, queryText, limit);
            && |result| == (if limit <= |articles| then limit else |articles|)
            && (Position(articles, score, i) < limit ==>
                  Position(articles, score, i) < |result| && result[Position(articles, score, i)] == articles[i])
            && (Position(articles, score, i) >= limit ==>
                  forall k :: 0 <= k < |result| ==> score(result[k]) >= score(articles[i]))
  {
    var score := ScoreBy(Keywords(queryText));
    FallbackAgreesWithRanking(articles, queryText, limit);
    SortPutsEachAtItsPosition(articles, score, i);
    SortDescends(articles, score);
    var ranked := SortDesc(articles, score);
    if Position(articles, score, i) >= limit {
      forall k | 0 <= k < limit ensures score(ranked[k]) >= score(articles[i]) {
        assert ranked[Position(articles, score, i)] == articles[i];
      }
    }
  }

  /** A new article takes at most the last place; every other result stays, in the same order. */
  lemma NewArticleEvictsAtMostOne(articles: seq<KnowledgeArticle>, p: nat, article: KnowledgeArticle,
                                  queryText: string, limit: nat)
    returns (m: nat)
    requires p <= |articles|
    ensures var before := RankByKeywordOverlap(articles, queryText, limit);
            var after := RankByKeywordOverlap(InsertAt(articles, p, article), queryText, limit);
            if m < limit then m <= |before| && after == Take(InsertAt(before, m, article), limit)
            else after == before
  {
    var score := ScoreBy(Keywords(queryText));
    m := SortOfInsertion(articles, p, article, score);
    FallbackAgreesWithRanking(articles, queryText, limit);
    FallbackAgreesWithRanking(InsertAt(articles, p, article), queryText, limit);
    TakeOfInsertion(SortDesc(articles, score), m, article, limit);
  }
}
