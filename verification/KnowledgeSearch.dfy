/**
 What `KnowledgeArticleRepository.search` returns, said of the table itself: which rows, how many,
 in which order; and what counts as a keyword and as overlap.
 */
module KnowledgeSearch {
  import opened Text
  import opened Regex
  import opened StableSort
  import opened CacheKeys
  import opened KnowledgeArticles

  // ---- Keywords ----

  /** In a text without capitals, the characters of words. */
  predicate IsLetterOrApostrophe(c: char) {
    'a' <= c <= 'z' || c == '\''
  }

  /** `word` stands in `text` between characters that are no letters, and is at least three characters long. */
  ghost predicate StandsIn(word: string, text: string) {
    exists i: nat, j: nat :: MaximalRun(IsLetterOrApostrophe, text, i, j) && text[i..j] == word && j - i >= 3
  }

  lemma {:induction false} SegmentsOfSameClass(p: char -> bool, q: char -> bool, s: string)
    requires forall i :: 0 <= i < |s| ==> p(s[i]) == q(s[i])
    ensures Segments(p, s) == Segments(q, s)
    decreases |s|
  {
    if s != [] {
      var n := if p(s[0]) then PrefixRun(p, s) else 1;
      PrefixRunUnique(q, s, PrefixRun(p, s));
      SegmentsOfSameClass(p, q, s[n..]);
    }
  }

  /** The keywords of a text are the words of three characters or more in its lower-case form. */
  lemma KeywordsAreTheWords(text: string, word: string)
    ensures word in Keywords(text) <==> StandsIn(word, Lower(text))
  {
    var lower := Lower(text);
    FindAllGivesSegments(IsWordChar, lower);
    SegmentsOfSameClass(IsWordChar, IsLetterOrApostrophe, lower);
    if word in Keywords(text) {
      var i, j := SegmentIsMaximalRun(IsLetterOrApostrophe, lower, word);
    }
    if StandsIn(word, lower) {
      var i: nat, j: nat :|
        MaximalRun(IsLetterOrApostrophe, lower, i, j) && lower[i..j] == word && j - i >= 3;
      MaximalRunIsSegment(IsLetterOrApostrophe, lower, i, j);
    }
  }

  lemma {:induction false} SegmentsAroundBlank(p: char -> bool, a: string, b: string)
    requires !p(' ')
    ensures Segments(p, a + " " + b) == Segments(p, a) + Segments(p, b)
    decreases |a|
  {
    if a == "" {
      assert a + " " + b == [' '] + b && ([' '] + b)[1..] == b;
    } else if p(a[0]) {
      SegmentsAroundBlank(p, a[PrefixRun(p, a)..], b);
      FirstSegment(p, a, b);
    } else {
      SegmentsAroundBlank(p, a[1..], b);
      assert (a + " " + b)[1..] == a[1..] + " " + b;
    }
  }

  lemma FirstSegment(p: char -> bool, a: string, b: string)
    requires !p(' ') && a != "" && p(a[0])
    ensures Segments(p, a) == [a[..PrefixRun(p, a)]] + Segments(p, a[PrefixRun(p, a)..])
    ensures Segments(p, a + " " + b) == [a[..PrefixRun(p, a)]] + Segments(p, a[PrefixRun(p, a)..] + " " + b)
  {
    var s, n := a + " " + b, PrefixRun(p, a);
    assert s[n..] == a[n..] + " " + b && s[..n] == a[..n];
    PrefixRunUnique(p, s, n);
  }

  /** The keywords of a title and a content joined by a blank are those of either. */
  lemma KeywordsOfBoth(a: string, b: string)
    ensures Keywords(a + " " + b) == Keywords(a) + Keywords(b)
  {
    FindAllGivesSegments(IsWordChar, Lower(a));
    FindAllGivesSegments(IsWordChar, Lower(b));
    FindAllGivesSegments(IsWordChar, Lower(a + " " + b));
    LowerAppend(a + " ", b);
    LowerAppend(a, " ");
    assert Lower(" ") == " ";
    SegmentsAroundBlank(IsWordChar, Lower(a), Lower(b));
  }

  /** An article's overlap is the number of the query's keywords that are keywords of its title or its content. */
  lemma OverlapCountsSharedWords(words: set<string>, article: KnowledgeArticle)
    ensures Overlap(words, article)
         == |set w | w in words && (w in Keywords(article.title) || w in Keywords(article.content))|
  {
    KeywordsOfBoth(article.title, article.content);
    assert words * Keywords(article.title + " " + article.content)
        == set w | w in words && (w in Keywords(article.title) || w in Keywords(article.content));
  }

  // ---- Sorting places instead of elements ----

  ghost predicate Within(at: seq<nat>, n: nat) {
    forall k :: 0 <= k < |at| ==> at[k] < n
  }

  /** The elements of `table` at the given places. */
  ghost function Pick<T>(table: seq<T>, at: seq<nat>): seq<T>
    requires Within(at, |table|)
  {
    seq(|at|, k requires 0 <= k < |at| && at[k] < |table| => table[at[k]])
  }

  /** The score of the element at a place. */
  function ScoreAt<T>(table: seq<T>, score: T -> int): nat -> int {
    (i: nat) => if i < |table| then score(table[i]) else 0
  }

  lemma PickCons<T>(table: seq<T>, i: nat, at: seq<nat>)
    requires i < |table| && Within(at, |table|)
    ensures Within([i] + at, |table|) && Pick(table, [i] + at) == [table[i]] + Pick(table, at)
  {}

  lemma {:induction false} InsertPicked<T>(table: seq<T>, i: nat, at: seq<nat>, score: T -> int)
    requires i < |table| && Within(at, |table|)
    ensures Within(InsertDesc(i, at, ScoreAt(table, score)), |table|)
    ensures Pick(table, InsertDesc(i, at, ScoreAt(table, score))) == InsertDesc(table[i], Pick(table, at), score)
    decreases |at|
  {
    if at != [] && score(table[at[0]]) > score(table[i]) {
      InsertPicked(table, i, at[1..], score);
      PickCons(table, at[0], InsertDesc(i, at[1..], ScoreAt(table, score)));
      assert Pick(table, at)[1..] == Pick(table, at[1..]);
    } else {
      PickCons(table, i, at);
    }
  }

  lemma {:induction false} SortPicked<T>(table: seq<T>, at: seq<nat>, score: T -> int)
    requires Within(at, |table|)
    ensures Within(SortDesc(at, ScoreAt(table, score)), |table|)
    ensures Pick(table, SortDesc(at, ScoreAt(table, score))) == SortDesc(Pick(table, at), score)
    decreases |at|
  {
    if at != [] {
      SortPicked(table, at[1..], score);
      InsertPicked(table, at[0], SortDesc(at[1..], ScoreAt(table, score)), score);
      assert Pick(table, at)[1..] == Pick(table, at[1..]);
    }
  }

  // ---- The rows of a category ----

  predicate IsRowOf(table: seq<KnowledgeArticle>, category: string, i: nat) {
    i < |table| && table[i].category == category
  }

  /** The places from `from` on at which the table has a row of the category. */
  function RowsFrom(table: seq<KnowledgeArticle>, category: string, from: nat): seq<nat>
    requires from <= |table|
    decreases |table| - from
  {
    if from == |table| then []
    else if table[from].category == category then [from] + RowsFrom(table, category, from + 1)
    else RowsFrom(table, category, from + 1)
  }

  lemma {:induction false} RowsAreTheRows(table: seq<KnowledgeArticle>, category: string, from: nat, i: nat)
    requires from <= |table|
    ensures i in RowsFrom(table, category, from) <==> from <= i && IsRowOf(table, category, i)
    decreases |table| - from
  {
    if from < |table| {
      RowsAreTheRows(table, category, from + 1, i);
    }
  }

  lemma {:induction false} RowsIncrease(table: seq<KnowledgeArticle>, category: string, from: nat)
    requires from <= |table|
    ensures IncreaseFrom(RowsFrom(table, category, from), from)
    decreases |table| - from
  {
    if from < |table| {
      RowsIncrease(table, category, from + 1);
    }
  }

  ghost predicate IncreaseFrom(at: seq<nat>, from: nat) {
    && (forall k :: 0 <= k < |at| ==> from <= at[k])
    && (forall k, l :: 0 <= k < l < |at| ==> at[k] < at[l])
  }

  lemma {:induction false} SelectedRows(table: seq<KnowledgeArticle>, category: string, from: nat)
    requires from <= |table|
    ensures Within(RowsFrom(table, category, from), |table|)
    ensures InCategory(table[from..], category) == Pick(table, RowsFrom(table, category, from))
    decreases |table| - from
  {
    if from < |table| {
      SelectedRows(table, category, from + 1);
      assert table[from..][1..] == table[from + 1..];
      if table[from].category == category {
        PickCons(table, from, RowsFrom(table, category, from + 1));
      }
    }
  }

  /** The places from `from` on at which the table has a row of the category, as a set. */
  function RowSet(table: seq<KnowledgeArticle>, category: string, from: nat): set<nat> {
    set i | from <= i < |table| && table[i].category == category
  }

  lemma {:induction false} RowsCounted(table: seq<KnowledgeArticle>, category: string, from: nat)
    requires from <= |table|
    ensures |RowsFrom(table, category, from)| == |RowSet(table, category, from)|
    decreases |table| - from
  {
    if from < |table| {
      RowsCounted(table, category, from + 1);
      var rest := RowSet(table, category, from + 1);
      assert RowSet(table, category, from) == if table[from].category == category then {from} + rest else rest;
    }
  }

  // ---- The result ----

  /** Row `i` comes before row `j`: more overlap, or as much and newer, or as new and earlier in the table. */
  predicate RanksBefore(table: seq<KnowledgeArticle>, words: set<string>, i: nat, j: nat)
    requires i < |table| && j < |table|
  {
    var a, b := Overlap(words, table[i]), Overlap(words, table[j]);
    || a > b
    || (a == b && (table[i].createdAt > table[j].createdAt || (table[i].createdAt == table[j].createdAt && i < j)))
  }

  predicate Newer(table: seq<KnowledgeArticle>, i: nat, j: nat) {
    && i < |table| && j < |table|
    && (table[i].createdAt > table[j].createdAt || (table[i].createdAt == table[j].createdAt && i < j))
  }

  /** The places hold exactly the rows of the category, most recent first. */
  ghost predicate Candidates(table: seq<KnowledgeArticle>, category: string, at: seq<nat>) {
    && Within(at, |table|)
    && (forall i: nat :: i in at <==> IsRowOf(table, category, i))
    && |at| == |RowSet(table, category, 0)|
    && (forall k, l :: 0 <= k < l < |at| ==> Newer(table, at[k], at[l]))
  }

  function ByAge(): KnowledgeArticle -> int {
    (article: KnowledgeArticle) => article.createdAt
  }

  lemma CandidatesInOrder(table: seq<KnowledgeArticle>, category: string) returns (at: seq<nat>)
    ensures Candidates(table, category, at) && MostRecentFirst(table, category) == Pick(table, at)
  {
    var rows := RowsFrom(table, category, 0);
    SelectedRows(table, category, 0);
    assert table[0..] == table;
    RowsCounted(table, category, 0);
    var score := ScoreAt(table, ByAge());
    at := SortDesc(rows, score);
    SortPicked(table, rows, ByAge());
    SameScores(InCategory(table, category), ByAge(), (article: KnowledgeArticle) => article.createdAt);
    forall i: nat ensures i in at <==> IsRowOf(table, category, i) {
      SortKeepsMember(rows, score, i);
      RowsAreTheRows(table, category, 0, i);
    }
    SortedRowsAreNewer(table, category, rows);
  }

  lemma SortedRowsAreNewer(table: seq<KnowledgeArticle>, category: string, rows: seq<nat>)
    requires rows == RowsFrom(table, category, 0)
    ensures var at := SortDesc(rows, ScoreAt(table, ByAge()));
            forall k, l :: 0 <= k < l < |at| ==> Newer(table, at[k], at[l])
  {
    RowsIncrease(table, category, 0);
    SelectedRows(table, category, 0);
    SortPicked(table, rows, ByAge());
    var earlier := (i: nat, j: nat) => i < j;
    SortOrders(rows, ScoreAt(table, ByAge()), earlier);
    var at := SortDesc(rows, ScoreAt(table, ByAge()));
    forall k, l | 0 <= k < l < |at| ensures Newer(table, at[k], at[l]) {
      assert at[k] < |table| && at[l] < |table|;
      assert Before<nat>(at[k], at[l], ScoreAt(table, ByAge()), earlier);
      assert ScoreAt(table, ByAge())(at[k]) == table[at[k]].createdAt;
      assert ScoreAt(table, ByAge())(at[l]) == table[at[l]].createdAt;
    }
  }

  lemma {:induction false} SameInsert<T>(x: T, ys: seq<T>, a: T -> int, b: T -> int)
    requires forall y :: a(y) == b(y)
    ensures InsertDesc(x, ys, a) == InsertDesc(x, ys, b)
  {
    if ys != [] {
      SameInsert(x, ys[1..], a, b);
    }
  }

  lemma {:induction false} SameScores<T>(xs: seq<T>, a: T -> int, b: T -> int)
    requires forall x :: a(x) == b(x)
    ensures SortDesc(xs, a) == SortDesc(xs, b)
  {
    if xs != [] {
      SameScores(xs[1..], a, b);
      SameInsert(xs[0], SortDesc(xs[1..], b), a, b);
    }
  }

  /** Each place ranks before all later ones. */
  ghost predicate Ranked(table: seq<KnowledgeArticle>, words: set<string>, at: seq<nat>) {
    && Within(at, |table|)
    && (forall k, l :: 0 <= k < l < |at| ==> RanksBefore(table, words, at[k], at[l]))
  }

  /** All candidates, best first. */
  lemma CandidatesRanked(table: seq<KnowledgeArticle>, category: string, words: set<string>) returns (at: seq<nat>)
    ensures Ranked(table, words, at) && |at| == |RowSet(table, category, 0)|
    ensures forall i: nat :: i in at <==> IsRowOf(table, category, i)
    ensures SortDesc(MostRecentFirst(table, category), ScoreBy(words)) == Pick(table, at)
  {
    var recent := CandidatesInOrder(table, category);
    var score := ScoreAt(table, ScoreBy(words));
    at := SortDesc(recent, score);
    SortPicked(table, recent, ScoreBy(words));
    forall i: nat ensures i in at <==> IsRowOf(table, category, i) {
      SortKeepsMember(recent, score, i);
    }
    SortedAreRanked(table, category, words, recent);
  }

  lemma SortedAreRanked(table: seq<KnowledgeArticle>, category: string, words: set<string>, recent: seq<nat>)
    requires Candidates(table, category, recent)
    ensures Ranked(table, words, SortDesc(recent, ScoreAt(table, ScoreBy(words))))
  {
    var newer := (i: nat, j: nat) => Newer(table, i, j);
    var score := ScoreAt(table, ScoreBy(words));
    SortPicked(table, recent, ScoreBy(words));
    SortOrders(recent, score, newer);
    var at := SortDesc(recent, score);
    forall k, l | 0 <= k < l < |at| ensures RanksBefore(table, words, at[k], at[l]) {
      assert Before<nat>(at[k], at[l], score, newer);
    }
  }

  /**
   `search`, said of the table: the results are rows of the category, as many as there are up to
   the limit; each comes before all later ones and before every row of the category left out, by
   overlap, then by age, then by place in the table. `at` gives the place of each result.
   */
  lemma SearchFindsTheBest(table: seq<KnowledgeArticle>, category: string, queryText: string, limit: nat)
    returns (at: seq<nat>)
    ensures var result := Search(table, category, queryText, limit);
            var rows := set i: nat | i < |table| && table[i].category == category;
            && |result| == |at| == (if limit <= |rows| then limit else |rows|)
            && (forall k :: 0 <= k < |at| ==> at[k] in rows && result[k] == table[at[k]])
            && (forall k, l :: 0 <= k < l < |at| ==> RanksBefore(table, Keywords(queryText), at[k], at[l]))
            && (forall k, i :: 0 <= k < |at| && i in rows && i !in at ==>
                  RanksBefore(table, Keywords(queryText), at[k], i))
  {
    var all := CandidatesRanked(table, category, Keywords(queryText));
    FallbackAgreesWithRanking(MostRecentFirst(table, category), queryText, limit);
    var rows := set i: nat | i < |table| && table[i].category == category;
    assert rows == RowSet(table, category, 0);
    at := Take(all, limit);
    assert forall m :: 0 <= m < |at| ==> at[m] == all[m];
    forall k, i | 0 <= k < |at| && i in rows && i !in at ensures RanksBefore(table, Keywords(queryText), at[k], i) {
      assert IsRowOf(table, category, i);
      var l :| 0 <= l < |all| && all[l] == i;
    }
    forall k | 0 <= k < |at| ensures at[k] in rows {
      assert all[k] in all;
      assert IsRowOf(table, category, all[k]);
    }
  }
}
