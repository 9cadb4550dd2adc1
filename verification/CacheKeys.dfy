/**
 `backend/core/cache.py`: the normal form of a text and the cache keys built from it.
 */
module CacheKeys {
  import opened Text
  import opened Regex

  const WHITESPACE: Pattern := OneOrMore(IsSpace)

  /** `_WHITESPACE_PATTERN.sub(" ", text)` */
  function Collapse(text: string): string {
    Sub(WHITESPACE, " ", text, 0)
  }

  function NormalizeText(text: string): string {
    Lower(Strip(Collapse(text)))
  }

  /** SHA-256, taken to be injective: a digest is known by what was hashed. */
  datatype Digest = Sha256(preimage: string)

  datatype CacheKey = CacheKey(prefix: string, digest: Digest)

  function BuildCacheKey(prefix: string, parts: seq<string>): CacheKey {
    CacheKey(prefix, Sha256(Join(":", parts)))
  }

  function LowerAll(words: seq<string>): seq<string> {
    seq(|words|, i requires 0 <= i < |words| => Lower(words[i]))
  }

  /** The two texts have the same whitespace-separated words up to case. */
  predicate SameWords(a: string, b: string) {
    LowerAll(Words(a)) == LowerAll(Words(b))
  }

  /** Whitespace occurs only as single blanks strictly inside the text. */
  predicate Tidy(s: string) {
    forall i :: 0 <= i < |s| && IsSpace(s[i]) ==> s[i] == ' ' && 0 < i < |s| - 1 && !IsSpace(s[i + 1])
  }

  // ---- Collapsing and stripping, seen by a scanner that treats all whitespace alike ----

  ghost predicate BlindToSpaces(p: char -> bool) {
    forall c :: p(c) ==> !IsSpace(c)
  }

  function SubFrom(t: string, from: nat): string
    requires from <= |t|
  {
    Sub(WHITESPACE, " ", t, from)
  }

  lemma SubStep(t: string, from: nat)
    requires from < |t|
    ensures SubFrom(t, from) ==
            if IsSpace(t[from]) then " " + SubFrom(t, from + PrefixRun(IsSpace, t[from..]))
            else [t[from]] + SubFrom(t, from + 1)
  {
    OneOrMoreIsGreedy(IsSpace, t[from..]);
  }

  lemma {:induction false} SubKeepsWord(t: string, from: nat, stop: nat)
    requires from <= stop <= |t|
    requires forall i :: from <= i < stop ==> !IsSpace(t[i])
    ensures SubFrom(t, from) == t[from..stop] + SubFrom(t, stop)
    decreases stop - from
  {
    if from < stop {
      SubStep(t, from);
      SubKeepsWord(t, from + 1, stop);
      SliceThen(t, from, stop, SubFrom(t, stop));
    }
  }

  lemma SliceThen(t: string, from: nat, stop: nat, rest: string)
    requires from < stop <= |t|
    ensures t[from..stop] + rest == [t[from]] + (t[from + 1..stop] + rest)
  {
    assert t[from..stop] == [t[from]] + t[from + 1..stop];
  }

  lemma SubHead(t: string, from: nat)
    requires from <= |t|
    ensures from == |t| ==> SubFrom(t, from) == ""
    ensures from < |t| ==> SubFrom(t, from) != "" && (SubFrom(t, from)[0] == if IsSpace(t[from]) then ' ' else t[from])
  {
    if from < |t| {
      SubStep(t, from);
    }
  }

  lemma SubKeepsFirstSegment(p: char -> bool, t: string, from: nat, n: nat)
    requires BlindToSpaces(p) && from < |t| && p(t[from])
    requires n == PrefixRun(p, t[from..])
    ensures Segments(p, SubFrom(t, from)) == [t[from..from + n]] + Segments(p, SubFrom(t, from + n))
    ensures Segments(p, t[from..]) == [t[from..from + n]] + Segments(p, t[from + n..])
  {
    SegmentsStep(p, t, from, n);
    RunAt(p, t, from, n);
    SubKeepsWord(t, from, from + n);
    SubHead(t, from + n);
    SegmentsOfRun(p, t[from..from + n], SubFrom(t, from + n));
  }

  /** A run at `from`, seen in the whole text. */
  lemma RunAt(p: char -> bool, t: string, from: nat, n: nat)
    requires BlindToSpaces(p) && from < |t| && p(t[from])
    requires n == PrefixRun(p, t[from..])
    ensures from + n <= |t| && 0 < n
    ensures forall i :: from <= i < from + n ==> p(t[i]) && !IsSpace(t[i])
    ensures from + n < |t| ==> !p(t[from + n])
  {
    var u := t[from..];
    forall i | from <= i < from + n ensures p(t[i]) && !IsSpace(t[i]) {
      assert t[i] == u[i - from];
    }
    assert from + n < |t| ==> t[from + n] == u[n];
  }

  lemma SubSkips(p: char -> bool, t: string, from: nat, n: nat)
    requires BlindToSpaces(p) && from < |t| && !p(t[from])
    requires n == if IsSpace(t[from]) then PrefixRun(IsSpace, t[from..]) else 1
    ensures Segments(p, t[from..]) == Segments(p, t[from + n..])
    ensures Segments(p, SubFrom(t, from)) == Segments(p, SubFrom(t, from + n))
  {
    SegmentsSkip(p, t[from..], n);
    assert t[from..][n..] == t[from + n..];
    SubStep(t, from);
    SegmentsSkip(p, SubFrom(t, from), 1);
  }

  lemma {:induction false} SubKeepsSegments(p: char -> bool, t: string, from: nat)
    requires BlindToSpaces(p) && from <= |t|
    ensures Segments(p, SubFrom(t, from)) == Segments(p, t[from..])
    decreases |t| - from
  {
    if from < |t| {
      var n := if p(t[from]) then PrefixRun(p, t[from..])
               else if IsSpace(t[from]) then PrefixRun(IsSpace, t[from..])
               else 1;
      assert 0 < n <= |t| - from;
      SubKeepsSegments(p, t, from + n);
      SubKeepsOneMore(p, t, from, n);
    }
  }

  lemma SubKeepsOneMore(p: char -> bool, t: string, from: nat, n: nat)
    requires BlindToSpaces(p) && from < |t|
    requires n == if p(t[from]) then PrefixRun(p, t[from..])
                  else if IsSpace(t[from]) then PrefixRun(IsSpace, t[from..])
                  else 1
    requires Segments(p, SubFrom(t, from + n)) == Segments(p, t[from + n..])
    ensures Segments(p, SubFrom(t, from)) == Segments(p, t[from..])
  {
    if p(t[from]) {
      SubKeepsFirstSegment(p, t, from, n);
    } else {
      SubSkips(p, t, from, n);
    }
  }

  lemma {:induction false} SegmentsSkip(p: char -> bool, s: string, n: nat)
    requires n <= |s| && forall i :: 0 <= i < n ==> !p(s[i])
    ensures Segments(p, s) == Segments(p, s[n..])
    decreases n
  {
    if 0 < n {
      SegmentsSkip(p, s[1..], n - 1);
      assert s[1..][n - 1..] == s[n..];
    }
  }

  lemma {:induction false} SegmentsDropLast(p: char -> bool, s: string)
    requires s != [] && !p(s[|s| - 1])
    ensures Segments(p, s) == Segments(p, s[..|s| - 1])
    decreases |s|
  {
    var init := s[..|s| - 1];
    if init != [] {
      if p(s[0]) {
        var n := PrefixRun(p, s);
        PrefixRunUnique(p, init, n);
        SegmentsDropLast(p, s[n..]);
        assert s[n..][..|s| - n - 1] == init[n..];
        assert s[..n] == init[..n];
      } else {
        SegmentsDropLast(p, s[1..]);
        assert s[1..][..|s| - 2] == init[1..];
      }
    }
  }

  lemma {:induction false} LStripKeepsSegments(p: char -> bool, s: string)
    requires BlindToSpaces(p)
    ensures Segments(p, LStrip(s)) == Segments(p, s)
    decreases |s|
  {
    if s != [] && IsSpace(s[0]) {
      LStripKeepsSegments(p, s[1..]);
    }
  }

  lemma {:induction false} RStripKeepsSegments(p: char -> bool, s: string)
    requires BlindToSpaces(p)
    ensures Segments(p, RStrip(s)) == Segments(p, s)
    decreases |s|
  {
    if s != [] && IsSpace(s[|s| - 1]) {
      SegmentsDropLast(p, s);
      RStripKeepsSegments(p, s[..|s| - 1]);
    }
  }

  lemma {:induction false} LowerCommutesWithSegments(p: char -> bool, s: string)
    requires forall c :: p(LowerChar(c)) == p(c)
    ensures Segments(p, Lower(s)) == LowerAll(Segments(p, s))
    decreases |s|
  {
    if s != [] {
      var n := if p(s[0]) then PrefixRun(p, s) else 1;
      LowerCommutesWithSegments(p, s[n..]);
      assert Lower(s)[n..] == Lower(s[n..]);
      if p(s[0]) {
        forall i | 0 <= i < n ensures p(Lower(s)[i]) {
          assert p(s[i]);
        }
        PrefixRunUnique(p, Lower(s), n);
        assert Lower(s)[..n] == Lower(s[..n]);
      }
    }
  }

  /** No scanner that is blind to whitespace and case can tell a text from its normal form. */
  lemma NormalizeKeepsSegments(p: char -> bool, t: string)
    requires BlindToSpaces(p) && forall c :: p(LowerChar(c)) == p(c)
    ensures Segments(p, NormalizeText(t)) == LowerAll(Segments(p, t))
  {
    var s := Strip(Collapse(t));
    LowerCommutesWithSegments(p, s);
    RStripKeepsSegments(p, LStrip(Collapse(t)));
    LStripKeepsSegments(p, Collapse(t));
    SubKeepsSegments(p, t, 0);
    assert t[0..] == t;
  }

  // ---- The normal form is the words joined by single blanks ----

  lemma {:induction false} RStripAppend(a: string, b: string)
    requires RStrip(b) != "" || (a != "" && !IsSpace(a[|a| - 1]))
    ensures RStrip(a + b) == a + RStrip(b)
    decreases |b|
  {
    if b == "" {
      assert a + b == a;
    } else if IsSpace(b[|b| - 1]) {
      RStripAppend(a, b[..|b| - 1]);
      assert (a + b)[..|a + b| - 1] == a + b[..|b| - 1];
    }
  }

  lemma JoinCons(sep: string, w: string, rest: seq<string>)
    ensures Join(sep, [w] + rest) == if rest == [] then w else w + (sep + Join(sep, rest))
  {
    assert ([w] + rest)[1..] == rest;
    assert w + sep + Join(sep, rest) == w + (sep + Join(sep, rest));
  }

  lemma SkipSpaces(t: string, from: nat, n: nat)
    requires from < |t| && IsSpace(t[from])
    requires n == PrefixRun(IsSpace, t[from..])
    ensures Words(t[from..]) == Words(t[from + n..])
    ensures from + n < |t| ==> !IsSpace(t[from + n])
  {
    SegmentsSkip(NotSpace, t[from..], n);
    assert t[from..][n..] == t[from + n..];
  }

  lemma TakeWord(t: string, from: nat, n: nat)
    requires from < |t| && !IsSpace(t[from])
    requires n == PrefixRun(NotSpace, t[from..])
    ensures 0 < n && Words(t[from..]) == [t[from..from + n]] + Words(t[from + n..])
    ensures from + n < |t| ==> IsSpace(t[from + n])
    ensures !IsSpace(t[from + n - 1])
    ensures SubFrom(t, from) == t[from..from + n] + SubFrom(t, from + n)
  {
    var u := t[from..];
    assert NotSpace(u[0]) && NotSpace(u[n - 1]);
    assert n < |u| ==> !NotSpace(u[n]);
    forall i | from <= i < from + n ensures !IsSpace(t[i]) {
      assert NotSpace(u[i - from]);
    }
    SubKeepsWord(t, from, from + n);
    assert u[..n] == t[from..from + n] && u[n..] == t[from + n..];
  }

  /** What stripping on the right leaves of the collapsed rest of a text. */
  function Rendered(t: string, from: nat): string
    requires from <= |t|
  {
    var ws := Words(t[from..]);
    (if ws != [] && IsSpace(t[from]) then " " else "") + Join(" ", ws)
  }

  lemma SpaceBefore(sub: string, rest: string, joined: string)
    requires sub == " " + rest && RStrip(rest) == joined
    ensures RStrip(sub) == if joined == "" then "" else " " + joined
  {
    if joined != "" {
      RStripAppend(" ", rest);
    } else {
      RStripToNothing(rest);
    }
  }

  lemma {:induction false} RStripToNothing(s: string)
    requires RStrip(s) == ""
    ensures RStrip(" " + s) == ""
    decreases |s|
  {
    if s == "" {
      assert " " + s == " " && " "[..0] == "";
    } else {
      assert (" " + s)[..|s|] == " " + s[..|s| - 1];
      RStripToNothing(s[..|s| - 1]);
    }
  }

  lemma RStripAfterSpaces(t: string, from: nat, n: nat)
    requires from < |t| && IsSpace(t[from])
    requires n == PrefixRun(IsSpace, t[from..])
    requires RStrip(SubFrom(t, from + n)) == Rendered(t, from + n)
    ensures RStrip(SubFrom(t, from)) == Rendered(t, from)
  {
    SubStep(t, from);
    SkipSpaces(t, from, n);
    if from + n < |t| {
      JoinStartsWithWord(t[from + n..]);
    }
    SpaceBefore(SubFrom(t, from), SubFrom(t, from + n), Join(" ", Words(t[from + n..])));
  }

  lemma RStripAfterWord(t: string, from: nat, n: nat)
    requires from < |t| && !IsSpace(t[from])
    requires n == PrefixRun(NotSpace, t[from..])
    requires RStrip(SubFrom(t, from + n)) == Rendered(t, from + n)
    ensures RStrip(SubFrom(t, from)) == Rendered(t, from)
  {
    TakeWord(t, from, n);
    var w := t[from..from + n];
    JoinCons(" ", w, Words(t[from + n..]));
    RStripAppend(w, SubFrom(t, from + n));
  }

  lemma {:induction false} RStripOfSub(t: string, from: nat)
    requires from <= |t|
    ensures RStrip(SubFrom(t, from)) == Rendered(t, from)
    decreases |t| - from
  {
    if from < |t| {
      var n := PrefixRun(if IsSpace(t[from]) then IsSpace else NotSpace, t[from..]);
      RStripOfSub(t, from + n);
      if IsSpace(t[from]) {
        RStripAfterSpaces(t, from, n);
      } else {
        RStripAfterWord(t, from, n);
      }
    }
  }

  lemma JoinStartsWithWord(u: string)
    requires u != "" && !IsSpace(u[0])
    ensures Words(u) != [] && Join(" ", Words(u)) != ""
  {
    var n := PrefixRun(NotSpace, u);
    assert Words(u) == [u[..n]] + Words(u[n..]);
    JoinCons(" ", u[..n], Words(u[n..]));
  }

  lemma StripCollapseJoinsWords(t: string)
    ensures Strip(Collapse(t)) == Join(" ", Words(t))
  {
    assert t[0..] == t;
    RStripOfSub(t, 0);
    if t != "" {
      SubStep(t, 0);
      if IsSpace(t[0]) {
        var n := PrefixRun(IsSpace, t);
        RStripOfSub(t, n);
        SegmentsSkip(NotSpace, t, n);
        if n < |t| {
          SubStep(t, n);
        }
        assert Collapse(t)[1..] == SubFrom(t, n);
        assert LStrip(Collapse(t)) == SubFrom(t, n);
      }
    }
  }

  lemma {:induction false} LowerJoin(words: seq<string>)
    ensures Lower(Join(" ", words)) == Join(" ", LowerAll(words))
    decreases |words|
  {
    if |words| > 1 {
      LowerJoin(words[1..]);
      assert LowerAll(words)[1..] == LowerAll(words[1..]);
      LowerAppend(words[0] + " ", Join(" ", words[1..]));
      LowerAppend(words[0], " ");
    }
  }

  // ---- Main results ----

  lemma NormalFormIsLoweredWords(t: string)
    ensures NormalizeText(t) == Join(" ", LowerAll(Words(t)))
    ensures Words(NormalizeText(t)) == LowerAll(Words(t))
  {
    StripCollapseJoinsWords(t);
    LowerJoin(Words(t));
    NormalizeKeepsSegments(NotSpace, t);
  }

  /** Two texts share a normal form exactly when they have the same words up to case. */
  lemma NormalizeIdentifiesExactlySameWords(a: string, b: string)
    ensures NormalizeText(a) == NormalizeText(b) <==> SameWords(a, b)
  {
    NormalFormIsLoweredWords(a);
    NormalFormIsLoweredWords(b);
  }

  lemma NormalizeIdempotent(t: string)
    ensures NormalizeText(NormalizeText(t)) == NormalizeText(t)
  {
    NormalFormIsLoweredWords(t);
    NormalFormIsLoweredWords(NormalizeText(t));
    var ws := Words(t);
    forall i | 0 <= i < |ws| ensures Lower(Lower(ws[i])) == Lower(ws[i]) {
      LowerIdempotent(ws[i]);
    }
    assert LowerAll(LowerAll(ws)) == LowerAll(ws);
  }

  lemma {:induction false} JoinIsTidy(words: seq<string>)
    requires forall w :: w in words ==> w != "" && forall i :: 0 <= i < |w| ==> !IsSpace(w[i])
    ensures Tidy(Join(" ", words))
    ensures words != [] ==> Join(" ", words) != "" && !IsSpace(Join(" ", words)[0])
    decreases |words|
  {
    if |words| > 1 {
      JoinIsTidy(words[1..]);
      assert words[0] in words && words[1] in words;
    } else if |words| == 1 {
      assert words[0] in words;
    }
  }

  /** A normal form has no leading, trailing or doubled whitespace and no capitals. */
  lemma NormalFormIsTidy(t: string)
    ensures Tidy(NormalizeText(t)) && Lower(NormalizeText(t)) == NormalizeText(t)
  {
    StripCollapseJoinsWords(t);
    SegmentsAreRuns(NotSpace, t);
    forall w | w in Words(t) ensures w != "" && forall i :: 0 <= i < |w| ==> !IsSpace(w[i]) {
      forall i | 0 <= i < |w| ensures !IsSpace(w[i]) {
        assert NotSpace(w[i]);
      }
    }
    JoinIsTidy(Words(t));
    LowerIdempotent(Strip(Collapse(t)));
  }

  predicate IsNormalForm(s: string) {
    Tidy(s) && Lower(s) == s
  }

  lemma {:induction false} CollapseOfTidy(s: string, from: nat)
    requires Tidy(s) && from <= |s|
    ensures SubFrom(s, from) == s[from..]
    decreases |s| - from
  {
    if from < |s| {
      SubStep(s, from);
      CollapseOfTidy(s, from + 1);
      assert s[from..] == [s[from]] + s[from + 1..];
      if IsSpace(s[from]) {
        PrefixRunUnique(IsSpace, s[from..], 1);
      }
    }
  }

  /** The normal forms are exactly the tidy texts without capitals, and those are left as they are. */
  lemma NormalFormsAreFixed(s: string)
    ensures IsNormalForm(s) <==> NormalizeText(s) == s
  {
    NormalFormIsTidy(s);
    if IsNormalForm(s) {
      CollapseOfTidy(s, 0);
      assert s[0..] == s;
    }
  }

  // ---- Keys ----

  lemma JoinPair(sep: string, a: string, b: string)
    ensures Join(sep, [a, b]) == a + sep + b
  {
    assert [a, b][1..] == [b];
  }

  predicate NotColon(c: char) {
    c != ':'
  }

  lemma FirstColon(a: string, b: string)
    requires ':' !in a
    ensures PrefixRun(NotColon, a + ":" + b) == |a|
  {
    PrefixRunUnique(NotColon, a + ":" + b, |a|);
  }

  /** The ":"-join of two parts can be taken apart again when the first part has no colon. */
  lemma JoinIsInjective(a1: string, b1: string, a2: string, b2: string)
    requires ':' !in a1 && ':' !in a2
    requires Join(":", [a1, b1]) == Join(":", [a2, b2])
    ensures a1 == a2 && b1 == b2
  {
    JoinPair(":", a1, b1);
    JoinPair(":", a2, b2);
    FirstColon(a1, b1);
    FirstColon(a2, b2);
    var j := Join(":", [a1, b1]);
    assert a1 == j[..|a1|] && b1 == j[|a1| + 1..];
    assert a2 == j[..|a2|] && b2 == j[|a2| + 1..];
  }

  /** A join that starts with two different first parts makes one of them, with a colon, a prefix of the other. */
  lemma EqualJoins(a1: string, b1: string, a2: string, b2: string)
    requires Join(":", [a1, b1]) == Join(":", [a2, b2]) && |a1| <= |a2|
    ensures a1 == a2 ==> b1 == b2
    ensures a1 != a2 ==> a1 + ":" <= a2 && b1 == a2[|a1| + 1..] + ":" + b2
  {
    JoinPair(":", a1, b1);
    JoinPair(":", a2, b2);
    var j := Join(":", [a1, b1]);
    assert a1 == j[..|a1|] && b1 == j[|a1| + 1..] && j[|a1|] == ':';
    assert a2 == j[..|a2|] && b2 == j[|a2| + 1..];
    if |a1| == |a2| {
      assert a1 == a2;
    } else {
      assert a2[..|a1| + 1] == a1 + ":";
      assert b1 == a2[|a1| + 1..] + ":" + b2;
    }
  }

  /** A join that the prefix allows is a collision. */
  lemma PrefixCollides(a1: string, a2: string, b2: string)
    requires a1 + ":" <= a2
    ensures Join(":", [a1, a2[|a1| + 1..] + ":" + b2]) == Join(":", [a2, b2])
  {
    JoinPair(":", a1, a2[|a1| + 1..] + ":" + b2);
    JoinPair(":", a2, b2);
    assert a2 == a1 + ":" + a2[|a1| + 1..];
    assert a1 + ":" + (a2[|a1| + 1..] + ":" + b2) == a2 + ":" + b2;
  }

  /** No pair that starts with `a1` shares its join with another pair that starts with `a2`. */
  ghost predicate NeverCollide(a1: string, a2: string) {
    forall b1, b2 :: Join(":", [a1, b1]) == Join(":", [a2, b2]) ==> a1 == a2 && b1 == b2
  }

  /** Two first parts never collide exactly when neither, followed by a colon, is a prefix of the other. */
  lemma JoinsCollideExactly(a1: string, a2: string)
    ensures NeverCollide(a1, a2) <==> !(a1 + ":" <= a2) && !(a2 + ":" <= a1)
  {
    if a1 + ":" <= a2 {
      PrefixCollides(a1, a2, "");
    }
    if a2 + ":" <= a1 {
      PrefixCollides(a2, a1, "");
    }
    forall b1, b2 | Join(":", [a1, b1]) == Join(":", [a2, b2])
      ensures (a1 == a2 && b1 == b2) || a1 + ":" <= a2 || a2 + ":" <= a1
    {
      if |a1| <= |a2| {
        EqualJoins(a1, b1, a2, b2);
      } else {
        EqualJoins(a2, b2, a1, b1);
      }
    }
  }

  /** What a lookup in `category` for `text` is stored under. */
  function LookupKey(prefix: string, category: string, text: string): CacheKey {
    BuildCacheKey(prefix, [category, NormalizeText(text)])
  }

  /** `b` is `a`, a colon and a rest that, followed by another colon, is in normal form. */
  predicate Shadows(a: string, b: string) {
    a + ":" <= b && IsNormalForm(b[|a| + 1..] + ":")
  }

  /** Lookups in the two categories share a key only if they are in one category and for the same words. */
  ghost predicate NeverShareAKey(prefix: string, c1: string, c2: string) {
    forall t1, t2 :: LookupKey(prefix, c1, t1) == LookupKey(prefix, c2, t2) ==> c1 == c2 && SameWords(t1, t2)
  }

  /** Whatever the categories, they keep their lookups apart exactly when neither shadows the other. */
  lemma LookupsCollideExactly(prefix: string, c1: string, c2: string)
    ensures NeverShareAKey(prefix, c1, c2) <==> !Shadows(c1, c2) && !Shadows(c2, c1)
  {
    if Shadows(c1, c2) {
      ShadowCollides(prefix, c1, c2);
    }
    if Shadows(c2, c1) {
      ShadowCollides(prefix, c2, c1);
    }
    forall t1, t2 | LookupKey(prefix, c1, t1) == LookupKey(prefix, c2, t2)
      ensures (c1 == c2 && SameWords(t1, t2)) || Shadows(c1, c2) || Shadows(c2, c1)
    {
      if |c1| <= |c2| {
        SharedKeyShadows(prefix, c1, t1, c2, t2);
      } else {
        SharedKeyShadows(prefix, c2, t2, c1, t1);
      }
    }
  }

  lemma ShadowCollides(prefix: string, a: string, b: string)
    requires Shadows(a, b)
    ensures LookupKey(prefix, a, b[|a| + 1..] + ":") == LookupKey(prefix, b, "") && a != b
  {
    var t := b[|a| + 1..] + ":";
    NormalFormsAreFixed(t);
    NormalFormsAreFixed("");
    PrefixCollides(a, b, "");
    assert t + "" == t;
  }

  lemma SharedKeyShadows(prefix: string, a: string, t1: string, b: string, t2: string)
    requires LookupKey(prefix, a, t1) == LookupKey(prefix, b, t2) && |a| <= |b|
    ensures (a == b && SameWords(t1, t2)) || Shadows(a, b)
  {
    EqualJoins(a, NormalizeText(t1), b, NormalizeText(t2));
    if a == b {
      NormalizeIdentifiesExactlySameWords(t1, t2);
    } else {
      NormalFormIsTidy(t1);
      NormalUpToColon(b[|a| + 1..], NormalizeText(t2));
    }
  }

  lemma NormalUpToColon(x: string, y: string)
    requires IsNormalForm(x + ":" + y)
    ensures IsNormalForm(x + ":")
  {
    var s, t := x + ":" + y, x + ":";
    assert s[..|t|] == t;
    forall i | 0 <= i < |t| ensures t[i] == s[i] && Lower(t)[i] == t[i] {
      assert Lower(s)[i] == s[i];
    }
  }

  /** One collision, of two literal pairs. */
  lemma ColonsCollide()
    ensures BuildCacheKey("p", ["a:b", "c"]) == BuildCacheKey("p", ["a", "b:c"])
  {
    JoinPair(":", "a:b", "c");
    JoinPair(":", "a", "b:c");
    assert "a:b" + ":" + "c" == "a" + ":" + "b:c";
  }

  /** Two lookups share a key exactly when they agree on the prefix, the category and the words up to case. */
  lemma KeysAgreeExactly(prefix1: string, category1: string, text1: string,
                         prefix2: string, category2: string, text2: string)
    requires ':' !in category1 && ':' !in category2
    ensures BuildCacheKey(prefix1, [category1, NormalizeText(text1)])
         == BuildCacheKey(prefix2, [category2, NormalizeText(text2)])
       <==> prefix1 == prefix2 && category1 == category2 && SameWords(text1, text2)
  {
    NormalizeIdentifiesExactlySameWords(text1, text2);
    if BuildCacheKey(prefix1, [category1, NormalizeText(text1)])
       == BuildCacheKey(prefix2, [category2, NormalizeText(text2)]) {
      JoinIsInjective(category1, NormalizeText(text1), category2, NormalizeText(text2));
    }
  }
}
