/**
 Text as Python's `str` sees it: which characters count as whitespace, how `lower()` and
 `strip()` act, and the reference notion the scanners are compared with, the maximal runs
 of characters of one kind.
 */
module Text {

  /** The characters for which `str.isspace()` and the regular expression class `\s` hold. */
  predicate IsSpace(c: char) {
    var n := c as int;
    || 0x09 <= n <= 0x0D || 0x1C <= n <= 0x20 || n == 0x85 || n == 0xA0 || n == 0x1680
    || 0x2000 <= n <= 0x200A || n == 0x2028 || n == 0x2029 || n == 0x202F || n == 0x205F || n == 0x3000
  }

  /** The code points one by one: tabs and line breaks, separators, and the blanks of Unicode. */
  lemma SpacesAreThese(c: char)
    ensures IsSpace(c) <==>
            c as int in {9, 10, 11, 12, 13, 28, 29, 30, 31, 32, 133, 160, 5760, 8192, 8193, 8194, 8195, 8196, 8197,
                         8198, 8199, 8200, 8201, 8202, 8232, 8233, 8239, 8287, 12288}
  {}

  predicate NotSpace(c: char) {
    !IsSpace(c)
  }

  predicate IsDigit(c: char) {
    '0' <= c <= '9'
  }

  function LowerChar(c: char): char {
    if 'A' <= c <= 'Z' then (c as int + 32) as char else c
  }

  function Lower(s: string): string {
    seq(|s|, i requires 0 <= i < |s| => LowerChar(s[i]))
  }

  function LStrip(s: string): string {
    if s != [] && IsSpace(s[0]) then LStrip(s[1..]) else s
  }

  function RStrip(s: string): string {
    if s != [] && IsSpace(s[|s| - 1]) then RStrip(s[..|s| - 1]) else s
  }

  function Strip(s: string): string {
    RStrip(LStrip(s))
  }

  /** `sep.join(parts)` */
  function Join(sep: string, parts: seq<string>): string {
    if parts == [] then ""
    else if |parts| == 1 then parts[0]
    else parts[0] + sep + Join(sep, parts[1..])
  }

  /** The length of the longest prefix of `s` all of whose characters satisfy `p`. */
  function PrefixRun(p: char -> bool, s: string): (n: nat)
    ensures n <= |s|
    ensures forall i :: 0 <= i < n ==> p(s[i])
    ensures n < |s| ==> !p(s[n])
  {
    if s != [] && p(s[0]) then 1 + PrefixRun(p, s[1..]) else 0
  }

  /** The maximal runs of `p`-characters in `s`, in order. */
  function Segments(p: char -> bool, s: string): seq<string> {
    if s == [] then []
    else if !p(s[0]) then Segments(p, s[1..])
    else [s[..PrefixRun(p, s)]] + Segments(p, s[PrefixRun(p, s)..])
  }

  /** `w` stands at `s[i..j]`, consists of `p`-characters, and extends to neither side. */
  ghost predicate MaximalRun(p: char -> bool, s: string, i: nat, j: nat) {
    && i < j <= |s|
    && (forall k :: i <= k < j ==> p(s[k]))
    && (i == 0 || !p(s[i - 1]))
    && (j == |s| || !p(s[j]))
  }

  /** Whitespace-separated words, as `str.split()` gives them. */
  function Words(s: string): seq<string> {
    Segments(NotSpace, s)
  }

  // ---- Case ----

  lemma LowerAppend(a: string, b: string)
    ensures Lower(a + b) == Lower(a) + Lower(b)
  {}

  lemma LetterPair(k: nat)
    requires k < 26
    ensures "ABCDEFGHIJKLMNOPQRSTUVWXYZ"[k] as int == 65 + k && "abcdefghijklmnopqrstuvwxyz"[k] as int == 97 + k
  {}

  /** Lower-casing turns each capital into its own small letter and leaves the rest alone. */
  lemma LowerByLetter(s: string, i: nat, k: nat)
    requires i < |s| && k < 26
    ensures s[i] == "ABCDEFGHIJKLMNOPQRSTUVWXYZ"[k] ==> Lower(s)[i] == "abcdefghijklmnopqrstuvwxyz"[k]
    ensures !('A' <= s[i] <= 'Z') ==> Lower(s)[i] == s[i]
  {
    LetterPair(k);
  }

  lemma LowerIdempotent(s: string)
    ensures Lower(Lower(s)) == Lower(s)
  {}

  // ---- Runs ----

  lemma PrefixRunUnique(p: char -> bool, s: string, n: nat)
    requires n <= |s|
    requires forall i :: 0 <= i < n ==> p(s[i])
    requires n < |s| ==> !p(s[n])
    ensures PrefixRun(p, s) == n
  {
  }

  /** The segments of a suffix, by its first character. */
  lemma SegmentsStep(p: char -> bool, t: string, from: nat, n: nat)
    requires from < |t| && n == if p(t[from]) then PrefixRun(p, t[from..]) else 1
    ensures 0 < n && from + n <= |t|
    ensures p(t[from]) ==> Segments(p, t[from..]) == [t[from..from + n]] + Segments(p, t[from + n..])
    ensures !p(t[from]) ==> Segments(p, t[from..]) == Segments(p, t[from + n..])
  {
    var u := t[from..];
    assert u[n..] == t[from + n..] && u[..n] == t[from..from + n];
  }

  lemma SegmentsOfRun(p: char -> bool, w: string, rest: string)
    requires w != [] && forall i :: 0 <= i < |w| ==> p(w[i])
    requires rest == [] || !p(rest[0])
    ensures Segments(p, w + rest) == [w] + Segments(p, rest)
  {
    PrefixRunUnique(p, w + rest, |w|);
    assert (w + rest)[..|w|] == w && (w + rest)[|w|..] == rest;
  }

  lemma MaximalRunInSuffix(p: char -> bool, s: string, n: nat, i: nat, j: nat)
    requires n <= |s|
    requires n == 0 || !p(s[n - 1]) || (n < |s| ==> !p(s[n]))
    requires n <= i < j
    ensures MaximalRun(p, s, i, j) <==> MaximalRun(p, s[n..], i - n, j - n)
    ensures j <= |s| ==> s[i..j] == s[n..][i - n..j - n]
  {}

  /** Every maximal run of `s` is one of its segments. */
  lemma {:induction false} MaximalRunIsSegment(p: char -> bool, s: string, i: nat, j: nat)
    requires MaximalRun(p, s, i, j)
    ensures s[i..j] in Segments(p, s)
    decreases |s|
  {
    var n := if p(s[0]) then PrefixRun(p, s) else 1;
    if n <= i {
      MaximalRunInSuffix(p, s, n, i, j);
      MaximalRunIsSegment(p, s[n..], i - n, j - n);
      SegmentOfRest(p, s, n, s[i..j]);
    } else {
      assert i == 0;
      FirstRunIsSegment(p, s, j);
    }
  }

  lemma SegmentOfRest(p: char -> bool, s: string, n: nat, w: string)
    requires s != "" && n == (if p(s[0]) then PrefixRun(p, s) else 1) && w in Segments(p, s[n..])
    ensures w in Segments(p, s)
  {}

  lemma FirstRunIsSegment(p: char -> bool, s: string, j: nat)
    requires MaximalRun(p, s, 0, j)
    ensures s[0..j] in Segments(p, s)
  {
    PrefixRunUnique(p, s, j);
    assert Segments(p, s)[0] == s[..j];
  }

  /** Every segment of `s` is one of its maximal runs. */
  lemma {:induction false} SegmentIsMaximalRun(p: char -> bool, s: string, w: string) returns (i: nat, j: nat)
    requires w in Segments(p, s)
    ensures MaximalRun(p, s, i, j) && s[i..j] == w
    decreases |s|
  {
    var n := if p(s[0]) then PrefixRun(p, s) else 1;
    if p(s[0]) && w == s[..n] {
      i, j := 0, n;
    } else {
      i, j := SegmentIsMaximalRun(p, s[n..], w);
      i, j := i + n, j + n;
      MaximalRunInSuffix(p, s, n, i, j);
    }
  }

  lemma SegmentsAreRuns(p: char -> bool, s: string)
    ensures forall w :: w in Segments(p, s) ==> w != [] && forall i :: 0 <= i < |w| ==> p(w[i])
  {
    if s != [] {
      SegmentsAreRuns(p, s[if p(s[0]) then PrefixRun(p, s) else 1..]);
    }
  }
}
