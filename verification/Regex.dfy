/**
 The fragment of Python's `re` the repository uses: character classes, greedy repetition of
 a class, a greedy optional group, and sequencing. `Lengths` is the backtracking semantics:
 the lengths of all prefixes a pattern can match, in the order the engine tries them. The
 engine reports the first one, and `finditer`, `findall` and `sub` are built on it.
 */
module Regex {
  import opened Text

  datatype Pattern =
    | Class(p: char -> bool)
    | Many(p: char -> bool)
    | Maybe(inner: Pattern)
    | Then(first: Pattern, second: Pattern)

  /** `[p]+` */
  function OneOrMore(p: char -> bool): Pattern {
    Then(Class(p), Many(p))
  }

  /** The pattern matches no empty text. */
  predicate Consumes(re: Pattern) {
    match re
    case Class(_) => true
    case Many(_) => false
    case Maybe(_) => false
    case Then(a, b) => Consumes(a) || Consumes(b)
  }

  function Shift(n: nat, lengths: seq<nat>): seq<nat> {
    seq(|lengths|, i requires 0 <= i < |lengths| => n + lengths[i])
  }

  /** The lengths of the prefixes of `t` that `re` matches, in the engine's order of preference. */
  function Lengths(re: Pattern, t: string): (ns: seq<nat>)
    ensures forall i :: 0 <= i < |ns| ==> (if Consumes(re) then 1 else 0) <= ns[i] <= |t|
    decreases re, 0, |t|
  {
    match re
    case Class(p) => if t != [] && p(t[0]) then [1] else []
    case Many(p) => if t != [] && p(t[0]) then Shift(1, Lengths(re, t[1..])) + [0] else [0]
    case Maybe(r) => Lengths(r, t) + [0]
    case Then(a, b) => Continue(Consumes(a), b, t, Lengths(a, t))
  }

  /** Every way to match `re` after one of the prefixes `starts`, earlier prefixes first. */
  function Continue(nonempty: bool, re: Pattern, t: string, starts: seq<nat>): (ns: seq<nat>)
    requires forall i :: 0 <= i < |starts| ==> (if nonempty then 1 else 0) <= starts[i] <= |t|
    ensures forall i :: 0 <= i < |ns| ==> (if nonempty || Consumes(re) then 1 else 0) <= ns[i] <= |t|
    decreases re, 1, |starts|
  {
    if starts == [] then []
    else Shift(starts[0], Lengths(re, t[starts[0]..])) + Continue(nonempty, re, t, starts[1..])
  }

  predicate Matches(re: Pattern, t: string) {
    Lengths(re, t) != []
  }

  /** The length of the match the engine reports at the start of `t`. */
  function MatchLength(re: Pattern, t: string): (n: nat)
    requires Matches(re, t)
    ensures n <= |t| && (Consumes(re) ==> 0 < n)
  {
    Lengths(re, t)[0]
  }

  datatype Span = Span(start: nat, end: nat)

  /** `re.finditer`, from position `from` on. */
  function FindIter(re: Pattern, t: string, from: nat): (spans: seq<Span>)
    requires Consumes(re) && from <= |t|
    ensures forall i :: 0 <= i < |spans| ==> from <= spans[i].start < spans[i].end <= |t|
    decreases |t| - from
  {
    if from == |t| then []
    else if Matches(re, t[from..]) then
      var end := from + MatchLength(re, t[from..]);
      [Span(from, end)] + FindIter(re, t, end)
    else FindIter(re, t, from + 1)
  }

  /** `re.findall` for a pattern without groups. */
  function FindAll(re: Pattern, t: string): seq<string>
    requires Consumes(re)
  {
    Slices(t, FindIter(re, t, 0))
  }

  function Slices(t: string, spans: seq<Span>): seq<string>
    requires forall i :: 0 <= i < |spans| ==> spans[i].start <= spans[i].end <= |t|
  {
    seq(|spans|, i requires 0 <= i < |spans| => t[spans[i].start..spans[i].end])
  }

  /** `re.sub` with a fixed replacement, from position `from` on. */
  function Sub(re: Pattern, replacement: string, t: string, from: nat): string
    requires Consumes(re) && from <= |t|
    decreases |t| - from
  {
    if from == |t| then []
    else if Matches(re, t[from..]) then replacement + Sub(re, replacement, t, from + MatchLength(re, t[from..]))
    else [t[from]] + Sub(re, replacement, t, from + 1)
  }

  // ---- What the engine reports for the shapes of pattern in use ----

  lemma {:induction false} ManyIsGreedy(p: char -> bool, t: string)
    ensures Matches(Many(p), t) && MatchLength(Many(p), t) == PrefixRun(p, t)
    decreases |t|
  {
    if t != [] && p(t[0]) {
      ManyIsGreedy(p, t[1..]);
    }
  }

  /** When the preferred way to match `a` lets `b` go on, the engine takes it. */
  lemma ThenTakesFirst(a: Pattern, b: Pattern, t: string)
    requires Matches(a, t) && Matches(b, t[MatchLength(a, t)..])
    ensures Matches(Then(a, b), t)
    ensures MatchLength(Then(a, b), t) == MatchLength(a, t) + MatchLength(b, t[MatchLength(a, t)..])
  {
    var ns := Lengths(a, t);
    assert Lengths(Then(a, b), t)
        == Shift(ns[0], Lengths(b, t[ns[0]..])) + Continue(Consumes(a), b, t, ns[1..]);
  }

  lemma ThenAfterNone(a: Pattern, b: Pattern, t: string)
    requires !Matches(a, t)
    ensures !Matches(Then(a, b), t)
  {
    assert Lengths(Then(a, b), t) == Continue(Consumes(a), b, t, []);
  }

  lemma ThenAfterOne(a: Pattern, b: Pattern, t: string, n: nat)
    requires n <= |t| && Lengths(a, t) == [n]
    ensures Lengths(Then(a, b), t) == Shift(n, Lengths(b, t[n..]))
  {
    assert [n][1..] == [];
    assert Lengths(Then(a, b), t) == Shift(n, Lengths(b, t[n..])) + Continue(Consumes(a), b, t, []);
  }

  lemma ThenAfterTwo(a: Pattern, b: Pattern, t: string, n: nat, m: nat)
    requires n <= |t| && m <= |t| && Lengths(a, t) == [n, m]
    ensures Lengths(Then(a, b), t) == Shift(n, Lengths(b, t[n..])) + Shift(m, Lengths(b, t[m..]))
  {
    assert [n, m][1..] == [m] && [m][1..] == [];
    assert Lengths(Then(a, b), t) == Shift(n, Lengths(b, t[n..])) + Continue(Consumes(a), b, t, [m]);
    assert Continue(Consumes(a), b, t, [m]) == Shift(m, Lengths(b, t[m..])) + Continue(Consumes(a), b, t, []);
  }

  /** Where the engine leaves `a` and enters `b` in its match of `Then(a, b)` at the start of `t`. */
  function SplitPoint(a: Pattern, b: Pattern, t: string): (n: nat)
    requires Matches(Then(a, b), t)
    ensures n in Lengths(a, t) && Matches(b, t[n..])
    ensures MatchLength(Then(a, b), t) == n + MatchLength(b, t[n..])
  {
    FirstThatContinues(Consumes(a), b, t, Lengths(a, t))
  }

  function FirstThatContinues(nonempty: bool, b: Pattern, t: string, starts: seq<nat>): (n: nat)
    requires forall i :: 0 <= i < |starts| ==> (if nonempty then 1 else 0) <= starts[i] <= |t|
    requires Continue(nonempty, b, t, starts) != []
    ensures n in starts && n <= |t| && Matches(b, t[n..])
    ensures Continue(nonempty, b, t, starts)[0] == n + MatchLength(b, t[n..])
    decreases |starts|
  {
    if Matches(b, t[starts[0]..]) then starts[0]
    else FirstThatContinues(nonempty, b, t, starts[1..])
  }

  /** The text of a capturing group around `b` in the engine's match of `Then(a, b)`. */
  function SecondGroup(a: Pattern, b: Pattern, t: string): string
    requires Matches(Then(a, b), t)
  {
    t[SplitPoint(a, b, t)..MatchLength(Then(a, b), t)]
  }

  lemma OneOrMoreIsGreedy(p: char -> bool, t: string)
    ensures Matches(OneOrMore(p), t) <==> t != [] && p(t[0])
    ensures Matches(OneOrMore(p), t) ==> MatchLength(OneOrMore(p), t) == PrefixRun(p, t)
  {
    if t != [] && p(t[0]) {
      ManyIsGreedy(p, t[1..]);
      ThenTakesFirst(Class(p), Many(p), t);
    } else {
      ThenAfterNone(Class(p), Many(p), t);
    }
  }

  /** `finditer("[p]+")` from position `from` on. */
  function FindRuns(p: char -> bool, t: string, from: nat): (spans: seq<Span>)
    requires from <= |t|
    ensures forall i :: 0 <= i < |spans| ==> from <= spans[i].start < spans[i].end <= |t|
  {
    FindIter(OneOrMore(p), t, from)
  }

  lemma FindRunsStep(p: char -> bool, t: string, from: nat)
    requires from < |t|
    ensures var n := PrefixRun(p, t[from..]);
            FindRuns(p, t, from) ==
            if p(t[from]) then [Span(from, from + n)] + FindRuns(p, t, from + n) else FindRuns(p, t, from + 1)
  {
    OneOrMoreIsGreedy(p, t[from..]);
    assert t[from..][0] == t[from];
  }

  lemma {:induction false} FindRunsGivesSegments(p: char -> bool, t: string, from: nat)
    requires from <= |t|
    ensures Slices(t, FindRuns(p, t, from)) == Segments(p, t[from..])
    decreases |t| - from
  {
    if from == |t| {
      assert t[from..] == "";
    } else if p(t[from]) {
      var n := PrefixRun(p, t[from..]);
      FindRunsGivesSegments(p, t, from + n);
      RunIsSegment(p, t, from, n);
    } else {
      FindRunsGivesSegments(p, t, from + 1);
      FindRunsStep(p, t, from);
      SegmentsStep(p, t, from, 1);
    }
  }

  lemma RunIsSegment(p: char -> bool, t: string, from: nat, n: nat)
    requires from < |t| && p(t[from]) && n == PrefixRun(p, t[from..])
    requires Slices(t, FindRuns(p, t, from + n)) == Segments(p, t[from + n..])
    ensures Slices(t, FindRuns(p, t, from)) == Segments(p, t[from..])
  {
    FindRunsStep(p, t, from);
    SegmentsStep(p, t, from, n);
    SlicesCons(t, Span(from, from + n), FindRuns(p, t, from + n));
  }

  lemma SlicesCons(t: string, span: Span, spans: seq<Span>)
    requires span.start <= span.end <= |t|
    requires forall i :: 0 <= i < |spans| ==> spans[i].start <= spans[i].end <= |t|
    ensures Slices(t, [span] + spans) == [t[span.start..span.end]] + Slices(t, spans)
  {}

  /** `findall("[p]+")` lists the maximal runs of `p`-characters. */
  lemma FindAllGivesSegments(p: char -> bool, t: string)
    ensures FindAll(OneOrMore(p), t) == Segments(p, t)
  {
    FindRunsGivesSegments(p, t, 0);
    assert t[0..] == t;
  }
}
