/**
 `backend/policy/rules.py`: the deterministic escalation rules.

 `float()` is a parameter: a monotone rounding of the exact decimal value.
 */
module PolicyRules {
  import opened Text
  import opened Regex

  type Rounding = real -> real

  ghost predicate Monotone(fl: Rounding) {
    forall x: real, y: real :: x <= y ==> fl(x) <= fl(y)
  }

  const ESCALATION_KEYWORDS: seq<string> := ["legal", "lawsuit", "attorney", "security", "breach", "fraud"]
  const REFUND_KEYWORD := "refund"
  const OVER_THRESHOLD_RULE := "refund_over_threshold"
  const LOW_CONFIDENCE_RULE := "low_confidence"
  const UNRESOLVED_RULE := "agent_unresolved"
  const REFUND_AMOUNT_THRESHOLD_USD := 500.0
  const LOW_CONFIDENCE_THRESHOLD := 0.7

  // ---- The dollar pattern \$\s?(\d[\d,]*(?:\.\d+)?) ----

  predicate IsDollar(c: char) { c == '$' }

  predicate IsDot(c: char) { c == '.' }

  predicate IsDigitOrComma(c: char) { IsDigit(c) || c == ',' }

  const CURRENCY: Pattern := Then(Class(IsDollar), Maybe(Class(IsSpace)))
  const FRACTION: Pattern := Then(Class(IsDot), OneOrMore(IsDigit))
  const AMOUNT: Pattern := Then(Class(IsDigit), Then(Many(IsDigitOrComma), Maybe(FRACTION)))
  const DOLLAR_AMOUNT: Pattern := Then(CURRENCY, AMOUNT)

  // ---- What the pattern means ----

  /** Where an amount announced by a dollar sign at `i` would have to begin. */
  function AmountStart(t: string, i: nat): (g: nat)
    ensures g == i + 1 || g == i + 2
  {
    if i + 1 < |t| && IsSpace(t[i + 1]) then i + 2 else i + 1
  }

  predicate Fits(t: string, i: nat) {
    i < |t| && t[i] == '$' && AmountStart(t, i) < |t| && IsDigit(t[AmountStart(t, i)])
  }

  predicate HasFraction(u: string, n: nat) {
    n + 1 < |u| && u[n] == '.' && IsDigit(u[n + 1])
  }

  /** The longest amount at the start of `u`: digits and commas, then a fraction if there is one. */
  function AmountLength(u: string): (n: nat)
    ensures n <= |u|
  {
    var n := PrefixRun(IsDigitOrComma, u);
    if HasFraction(u, n) then n + 1 + PrefixRun(IsDigit, u[n + 1..]) else n
  }

  function AmountText(t: string, i: nat): string
    requires Fits(t, i)
  {
    var u := t[AmountStart(t, i)..];
    u[..AmountLength(u)]
  }

  // ---- Numerals ----

  function DigitValue(c: char): (v: nat)
    requires IsDigit(c)
    ensures v <= 9
  {
    c as int - '0' as int
  }

  predicate AllDigits(s: string) {
    forall i :: 0 <= i < |s| ==> IsDigit(s[i])
  }

  function IntegerValue(s: string): nat
    requires AllDigits(s)
  {
    if s == "" then 0 else 10 * IntegerValue(s[..|s| - 1]) + DigitValue(s[|s| - 1])
  }

  function FractionValue(s: string): (v: real)
    requires AllDigits(s)
    ensures 0.0 <= v
  {
    if s == "" then 0.0 else (DigitValue(s[0]) as real + FractionValue(s[1..])) / 10.0
  }

  /** A decimal numeral that `float()` accepts: digits, or digits, a point and more digits. */
  predicate IsNumeral(s: string) {
    var n := PrefixRun(IsDigit, s);
    0 < n && (n == |s| || (s[n] == '.' && n + 1 < |s| && AllDigits(s[n + 1..])))
  }

  function DecimalValue(s: string): real
    requires IsNumeral(s)
  {
    var n := PrefixRun(IsDigit, s);
    IntegerValue(s[..n]) as real + if n < |s| then FractionValue(s[n + 1..]) else 0.0
  }

  /** `s.replace(",", "")` */
  function RemoveCommas(s: string): string {
    if s == "" then ""
    else if s[0] == ',' then RemoveCommas(s[1..])
    else [s[0]] + RemoveCommas(s[1..])
  }

  // ---- The pattern matches what it means ----

  lemma AmountPatternMatches(u: string)
    ensures Matches(AMOUNT, u) <==> u != "" && IsDigit(u[0])
    ensures Matches(AMOUNT, u) ==> MatchLength(AMOUNT, u) == AmountLength(u)
  {
    if u != "" && IsDigit(u[0]) {
      var rest := u[1..];
      ManyIsGreedy(IsDigitOrComma, rest);
      var n := PrefixRun(IsDigitOrComma, rest);
      var tail := rest[n..];
      FractionPatternMatches(tail);
      assert Matches(Maybe(FRACTION), tail);
      ThenTakesFirst(Many(IsDigitOrComma), Maybe(FRACTION), rest);
      ThenTakesFirst(Class(IsDigit), Then(Many(IsDigitOrComma), Maybe(FRACTION)), u);
      assert PrefixRun(IsDigitOrComma, u) == 1 + n;
      assert tail == u[1 + n..];
      assert HasFraction(u, 1 + n) ==> u[1 + n + 1..] == tail[1..];
    } else {
      ThenAfterNone(Class(IsDigit), Then(Many(IsDigitOrComma), Maybe(FRACTION)), u);
    }
  }

  lemma FractionPatternMatches(u: string)
    ensures Matches(FRACTION, u) <==> HasFraction(u, 0)
    ensures Matches(FRACTION, u) ==> MatchLength(FRACTION, u) == 1 + PrefixRun(IsDigit, u[1..])
  {
    if u != "" && u[0] == '.' {
      OneOrMoreIsGreedy(IsDigit, u[1..]);
      ThenAfterOne(Class(IsDot), OneOrMore(IsDigit), u, 1);
    } else {
      ThenAfterNone(Class(IsDot), OneOrMore(IsDigit), u);
    }
  }

  lemma MaybeSpaceLengths(u: string)
    ensures Lengths(Maybe(Class(IsSpace)), u) == if u != "" && IsSpace(u[0]) then [1, 0] else [0]
  {
    var ns := Lengths(Class(IsSpace), u);
    assert ns == if u != "" && IsSpace(u[0]) then [1] else [];
    assert Lengths(Maybe(Class(IsSpace)), u) == ns + [0];
  }

  lemma CurrencyLengths(u: string)
    ensures u == "" || u[0] != '$' ==> !Matches(CURRENCY, u)
    ensures u != "" && u[0] == '$' ==>
              Lengths(CURRENCY, u) == if 1 < |u| && IsSpace(u[1]) then [2, 1] else [1]
  {
    if u != "" && u[0] == '$' {
      DollarSignLengths(u);
    } else {
      ThenAfterNone(Class(IsDollar), Maybe(Class(IsSpace)), u);
    }
  }

  lemma DollarSignLengths(u: string)
    requires u != "" && u[0] == '$'
    ensures Lengths(CURRENCY, u) == if 1 < |u| && IsSpace(u[1]) then [2, 1] else [1]
  {
    ThenAfterOne(Class(IsDollar), Maybe(Class(IsSpace)), u, 1);
    MaybeSpaceLengths(u[1..]);
    ShiftOfMaybe();
  }

  lemma ShiftOfMaybe()
    ensures Shift(1, [1, 0]) == [2, 1] && Shift(1, [0]) == [1]
  {}

  lemma DollarLengths(u: string)
    ensures Lengths(DOLLAR_AMOUNT, u) ==
            if Fits(u, 0) then Shift(AmountStart(u, 0), Lengths(AMOUNT, u[AmountStart(u, 0)..])) else []
  {
    CurrencyLengths(u);
    if u != "" && u[0] == '$' {
      AmountPatternMatches(u[1..]);
      if 1 < |u| && IsSpace(u[1]) {
        AmountPatternMatches(u[2..]);
        ThenAfterTwo(CURRENCY, AMOUNT, u, 2, 1);
      } else {
        ThenAfterOne(CURRENCY, AMOUNT, u, 1);
      }
    } else {
      ThenAfterNone(CURRENCY, AMOUNT, u);
    }
  }

  lemma AmountEnters(u: string)
    requires Fits(u, 0) && Matches(DOLLAR_AMOUNT, u)
    ensures SplitPoint(CURRENCY, AMOUNT, u) == AmountStart(u, 0)
  {
    CurrencyLengths(u);
    AmountPatternMatches(u[1..]);
    var n := SplitPoint(CURRENCY, AMOUNT, u);
    assert n == 1 || n == 2;
  }

  /** The engine matches the pattern exactly where it fits, and captures the longest amount there. */
  lemma DollarPatternMatches(u: string)
    ensures Matches(DOLLAR_AMOUNT, u) <==> Fits(u, 0)
    ensures Fits(u, 0) ==> MatchLength(DOLLAR_AMOUNT, u) == AmountStart(u, 0) + |AmountText(u, 0)|
    ensures Fits(u, 0) ==> SecondGroup(CURRENCY, AMOUNT, u) == AmountText(u, 0)
  {
    if Fits(u, 0) {
      DollarMatchLength(u);
      CapturedIsAmountText(u);
    } else {
      DollarLengths(u);
    }
  }

  lemma DollarMatchLength(u: string)
    requires Fits(u, 0)
    ensures Matches(DOLLAR_AMOUNT, u)
    ensures MatchLength(DOLLAR_AMOUNT, u) == AmountStart(u, 0) + |AmountText(u, 0)|
  {
    DollarLengths(u);
    AmountPatternMatches(u[AmountStart(u, 0)..]);
  }

  lemma CapturedIsAmountText(u: string)
    requires Fits(u, 0) && Matches(DOLLAR_AMOUNT, u)
    requires MatchLength(DOLLAR_AMOUNT, u) == AmountStart(u, 0) + |AmountText(u, 0)|
    ensures SecondGroup(CURRENCY, AMOUNT, u) == AmountText(u, 0)
  {
    AmountEnters(u);
    SliceOfRest(u, AmountStart(u, 0), |AmountText(u, 0)|);
  }

  lemma SliceOfRest(u: string, start: nat, n: nat)
    requires start + n <= |u|
    ensures u[start..][..n] == u[start..start + n]
  {}

  // ---- The value of an amount ----

  lemma {:induction false} RemoveCommasAppend(a: string, b: string)
    ensures RemoveCommas(a + b) == RemoveCommas(a) + RemoveCommas(b)
    decreases |a|
  {
    if a == "" {
      assert a + b == b;
    } else {
      RemoveCommasAppend(a[1..], b);
      assert (a + b)[0] == a[0] && (a + b)[1..] == a[1..] + b;
      var x, y := RemoveCommas(a[1..]), RemoveCommas(b);
      assert [a[0]] + (x + y) == ([a[0]] + x) + y;
    }
  }

  lemma {:induction false} RemoveCommasDigits(s: string)
    requires forall i :: 0 <= i < |s| ==> IsDigitOrComma(s[i])
    ensures AllDigits(RemoveCommas(s))
    ensures AllDigits(s) ==> RemoveCommas(s) == s
    decreases |s|
  {
    if s != "" {
      RemoveCommasDigits(s[1..]);
    }
  }

  /** The digits of the integral part of the amount at the start of `u`. */
  function IntegerPart(u: string): (s: string)
    ensures AllDigits(s)
  {
    var run := u[..PrefixRun(IsDigitOrComma, u)];
    RemoveCommasDigits(run);
    RemoveCommas(run)
  }

  function FractionPart(u: string): (s: string)
    ensures AllDigits(s)
  {
    var n := PrefixRun(IsDigitOrComma, u);
    if HasFraction(u, n) then u[n + 1..][..PrefixRun(IsDigit, u[n + 1..])] else ""
  }

  /** What the pattern captures is, without its commas, a numeral `float()` accepts. */
  lemma AmountIsNumeral(u: string)
    requires u != "" && IsDigit(u[0])
    ensures IsNumeral(RemoveCommas(u[..AmountLength(u)]))
    ensures DecimalValue(RemoveCommas(u[..AmountLength(u)]))
         == ValueAtHead(u)
  {
    var n := PrefixRun(IsDigitOrComma, u);
    var ints, fraction := IntegerPart(u), FractionPart(u);
    assert u[..n] == [u[0]] + u[1..n];
    assert ints != "" by {
      RemoveCommasAppend([u[0]], u[1..n]);
    }
    if HasFraction(u, n) {
      assert u[..AmountLength(u)] == u[..n] + "." + fraction;
      RemoveCommasAppend(u[..n] + ".", fraction);
      RemoveCommasAppend(u[..n], ".");
      RemoveCommasDigits(fraction);
      var s := ints + "." + fraction;
      assert RemoveCommas(u[..AmountLength(u)]) == s;
      PrefixRunUnique(IsDigit, s, |ints|);
      assert s[..|ints|] == ints && s[|ints| + 1..] == fraction;
    } else {
      PrefixRunUnique(IsDigit, ints, |ints|);
      assert ints[..|ints|] == ints;
    }
  }

  function ValueAtHead(u: string): real {
    IntegerValue(IntegerPart(u)) as real + FractionValue(FractionPart(u))
  }

  /** The exact value of the amount announced at `i`. */
  function AmountValue(t: string, i: nat): real
    requires Fits(t, i)
  {
    ValueAtHead(t[AmountStart(t, i)..])
  }

  /** `float(match.group(1).replace(",", ""))` is defined and rounds the value of the amount. */
  lemma CapturedTextHasAmountValue(t: string, i: nat)
    requires Fits(t, i)
    ensures Matches(DOLLAR_AMOUNT, t[i..])
    ensures var group := SecondGroup(CURRENCY, AMOUNT, t[i..]);
            IsNumeral(RemoveCommas(group)) && DecimalValue(RemoveCommas(group)) == AmountValue(t, i)
  {
    DollarPatternMatches(t[i..]);
    FitsInSuffix(t, i, 0);
    AmountIsNumeral(t[AmountStart(t, i)..]);
  }

  // ---- Text after an amount can only raise it ----

  lemma {:induction false} IntegerValueGrows(a: string, b: string)
    requires AllDigits(a) && AllDigits(b)
    ensures IntegerValue(a) <= IntegerValue(a + b)
    decreases |b|
  {
    if b == "" {
      assert a + b == a;
    } else {
      var b' := b[..|b| - 1];
      IntegerValueGrows(a, b');
      assert (a + b)[..|a + b| - 1] == a + b';
    }
  }

  lemma {:induction false} FractionValueGrows(a: string, b: string)
    requires AllDigits(a) && AllDigits(b)
    ensures FractionValue(a) <= FractionValue(a + b)
    decreases |a|
  {
    if a != "" {
      FractionValueGrows(a[1..], b);
      assert (a + b)[1..] == a[1..] + b;
    }
  }

  lemma {:induction false} PrefixRunAppend(p: char -> bool, u: string, b: string)
    ensures PrefixRun(p, u + b) ==
            if PrefixRun(p, u) < |u| then PrefixRun(p, u) else |u| + PrefixRun(p, b)
  {
    var n := PrefixRun(p, u);
    if n < |u| {
      PrefixRunUnique(p, u + b, n);
    } else {
      var m := PrefixRun(p, b);
      forall i | 0 <= i < n + m ensures p((u + b)[i]) {
        assert n <= i ==> (u + b)[i] == b[i - n];
      }
      PrefixRunUnique(p, u + b, n + m);
    }
  }

  lemma PartsGrow(u: string, b: string)
    ensures IntegerPart(u) <= IntegerPart(u + b)
    ensures FractionPart(u) <= FractionPart(u + b)
  {
    PrefixRunAppend(IsDigitOrComma, u, b);
    var n := PrefixRun(IsDigitOrComma, u);
    if n < |u| {
      assert (u + b)[..n] == u[..n];
      if HasFraction(u, n) {
        FractionGrows(u, b, n);
      }
    } else {
      IntegerGrows(u, b);
    }
  }

  lemma FractionGrows(u: string, b: string, n: nat)
    requires n == PrefixRun(IsDigitOrComma, u) == PrefixRun(IsDigitOrComma, u + b) && HasFraction(u, n)
    ensures FractionPart(u) <= FractionPart(u + b)
  {
    var v := u[n + 1..];
    assert (u + b)[n + 1..] == v + b && (u + b)[n + 1] == u[n + 1] && (u + b)[n] == u[n];
    PrefixRunAppend(IsDigit, v, b);
    TakesGrow(v, b, PrefixRun(IsDigit, v), PrefixRun(IsDigit, v + b));
  }

  lemma TakesGrow(v: string, b: string, k: nat, l: nat)
    requires k <= |v| && k <= l <= |v + b|
    ensures v[..k] <= (v + b)[..l]
  {}

  lemma IntegerGrows(u: string, b: string)
    requires PrefixRun(IsDigitOrComma, u) == |u|
    requires PrefixRun(IsDigitOrComma, u + b) == |u| + PrefixRun(IsDigitOrComma, b)
    ensures IntegerPart(u) <= IntegerPart(u + b)
  {
    var more := b[..PrefixRun(IsDigitOrComma, b)];
    IntegerPartOf(u, u);
    assert IntegerPart(u + b) == RemoveCommas(u + more) by {
      assert (u + b)[..|u| + |more|] == u + more;
      IntegerPartOf(u + b, u + more);
    }
    assert RemoveCommas(u + more) == RemoveCommas(u) + RemoveCommas(more) by {
      RemoveCommasAppend(u, more);
    }
  }

  lemma IntegerPartOf(u: string, run: string)
    requires run == u[..PrefixRun(IsDigitOrComma, u)]
    ensures IntegerPart(u) == RemoveCommas(run)
  {}

  lemma ValueGrows(u: string, b: string)
    ensures ValueAtHead(u) <= ValueAtHead(u + b)
  {
    PartsGrow(u, b);
    LongerIntegerIsLarger(IntegerPart(u), IntegerPart(u + b));
    LongerFractionIsLarger(FractionPart(u), FractionPart(u + b));
  }

  lemma LongerIntegerIsLarger(a: string, b: string)
    requires AllDigits(b) && a <= b
    ensures AllDigits(a) && IntegerValue(a) <= IntegerValue(b)
  {
    var rest := b[|a|..];
    assert b == a + rest;
    assert forall i :: 0 <= i < |rest| ==> rest[i] == b[|a| + i];
    IntegerValueGrows(a, rest);
  }

  lemma LongerFractionIsLarger(a: string, b: string)
    requires AllDigits(b) && a <= b
    ensures AllDigits(a) && FractionValue(a) <= FractionValue(b)
  {
    var rest := b[|a|..];
    assert b == a + rest;
    assert forall i :: 0 <= i < |rest| ==> rest[i] == b[|a| + i];
    FractionValueGrows(a, rest);
  }

  lemma AmountGrows(a: string, b: string, i: nat)
    requires Fits(a, i)
    ensures Fits(a + b, i)
    ensures AmountValue(a, i) <= AmountValue(a + b, i)
  {
    var g := AmountStart(a, i);
    assert (a + b)[g..] == a[g..] + b;
    ValueGrows(a[g..], b);
  }

  lemma FitsInSuffix(t: string, n: nat, i: nat)
    requires n <= |t|
    ensures Fits(t[n..], i) <==> Fits(t, n + i)
    ensures AmountStart(t, n + i) == n + AmountStart(t[n..], i)
    ensures Fits(t, n + i) ==> AmountText(t[n..], i) == AmountText(t, n + i)
  {
    if Fits(t, n + i) {
      assert t[n..][AmountStart(t[n..], i)..] == t[AmountStart(t, n + i)..];
    }
  }

  // ---- The scan over all amounts ----

  predicate OverThresholdAt(t: string, i: nat, fl: Rounding) {
    Fits(t, i) && fl(AmountValue(t, i)) > REFUND_AMOUNT_THRESHOLD_USD
  }

  /** Some dollar figure in the text, comma-stripped, exceeds the threshold. */
  predicate AmountOverThreshold(t: string, fl: Rounding) {
    exists i: nat | i < |t| :: OverThresholdAt(t, i, fl)
  }

  function AmountEnd(t: string, i: nat): nat
    requires Fits(t, i)
  {
    AmountStart(t, i) + |AmountText(t, i)|
  }

  ghost predicate StartsAt(spans: seq<Span>, i: nat) {
    exists k :: 0 <= k < |spans| && spans[k].start == i
  }

  /** `spans` holds one match for each place from `from` on where the pattern fits, in text order and disjoint. */
  ghost predicate ListsTheAmounts(t: string, from: nat, spans: seq<Span>) {
    && OnlyAmounts(t, from, spans)
    && Disjoint(spans)
    && AllAmounts(t, from, spans)
  }

  ghost predicate OnlyAmounts(t: string, from: nat, spans: seq<Span>) {
    forall k :: 0 <= k < |spans| ==>
      from <= spans[k].start && Fits(t, spans[k].start) && spans[k].end == AmountEnd(t, spans[k].start)
  }

  ghost predicate Disjoint(spans: seq<Span>) {
    forall k, l :: 0 <= k < l < |spans| ==> spans[k].end <= spans[l].start
  }

  ghost predicate AllAmounts(t: string, from: nat, spans: seq<Span>) {
    forall i: nat :: from <= i && Fits(t, i) ==> StartsAt(spans, i)
  }

  lemma NoDollarInsideAmount(t: string, i: nat, j: nat)
    requires Fits(t, i) && i < j < AmountEnd(t, i)
    ensures t[j] != '$'
  {
    var g := AmountStart(t, i);
    var u := t[g..];
    if g <= j {
      var n := PrefixRun(IsDigitOrComma, u);
      assert t[j] == u[j - g];
      if n < j - g {
        assert t[j] == u[n + 1..][j - g - n - 1];
      }
    }
  }

  lemma StartsAtCons(span: Span, rest: seq<Span>, i: nat)
    requires i == span.start || StartsAt(rest, i)
    ensures StartsAt([span] + rest, i)
  {
    var spans := [span] + rest;
    if i == span.start {
      assert spans[0].start == i;
    } else {
      var k :| 0 <= k < |rest| && rest[k].start == i;
      assert spans[k + 1].start == i;
    }
  }

  lemma OnlyAmountsCons(t: string, from: nat, end: nat, rest: seq<Span>)
    requires Fits(t, from) && end == AmountEnd(t, from) && from <= end && OnlyAmounts(t, end, rest)
    ensures OnlyAmounts(t, from, [Span(from, end)] + rest)
  {
    var spans := [Span(from, end)] + rest;
    forall k | 0 <= k < |spans|
      ensures from <= spans[k].start && Fits(t, spans[k].start) && spans[k].end == AmountEnd(t, spans[k].start)
    {
      if 0 < k {
        assert spans[k] == rest[k - 1];
      }
    }
  }

  lemma AllAmountsCons(t: string, from: nat, end: nat, rest: seq<Span>)
    requires Fits(t, from) && end == AmountEnd(t, from) && AllAmounts(t, end, rest)
    ensures AllAmounts(t, from, [Span(from, end)] + rest)
  {
    forall i: nat | from <= i && Fits(t, i) ensures StartsAt([Span(from, end)] + rest, i) {
      if from < i < end {
        NoDollarInsideAmount(t, from, i);
      } else {
        StartsAtCons(Span(from, end), rest, i);
      }
    }
  }

  lemma DisjointCons(span: Span, rest: seq<Span>)
    requires Disjoint(rest) && forall k :: 0 <= k < |rest| ==> span.end <= rest[k].start
    ensures Disjoint([span] + rest)
  {}

  lemma AmountsWithoutFirst(t: string, from: nat, spans: seq<Span>)
    requires !Fits(t, from) && AllAmounts(t, from + 1, spans)
    ensures AllAmounts(t, from, spans)
  {
    forall i: nat | from <= i && Fits(t, i) ensures StartsAt(spans, i) {
      assert from + 1 <= i;
    }
  }

  lemma DollarMatchAt(t: string, i: nat)
    requires i < |t|
    ensures Matches(DOLLAR_AMOUNT, t[i..]) <==> Fits(t, i)
    ensures Fits(t, i) ==> i + MatchLength(DOLLAR_AMOUNT, t[i..]) == AmountEnd(t, i)
  {
    DollarPatternMatches(t[i..]);
    FitsInSuffix(t, i, 0);
  }

  lemma FindIterStep(t: string, from: nat)
    requires from < |t|
    ensures !Fits(t, from) ==> FindIter(DOLLAR_AMOUNT, t, from) == FindIter(DOLLAR_AMOUNT, t, from + 1)
    ensures Fits(t, from) ==> from < AmountEnd(t, from) <= |t|
    ensures Fits(t, from) ==>
              FindIter(DOLLAR_AMOUNT, t, from)
              == [Span(from, AmountEnd(t, from))] + FindIter(DOLLAR_AMOUNT, t, AmountEnd(t, from))
  {
    DollarMatchAt(t, from);
  }

  /** `finditer` reports every place where the pattern fits once, and nothing else. */
  lemma {:induction false} FindIterListsTheAmounts(t: string, from: nat)
    requires from <= |t|
    ensures ListsTheAmounts(t, from, FindIter(DOLLAR_AMOUNT, t, from))
    decreases |t| - from
  {
    if from < |t| {
      FindIterStep(t, from);
      if Fits(t, from) {
        var end := AmountEnd(t, from);
        FindIterListsTheAmounts(t, end);
        var rest := FindIter(DOLLAR_AMOUNT, t, end);
        OnlyAmountsCons(t, from, end, rest);
        DisjointCons(Span(from, end), rest);
        AllAmountsCons(t, from, end, rest);
      } else {
        FindIterListsTheAmounts(t, from + 1);
        AmountsWithoutFirst(t, from, FindIter(DOLLAR_AMOUNT, t, from + 1));
      }
    }
  }

  lemma CapturedTextDecides(t: string, i: nat, fl: Rounding)
    requires Fits(t, i)
    ensures Matches(DOLLAR_AMOUNT, t[i..])
    ensures var group := SecondGroup(CURRENCY, AMOUNT, t[i..]);
            && IsNumeral(RemoveCommas(group))
            && (fl(DecimalValue(RemoveCommas(group))) > REFUND_AMOUNT_THRESHOLD_USD <==> OverThresholdAt(t, i, fl))
  {
    CapturedTextHasAmountValue(t, i);
  }

  /** The first `n` amounts do not exceed the threshold. */
  ghost predicate NoneOver(t: string, spans: seq<Span>, n: nat, fl: Rounding)
    requires n <= |spans|
  {
    forall k :: 0 <= k < n ==> !OverThresholdAt(t, spans[k].start, fl)
  }

  lemma OneMoreIsNotOver(t: string, spans: seq<Span>, n: nat, fl: Rounding)
    requires n < |spans| && NoneOver(t, spans, n, fl) && !OverThresholdAt(t, spans[n].start, fl)
    ensures NoneOver(t, spans, n + 1, fl)
  {}

  lemma NoListedAmountIsOver(t: string, spans: seq<Span>, fl: Rounding)
    requires AllAmounts(t, 0, spans) && NoneOver(t, spans, |spans|, fl)
    ensures !AmountOverThreshold(t, fl)
  {
    forall i: nat | i < |t| && Fits(t, i) ensures !OverThresholdAt(t, i, fl) {
      assert StartsAt(spans, i);
    }
  }

  method HasAmountOverThreshold(text: string, fl: Rounding) returns (found: bool)
    ensures found <==> AmountOverThreshold(text, fl)
  {
    var matches := FindIter(DOLLAR_AMOUNT, text, 0);
    FindIterListsTheAmounts(text, 0);
    for k := 0 to |matches|
      invariant NoneOver(text, matches, k, fl)
    {
      var i := matches[k].start;
      CapturedTextDecides(text, i, fl);
      var group := SecondGroup(CURRENCY, AMOUNT, text[i..]);
      var amount := fl(DecimalValue(RemoveCommas(group)));
      if amount > REFUND_AMOUNT_THRESHOLD_USD {
        return true;
      }
      OneMoreIsNotOver(text, matches, k, fl);
    }
    NoListedAmountIsOver(text, matches, fl);
    return false;
  }

  /** Some dollar figure in the text is worth at least `v`. */
  ghost predicate MentionsAtLeast(t: string, v: real) {
    exists i: nat :: i < |t| && Fits(t, i) && AmountValue(t, i) >= v
  }

  ghost predicate MentionsMoreThan(t: string, v: real) {
    exists i: nat :: i < |t| && Fits(t, i) && AmountValue(t, i) > v
  }

  /**
   What rounding can and cannot do to the threshold: with a rounding that is exact at 500 and at
   some next value above it, a reported text mentions more than 500, and a text that mentions the
   next value or more is reported.
   */
  lemma ThresholdUpToRounding(t: string, fl: Rounding, next: real)
    requires Monotone(fl) && fl(REFUND_AMOUNT_THRESHOLD_USD) == REFUND_AMOUNT_THRESHOLD_USD
    requires next > REFUND_AMOUNT_THRESHOLD_USD && fl(next) == next
    ensures AmountOverThreshold(t, fl) ==> MentionsMoreThan(t, REFUND_AMOUNT_THRESHOLD_USD)
    ensures MentionsAtLeast(t, next) ==> AmountOverThreshold(t, fl)
  {
    if AmountOverThreshold(t, fl) {
      var i: nat :| i < |t| && OverThresholdAt(t, i, fl);
      var v := AmountValue(t, i);
      assert v <= REFUND_AMOUNT_THRESHOLD_USD ==> fl(v) <= fl(REFUND_AMOUNT_THRESHOLD_USD);
      assert v > REFUND_AMOUNT_THRESHOLD_USD;
    }
    if MentionsAtLeast(t, next) {
      var i: nat :| i < |t| && Fits(t, i) && AmountValue(t, i) >= next;
      assert fl(AmountValue(t, i)) >= fl(next);
      assert OverThresholdAt(t, i, fl);
    }
  }

  // ---- The rules ----

  predicate OccursAt(t: string, w: string, i: nat)
    requires i + |w| <= |t|
  {
    t[i..i + |w|] == w
  }

  /** `w in t` */
  predicate Contains(t: string, w: string) {
    exists i | 0 <= i <= |t| - |w| :: OccursAt(t, w, i)
  }

  /** What the policy is asked about. */
  datatype Signals = Signals(ticketText: string, confidenceScore: real, agentUnresolved: bool)

  datatype PolicyEvaluation = PolicyEvaluation(requiresHumanReview: bool, matchedRules: seq<string>, reason: string)

  const TEXT_RULES: seq<string> := ESCALATION_KEYWORDS + [REFUND_KEYWORD, OVER_THRESHOLD_RULE]

  /** Every rule, in the order in which matches are reported. */
  const ALL_RULES: seq<string> := TEXT_RULES + [LOW_CONFIDENCE_RULE, UNRESOLVED_RULE]

  predicate Fires(rule: string, s: Signals, fl: Rounding) {
    if rule == OVER_THRESHOLD_RULE then
      Contains(Lower(s.ticketText), REFUND_KEYWORD) && AmountOverThreshold(Lower(s.ticketText), fl)
    else if rule == LOW_CONFIDENCE_RULE then s.confidenceScore < LOW_CONFIDENCE_THRESHOLD
    else if rule == UNRESOLVED_RULE then s.agentUnresolved
    else Contains(Lower(s.ticketText), rule)
  }

  /** The rules among `rules` that fire, in order. */
  function Firing(rules: seq<string>, s: Signals, fl: Rounding): (fired: seq<string>)
    ensures forall rule :: rule in fired <==> rule in rules && Fires(rule, s, fl)
  {
    if rules == [] then []
    else if Fires(rules[0], s, fl) then [rules[0]] + Firing(rules[1..], s, fl)
    else Firing(rules[1..], s, fl)
  }

  lemma {:induction false} FiringAppend(a: seq<string>, b: seq<string>, s: Signals, fl: Rounding)
    ensures Firing(a + b, s, fl) == Firing(a, s, fl) + Firing(b, s, fl)
    decreases |a|
  {
    if a == [] {
      assert a + b == b;
    } else {
      FiringAppend(a[1..], b, s, fl);
      FiringConsAppend(a[0], a[1..], b, s, fl);
      assert a == [a[0]] + a[1..];
    }
  }

  lemma FiringConsAppend(rule: string, rest: seq<string>, b: seq<string>, s: Signals, fl: Rounding)
    requires Firing(rest + b, s, fl) == Firing(rest, s, fl) + Firing(b, s, fl)
    ensures Firing([rule] + rest + b, s, fl) == Firing([rule] + rest, s, fl) + Firing(b, s, fl)
  {
    assert [rule] + rest + b == [rule] + (rest + b);
    FiringCons(rule, rest + b, s, fl);
    FiringCons(rule, rest, s, fl);
    ConsAppend(rule, Firing(rest, s, fl), Firing(b, s, fl));
  }

  lemma ConsAppend(x: string, xs: seq<string>, ys: seq<string>)
    ensures [x] + (xs + ys) == ([x] + xs) + ys
  {}

  lemma FiringCons(rule: string, rest: seq<string>, s: Signals, fl: Rounding)
    ensures Firing([rule] + rest, s, fl)
         == if Fires(rule, s, fl) then [rule] + Firing(rest, s, fl) else Firing(rest, s, fl)
  {
    assert ([rule] + rest)[1..] == rest;
  }

  lemma FiringOne(rule: string, s: Signals, fl: Rounding)
    ensures Firing([rule], s, fl) == if Fires(rule, s, fl) then [rule] else []
  {
    assert [rule][1..] == [];
  }

  function BuildReason(matchedRules: seq<string>): string {
    if matchedRules == [] then "No escalation rules matched; eligible for automated response."
    else "Escalation rules matched: " + Join(", ", matchedRules) + "."
  }

  method MatchedEscalationKeywords(text: string, ghost s: Signals, fl: Rounding) returns (matched: seq<string>)
    requires text == Lower(s.ticketText)
    ensures matched == Firing(ESCALATION_KEYWORDS, s, fl)
  {
    matched := [];
    var keywords := ESCALATION_KEYWORDS;
    KeywordsAreWords();
    for k := 0 to |keywords|
      invariant matched == Firing(keywords[..k], s, fl)
    {
      var keyword := keywords[k];
      if Contains(text, keyword) {
        matched := matched + [keyword];
      }
      assert keywords[..k + 1] == keywords[..k] + [keyword];
      FiringAppend(keywords[..k], [keyword], s, fl);
      FiringOne(keyword, s, fl);
    }
    assert keywords[..|keywords|] == keywords;
  }

  lemma KeywordsAreWords()
    ensures forall k :: 0 <= k < |ESCALATION_KEYWORDS| ==>
              ESCALATION_KEYWORDS[k] !in [OVER_THRESHOLD_RULE, LOW_CONFIDENCE_RULE, UNRESOLVED_RULE]
  {}

  lemma TextRulesFiring(s: Signals, fl: Rounding)
    ensures Firing(TEXT_RULES, s, fl)
            == Firing(ESCALATION_KEYWORDS, s, fl)
               + (if Fires(REFUND_KEYWORD, s, fl) then [REFUND_KEYWORD] else [])
               + (if Fires(OVER_THRESHOLD_RULE, s, fl) then [OVER_THRESHOLD_RULE] else [])
  {
    var refund, over := [REFUND_KEYWORD], [OVER_THRESHOLD_RULE];
    assert TEXT_RULES == ESCALATION_KEYWORDS + refund + over;
    FiringAppend(ESCALATION_KEYWORDS + refund, over, s, fl);
    FiringAppend(ESCALATION_KEYWORDS, refund, s, fl);
    FiringOne(REFUND_KEYWORD, s, fl);
    FiringOne(OVER_THRESHOLD_RULE, s, fl);
  }

  method MatchedKeywordRules(ticketText: string, ghost s: Signals, fl: Rounding) returns (matched: seq<string>)
    requires s.ticketText == ticketText
    ensures matched == Firing(TEXT_RULES, s, fl)
  {
    var text := Lower(ticketText);
    matched := MatchedEscalationKeywords(text, s, fl);
    TextRulesFiring(s, fl);
    if Contains(text, REFUND_KEYWORD) {
      matched := matched + [REFUND_KEYWORD];
      var over := HasAmountOverThreshold(text, fl);
      if over {
        matched := matched + [OVER_THRESHOLD_RULE];
      }
    }
  }

  /** Reports exactly the rules that fire, in their fixed order, and asks for review when there is one. */
  method EvaluatePolicy(ticketText: string, confidenceScore: real, agentUnresolved: bool, fl: Rounding)
    returns (e: PolicyEvaluation)
    ensures var s := Signals(ticketText, confidenceScore, agentUnresolved);
            && e.matchedRules == Firing(ALL_RULES, s, fl)
            && (e.requiresHumanReview <==> exists rule :: rule in ALL_RULES && Fires(rule, s, fl))
    ensures e.reason == BuildReason(e.matchedRules)
  {
    ghost var s := Signals(ticketText, confidenceScore, agentUnresolved);
    var matched := MatchedKeywordRules(ticketText, s, fl);
    FiringAppend(TEXT_RULES, [LOW_CONFIDENCE_RULE, UNRESOLVED_RULE], s, fl);
    FiringAppend([LOW_CONFIDENCE_RULE], [UNRESOLVED_RULE], s, fl);
    FiringOne(LOW_CONFIDENCE_RULE, s, fl);
    FiringOne(UNRESOLVED_RULE, s, fl);
    if confidenceScore < LOW_CONFIDENCE_THRESHOLD {
      matched := matched + [LOW_CONFIDENCE_RULE];
    }
    if agentUnresolved {
      matched := matched + [UNRESOLVED_RULE];
    }
    assert matched == Firing(ALL_RULES, s, fl);
    assert matched != [] ==> matched[0] in ALL_RULES && Fires(matched[0], s, fl);
    return PolicyEvaluation(matched != [], matched, BuildReason(matched));
  }

  // ---- Surrounding text never suppresses a rule ----

  lemma ContainsInContext(before: string, t: string, after: string, w: string)
    requires Contains(t, w)
    ensures Contains(before + t + after, w)
  {
    var i: nat :| i <= |t| - |w| && OccursAt(t, w, i);
    var whole := before + t + after;
    assert whole[|before| + i..|before| + i + |w|] == t[i..i + |w|];
    assert OccursAt(whole, w, |before| + i);
  }

  lemma AmountAfterPrefix(before: string, t: string, i: nat)
    requires Fits(t, i)
    ensures Fits(before + t, |before| + i)
    ensures AmountValue(before + t, |before| + i) == AmountValue(t, i)
  {
    var whole := before + t;
    assert whole[|before|..] == t;
    FitsInSuffix(whole, |before|, i);
    assert whole[AmountStart(whole, |before| + i)..] == t[AmountStart(t, i)..];
  }

  lemma OverThresholdAtInContext(before: string, t: string, after: string, i: nat, fl: Rounding)
    requires Monotone(fl) && OverThresholdAt(t, i, fl)
    ensures |before| + i < |before + t + after| && OverThresholdAt(before + t + after, |before| + i, fl)
  {
    AmountGrows(t, after, i);
    AmountAfterPrefix(before, t + after, i);
    assert before + (t + after) == before + t + after;
  }

  lemma OverThresholdInContext(before: string, t: string, after: string, fl: Rounding)
    requires Monotone(fl) && AmountOverThreshold(t, fl)
    ensures AmountOverThreshold(before + t + after, fl)
  {
    var i: nat :| i < |t| && OverThresholdAt(t, i, fl);
    OverThresholdAtInContext(before, t, after, i, fl);
  }

  lemma FiresInContext(rule: string, before: string, s: Signals, after: string, fl: Rounding)
    requires Monotone(fl) && Fires(rule, s, fl)
    ensures Fires(rule, s.(ticketText := before + s.ticketText + after), fl)
  {
    var t := Lower(s.ticketText);
    LowerAppend(before + s.ticketText, after);
    LowerAppend(before, s.ticketText);
    if rule == OVER_THRESHOLD_RULE {
      ContainsInContext(Lower(before), t, Lower(after), REFUND_KEYWORD);
      OverThresholdInContext(Lower(before), t, Lower(after), fl);
    } else if rule != LOW_CONFIDENCE_RULE && rule != UNRESOLVED_RULE {
      ContainsInContext(Lower(before), t, Lower(after), rule);
    }
  }

  /** Whatever is put before and after a text, every rule that fires on it still fires. */
  lemma SurroundingTextNeverSuppresses(before: string, s: Signals, after: string, fl: Rounding)
    requires Monotone(fl)
    ensures forall rule :: rule in Firing(ALL_RULES, s, fl) ==>
              rule in Firing(ALL_RULES, s.(ticketText := before + s.ticketText + after), fl)
  {
    forall rule | Fires(rule, s, fl) ensures Fires(rule, s.(ticketText := before + s.ticketText + after), fl) {
      FiresInContext(rule, before, s, after, fl);
    }
  }

  /** The rules matched on a joined text include those matched on either part. */
  lemma JoinedTextKeepsBothPartsRules(a: string, b: string, confidence: real, unresolved: bool, fl: Rounding)
    requires Monotone(fl)
    ensures forall rule ::
              (|| rule in Firing(ALL_RULES, Signals(a, confidence, unresolved), fl)
               || rule in Firing(ALL_RULES, Signals(b, confidence, unresolved), fl))
              ==> rule in Firing(ALL_RULES, Signals(a + b, confidence, unresolved), fl)
  {
    SurroundingTextNeverSuppresses("", Signals(a, confidence, unresolved), b, fl);
    SurroundingTextNeverSuppresses(a, Signals(b, confidence, unresolved), "", fl);
    assert "" + a + b == a + b && a + b + "" == a + b;
  }
}
