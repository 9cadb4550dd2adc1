/**
 What the policy's amounts and rules mean, in plain terms: which number an amount stands for, when
 a text with an amount exceeds 500, and which words and values make a rule fire.
 */
module PolicyMeaning {
  import opened Text
  import opened PolicyRules

  // ---- Writing numbers ----

  function DigitChar(d: nat): char
    requires d < 10
  {
    "0123456789"[d]
  }

  /** The decimal representation of a number. */
  function Digits(n: nat): string {
    if n < 10 then [DigitChar(n)] else Digits(n / 10) + [DigitChar(n % 10)]
  }

  /** The text consists of digits and commas, and its digits, read from the last to the first, are those of `n`. */
  predicate Writes(text: string, n: nat)
    decreases |text|
  {
    if text == "" then n == 0
    else
      var front, last := text[..|text| - 1], text[|text| - 1];
      if last == ',' then Writes(front, n)
      else last == DigitChar(n % 10) && Writes(front, n / 10)
  }

  function Pow10(k: nat): (p: nat)
    ensures p > 0
  {
    if k == 0 then 1 else 10 * Pow10(k - 1)
  }

  lemma DigitsWrite(n: nat)
    ensures Writes(Digits(n), n) && Digits(n) != "" && AllDigits(Digits(n))
  {
    if n < 10 {
      assert Digits(n)[..0] == "";
    } else {
      DigitsWrite(n / 10);
      assert Digits(n)[..|Digits(n)| - 1] == Digits(n / 10);
    }
  }

  lemma ValueOfDigitChar(d: nat)
    requires d < 10
    ensures IsDigit(DigitChar(d)) && DigitValue(DigitChar(d)) == d && DigitChar(d) != ','
  {}

  lemma RemoveCommasOfOne(c: char)
    ensures RemoveCommas([c]) == if c == ',' then "" else [c]
  {
    assert [c][1..] == "";
  }

  /** Without its commas, a text that writes `n` is read as `n`. */
  lemma {:induction false} WrittenValue(text: string, n: nat)
    requires Writes(text, n)
    ensures forall i :: 0 <= i < |text| ==> IsDigitOrComma(text[i])
    ensures AllDigits(RemoveCommas(text)) && IntegerValue(RemoveCommas(text)) == n
    decreases |text|
  {
    if text != "" {
      var front, last := text[..|text| - 1], text[|text| - 1];
      assert text == front + [last];
      RemoveCommasAppend(front, [last]);
      RemoveCommasOfOne(last);
      if last == ',' {
        WrittenValue(front, n);
        assert RemoveCommas(text) == RemoveCommas(front);
      } else {
        WrittenValue(front, n / 10);
        ValueOfDigitChar(n % 10);
        assert RemoveCommas(text)[..|RemoveCommas(text)| - 1] == RemoveCommas(front);
      }
    }
  }

  lemma PlainTextHasNoCommas(text: string)
    requires AllDigits(text)
    ensures RemoveCommas(text) == text
  {
    RemoveCommasDigits(text);
  }

  /** A number's decimal representation is read as that number. */
  lemma DigitsRoundTrip(n: nat)
    ensures IsNumeral(Digits(n)) && DecimalValue(Digits(n)) == n as real
  {
    DigitsWrite(n);
    WrittenValue(Digits(n), n);
    PlainTextHasNoCommas(Digits(n));
    PrefixRunUnique(IsDigit, Digits(n), |Digits(n)|);
    assert Digits(n)[..|Digits(n)|] == Digits(n);
  }

  // ---- Fractions ----

  lemma ShiftLeft(d: nat, p: nat, i: nat, last: nat)
    ensures 10 * (d * p + i) + last == d * (10 * p) + (10 * i + last)
  {}

  lemma {:induction false} FirstDigitCounts(c: char, rest: string)
    requires IsDigit(c) && AllDigits(rest)
    ensures AllDigits([c] + rest)
    ensures IntegerValue([c] + rest) == DigitValue(c) * Pow10(|rest|) + IntegerValue(rest)
    decreases |rest|
  {
    if rest == "" {
      assert [c] + rest == [c] && [c][..0] == "";
    } else {
      var front := rest[..|rest| - 1];
      FirstDigitCounts(c, front);
      assert ([c] + rest)[..|rest|] == [c] + front;
      ShiftLeft(DigitValue(c), Pow10(|front|), IntegerValue(front), DigitValue(rest[|rest| - 1]));
    }
  }

  lemma TenthOf(a: nat, b: nat, p: nat)
    requires p > 0
    ensures (a as real + b as real / p as real) / 10.0 == (a * p + b) as real / (10 * p) as real
  {
    var x := b as real / p as real;
    assert x * p as real == b as real;
    assert (a as real + x) * p as real == (a * p + b) as real;
    assert (10 * p) as real == 10.0 * p as real;
    assert (a as real + x) / 10.0 * (10 * p) as real == (a * p + b) as real;
  }

  /** The digits after the point are worth their number over a power of ten. */
  lemma {:induction false} FractionIsOverPowerOfTen(s: string)
    requires AllDigits(s)
    ensures FractionValue(s) == IntegerValue(s) as real / Pow10(|s|) as real
    decreases |s|
  {
    if s != "" {
      FractionIsOverPowerOfTen(s[1..]);
      assert s == [s[0]] + s[1..];
      FirstDigitCounts(s[0], s[1..]);
      TenthOf(DigitValue(s[0]), IntegerValue(s[1..]), Pow10(|s| - 1));
    }
  }

  /** A numeral with a point is read as its whole part and its fraction. */
  lemma PointRoundTrip(n: nat, f: string, m: nat)
    requires f != "" && AllDigits(f) && Writes(f, m)
    ensures IsNumeral(Digits(n) + "." + f)
    ensures DecimalValue(Digits(n) + "." + f) == n as real + m as real / Pow10(|f|) as real
  {
    var s := Digits(n) + "." + f;
    DigitsWrite(n);
    WrittenValue(Digits(n), n);
    PlainTextHasNoCommas(Digits(n));
    WrittenValue(f, m);
    PlainTextHasNoCommas(f);
    FractionIsOverPowerOfTen(f);
    PrefixRunUnique(IsDigit, s, |Digits(n)|);
    assert s[..|Digits(n)|] == Digits(n) && s[|Digits(n)| + 1..] == f;
  }

  // ---- An amount in a text ----

  /** The point and the digits after it, if there are any. */
  function WithPoint(f: string): string {
    if f == "" then "" else "." + f
  }

  /** An amount whose digits after the point are `f` ends where `after` begins. */
  predicate EndsAmount(f: string, after: string) {
    || after == ""
    || (&& !IsDigit(after[0])
        && (f == "" ==> after[0] != ',' && !(after[0] == '.' && |after| > 1 && IsDigit(after[1]))))
  }

  predicate NoAmounts(t: string) {
    forall i | 0 <= i < |t| :: !Fits(t, i)
  }

  /** `whole` writes `n`, beginning with a digit, and `f` writes `m`. */
  ghost predicate IsAmount(whole: string, n: nat, f: string, m: nat) {
    whole != "" && whole[0] != ',' && Writes(whole, n) && AllDigits(f) && Writes(f, m)
  }

  /** A whole part and a fraction of `k` digits. */
  function Worth(n: nat, m: nat, k: nat): real {
    n as real + m as real / Pow10(k) as real
  }

  lemma FractionIsRead(u: string, n: nat, f: string, after: string)
    requires n < |u| && PrefixRun(IsDigitOrComma, u) == n && u[n] == '.' && u[n + 1..] == f + after
    requires f != "" && AllDigits(f) && EndsAmount(f, after)
    ensures FractionPart(u) == f
  {
    var rest := u[n + 1..];
    assert u[n + 1] == rest[0];
    PrefixRunUnique(IsDigit, rest, |f|);
    assert rest[..|f|] == f;
  }

  lemma NoFractionIsRead(u: string, n: nat, after: string)
    requires n <= |u| && PrefixRun(IsDigitOrComma, u) == n && u[n..] == after && EndsAmount("", after)
    ensures FractionPart(u) == ""
  {
    assert n < |u| ==> u[n] == after[0];
    assert n + 1 < |u| ==> u[n + 1] == after[1];
  }

  lemma WholeIsRead(u: string, whole: string)
    requires |whole| <= |u| && u[..|whole|] == whole && forall i :: 0 <= i < |whole| ==> IsDigitOrComma(whole[i])
    requires |whole| < |u| ==> !IsDigitOrComma(u[|whole|])
    ensures PrefixRun(IsDigitOrComma, u) == |whole| && IntegerPart(u) == RemoveCommas(whole)
  {
    assert forall i :: 0 <= i < |whole| ==> u[i] == whole[i];
    PrefixRunUnique(IsDigitOrComma, u, |whole|);
  }

  lemma PlainAmountIsRead(u: string, whole: string, after: string)
    requires |whole| <= |u| && u[..|whole|] == whole && u[|whole|..] == after && EndsAmount("", after)
    requires forall i :: 0 <= i < |whole| ==> IsDigitOrComma(whole[i])
    ensures IntegerPart(u) == RemoveCommas(whole) && FractionPart(u) == ""
  {
    assert after != "" ==> u[|whole|] == after[0];
    WholeIsRead(u, whole);
    NoFractionIsRead(u, |whole|, after);
  }

  lemma PointedAmountIsRead(u: string, whole: string, f: string, after: string)
    requires |whole| < |u| && u[..|whole|] == whole && u[|whole|] == '.' && u[|whole| + 1..] == f + after
    requires forall i :: 0 <= i < |whole| ==> IsDigitOrComma(whole[i])
    requires f != "" && AllDigits(f) && EndsAmount(f, after)
    ensures IntegerPart(u) == RemoveCommas(whole) && FractionPart(u) == f
  {
    WholeIsRead(u, whole);
    FractionIsRead(u, |whole|, f, after);
  }

  /** What the matcher sees as whole part and fraction. */
  lemma PartsAreRead(whole: string, f: string, after: string)
    requires (forall i :: 0 <= i < |whole| ==> IsDigitOrComma(whole[i])) && AllDigits(f) && EndsAmount(f, after)
    ensures var u := whole + WithPoint(f) + after; IntegerPart(u) == RemoveCommas(whole) && FractionPart(u) == f
  {
    var u := whole + WithPoint(f) + after;
    SplitAfter(whole, WithPoint(f), after);
    if f == "" {
      assert WithPoint(f) + after == after;
      PlainAmountIsRead(u, whole, after);
    } else {
      PointIsAt(whole, f, after);
      PointedAmountIsRead(u, whole, f, after);
    }
  }

  lemma PointIsAt(whole: string, f: string, after: string)
    ensures var u := whole + ("." + f) + after; u[|whole|] == '.' && u[|whole| + 1..] == f + after
  {}

  lemma AmountIsWorth(whole: string, n: nat, f: string, m: nat, after: string)
    requires IsAmount(whole, n, f, m) && EndsAmount(f, after)
    ensures ValueAtHead(whole + WithPoint(f) + after) == Worth(n, m, |f|)
  {
    WrittenValue(whole, n);
    PartsAreRead(whole, f, after);
    FractionIsWorth(f, m);
  }

  lemma SplitAfter(a: string, b: string, c: string)
    ensures (a + b + c)[..|a|] == a && (a + b + c)[|a|..] == b + c
  {}

  lemma FractionIsWorth(f: string, m: nat)
    requires AllDigits(f) && Writes(f, m)
    ensures FractionValue(f) == m as real / Pow10(|f|) as real
  {
    WrittenValue(f, m);
    PlainTextHasNoCommas(f);
    FractionIsOverPowerOfTen(f);
  }

  /** The amount, announced by a dollar sign and at most one whitespace, between two texts. */
  function Announced(before: string, gap: string, amount: string, after: string): string {
    before + "$" + gap + amount + after
  }

  predicate IsGap(gap: string) {
    gap == "" || (|gap| == 1 && IsSpace(gap[0]))
  }

  /** The parts of a text in which an amount is announced. */
  predicate HasParts(t: string, before: string, gap: string, amount: string, after: string) {
    var g := |before| + 1 + |gap|;
    && |t| == g + |amount| + |after|
    && t[..|before|] == before && t[|before|] == '$' && t[|before| + 1..g] == gap
    && t[g..] == amount + after && t[g..g + |amount|] == amount && t[g + |amount|..] == after
  }

  lemma AnnouncedParts(before: string, gap: string, amount: string, after: string)
    ensures HasParts(Announced(before, gap, amount, after), before, gap, amount, after)
  {}

  /** The amount is found where it is announced. */
  lemma AnnouncedFits(before: string, gap: string, amount: string, after: string)
    requires IsGap(gap) && amount != "" && IsDigit(amount[0])
    ensures var t := Announced(before, gap, amount, after);
            Fits(t, |before|) && AmountStart(t, |before|) == |before| + 1 + |gap|
  {
    AnnouncedParts(before, gap, amount, after);
    var t := Announced(before, gap, amount, after);
    assert gap != "" ==> t[|before| + 1] == gap[0];
    assert t[|before| + 1 + |gap|] == (amount + after)[0];
  }

  /** A text without amounts has none when another dollar sign follows it. */
  lemma NoneBefore(before: string, rest: string, i: nat)
    requires NoAmounts(before) && i < |before| && rest != "" && rest[0] == '$'
    ensures !Fits(before + rest, i)
  {
    var t := before + rest;
    assert t[|before|] == '$';
    assert !Fits(before, i);
    assert forall k :: 0 <= k < |before| ==> t[k] == before[k];
  }

  lemma NoneInside(t: string, amount: string, from: nat, i: nat)
    requires from <= i < from + |amount| <= |t| && t[from..from + |amount|] == amount && '$' !in amount
    ensures !Fits(t, i)
  {
    assert t[i] == amount[i - from];
  }

  lemma {:induction false} NoDollarInWritten(text: string, n: nat)
    requires Writes(text, n)
    ensures '$' !in text
  {
    WrittenValue(text, n);
  }

  /** Where the only amount of a text is announced, it alone decides. */
  lemma OnlyAmountDecides(t: string, i: nat, fl: Rounding)
    requires i < |t| && Fits(t, i) && forall j: nat :: j < |t| && j != i ==> !Fits(t, j)
    ensures AmountOverThreshold(t, fl) <==> fl(AmountValue(t, i)) > 500.0
  {
    assert OverThresholdAt(t, i, fl) <==> fl(AmountValue(t, i)) > 500.0;
    if AmountOverThreshold(t, fl) {
      var j: nat :| j < |t| && OverThresholdAt(t, j, fl);
    }
  }

  lemma NoneAfter(t: string, n: nat, after: string, j: nat)
    requires n <= |t| && t[n..] == after && NoAmounts(after) && n <= j
    ensures !Fits(t, j)
  {
    FitsInSuffix(t, n, j - n);
    assert j - n < |after| ==> !Fits(after, j - n);
  }

  lemma NoneInFront(t: string, before: string, j: nat)
    requires |before| < |t| && t[..|before|] == before && t[|before|] == '$' && NoAmounts(before) && j < |before|
    ensures !Fits(t, j)
  {
    NoneBefore(before, t[|before|..], j);
    assert before + t[|before|..] == t;
  }

  /** No amount but the announced one. */
  lemma NoOtherAmount(t: string, before: string, gap: string, amount: string, after: string, j: nat)
    requires HasParts(t, before, gap, amount, after) && j != |before|
    requires NoAmounts(before) && NoAmounts(after) && IsGap(gap) && '$' !in amount
    ensures !Fits(t, j)
  {
    var g := |before| + 1 + |gap|;
    if j < |before| {
      NoneInFront(t, before, j);
    } else if j < g {
      assert t[j] == gap[0];
    } else if j < g + |amount| {
      NoneInside(t, amount, g, j);
    } else {
      NoneAfter(t, g + |amount|, after, j);
    }
  }

  /**
   When a text announces one amount, the scan reports it if and only if what `float()` makes of
   its worth is more than 500: the number its digits write, whatever commas stand between them,
   and the number the digits after the point write, over a power of ten.
   */
  lemma OneAmountDecides(before: string, gap: string, whole: string, n: nat, f: string, m: nat, after: string,
                         fl: Rounding)
    requires NoAmounts(before) && NoAmounts(after) && IsGap(gap)
    requires IsAmount(whole, n, f, m) && EndsAmount(f, after)
    ensures AmountOverThreshold(Announced(before, gap, whole + WithPoint(f), after), fl)
       <==> fl(Worth(n, m, |f|)) > 500.0
  {
    var amount := whole + WithPoint(f);
    AmountBegins(whole, n, f, m);
    AnnouncedDecides(before, gap, amount, after, fl);
    AmountIsWorth(whole, n, f, m, after);
  }

  lemma AmountBegins(whole: string, n: nat, f: string, m: nat)
    requires IsAmount(whole, n, f, m)
    ensures var amount := whole + WithPoint(f); amount != "" && IsDigit(amount[0]) && '$' !in amount
  {
    WrittenValue(whole, n);
    NoDollarInWritten(whole, n);
    NoDollarInWritten(f, m);
    assert (whole + WithPoint(f))[0] == whole[0] && IsDigitOrComma(whole[0]);
  }

  lemma AnnouncedDecides(before: string, gap: string, amount: string, after: string, fl: Rounding)
    requires NoAmounts(before) && NoAmounts(after) && IsGap(gap)
    requires amount != "" && IsDigit(amount[0]) && '$' !in amount
    ensures AmountOverThreshold(Announced(before, gap, amount, after), fl) <==> fl(ValueAtHead(amount + after)) > 500.0
  {
    AnnouncedParts(before, gap, amount, after);
    AnnouncedFits(before, gap, amount, after);
    PartsDecide(Announced(before, gap, amount, after), before, gap, amount, after, fl);
  }

  lemma PartsDecide(t: string, before: string, gap: string, amount: string, after: string, fl: Rounding)
    requires HasParts(t, before, gap, amount, after)
    requires NoAmounts(before) && NoAmounts(after) && IsGap(gap) && '$' !in amount
    requires Fits(t, |before|) && AmountStart(t, |before|) == |before| + 1 + |gap|
    ensures AmountOverThreshold(t, fl) <==> fl(ValueAtHead(amount + after)) > 500.0
  {
    forall j: nat | j < |t| && j != |before| ensures !Fits(t, j) {
      NoOtherAmount(t, before, gap, amount, after, j);
    }
    OnlyAmountDecides(t, |before|, fl);
  }

  /** With whole dollars and a `float()` that is exact on them, the scan reports exactly the amounts over 500. */
  lemma WholeDollarsDecide(before: string, gap: string, n: nat, after: string, fl: Rounding)
    requires NoAmounts(before) && NoAmounts(after) && IsGap(gap) && EndsAmount("", after)
    requires fl(n as real) == n as real
    ensures AmountOverThreshold(Announced(before, gap, Digits(n), after), fl) <==> n > 500
  {
    DigitsWrite(n);
    OneAmountDecides(before, gap, Digits(n), n, "", 0, after, fl);
    assert Digits(n) + WithPoint("") == Digits(n);
  }

  // ---- The rules in plain words ----

  ghost predicate Infix(w: string, text: string) {
    exists a, b :: text == a + w + b
  }

  lemma ContainsIsInfix(text: string, w: string)
    ensures Contains(text, w) <==> Infix(w, text)
  {
    if Contains(text, w) {
      var i: nat :| i <= |text| - |w| && OccursAt(text, w, i);
      assert text == text[..i] + w + text[i + |w|..];
    }
    if Infix(w, text) {
      var a, b :| text == a + w + b;
      assert text[|a|..|a| + |w|] == w;
      assert OccursAt(text, w, |a|);
    }
  }

  /** The words that make a rule of their own. */
  const WORDS: seq<string> := ["legal", "lawsuit", "attorney", "security", "breach", "fraud", "refund"]

  lemma WordRuleFires(w: string, s: Signals, fl: Rounding)
    requires w in WORDS
    ensures w in Firing(ALL_RULES, s, fl) <==> Infix(w, Lower(s.ticketText))
  {
    assert w in ALL_RULES;
    ContainsIsInfix(Lower(s.ticketText), w);
    WordsAreNoSignals(w);
  }

  lemma WordsAreNoSignals(w: string)
    requires w in WORDS
    ensures w != "refund_over_threshold" && w != "low_confidence" && w != "agent_unresolved"
  {}

  lemma SignalRulesFire(s: Signals, fl: Rounding)
    ensures var fired := Firing(ALL_RULES, s, fl);
            && ("low_confidence" in fired <==> s.confidenceScore < 0.7)
            && ("agent_unresolved" in fired <==> s.agentUnresolved)
            && ("refund_over_threshold" in fired <==>
                  Infix("refund", Lower(s.ticketText)) && AmountOverThreshold(Lower(s.ticketText), fl))
  {
    assert ALL_RULES[7] == "refund_over_threshold" && ALL_RULES[8] == "low_confidence"
        && ALL_RULES[9] == "agent_unresolved";
    assert "low_confidence" != "refund_over_threshold" && "agent_unresolved" != "refund_over_threshold"
        && "agent_unresolved" != "low_confidence";
    ContainsIsInfix(Lower(s.ticketText), "refund");
  }

  /**
   The rules reported are those of the words that occur in the text whatever their case, of an
   amount over the threshold in a text that mentions a refund, of a confidence below 0.7, and of
   an agent that gave up; and there are no others.
   */
  lemma RulesInPlainWords(s: Signals, fl: Rounding)
    ensures var fired, text := Firing(ALL_RULES, s, fl), Lower(s.ticketText);
            && (forall w :: w in WORDS ==> (w in fired <==> Infix(w, text)))
            && ("refund_over_threshold" in fired <==> Infix("refund", text) && AmountOverThreshold(text, fl))
            && ("low_confidence" in fired <==> s.confidenceScore < 0.7)
            && ("agent_unresolved" in fired <==> s.agentUnresolved)
            && (forall rule :: rule in fired ==>
                  rule in WORDS || rule in ["refund_over_threshold", "low_confidence", "agent_unresolved"])
  {
    forall w | w in WORDS ensures w in Firing(ALL_RULES, s, fl) <==> Infix(w, Lower(s.ticketText)) {
      WordRuleFires(w, s, fl);
    }
    SignalRulesFire(s, fl);
    assert ALL_RULES == WORDS + ["refund_over_threshold", "low_confidence", "agent_unresolved"];
  }

  lemma {:induction false} JoinedPartIsInfix(sep: string, parts: seq<string>, k: nat)
    requires k < |parts|
    ensures Infix(parts[k], Join(sep, parts))
    decreases |parts|
  {
    var whole := Join(sep, parts);
    if |parts| == 1 {
      assert whole == "" + parts[0] + "";
    } else if k == 0 {
      assert whole == "" + parts[0] + (sep + Join(sep, parts[1..]));
    } else {
      JoinedPartIsInfix(sep, parts[1..], k - 1);
      InfixOfLonger(parts[k], Join(sep, parts[1..]), parts[0] + sep, "");
      assert whole == parts[0] + sep + Join(sep, parts[1..]) + "";
    }
  }

  lemma InfixOfLonger(w: string, text: string, before: string, after: string)
    requires Infix(w, text)
    ensures Infix(w, before + text + after)
  {
    var a, b :| text == a + w + b;
    assert before + text + after == (before + a) + w + (b + after);
  }

  /** The reason given for an evaluation names every rule that fired, or says that none did. */
  lemma ReasonNamesTheRules(rules: seq<string>, k: nat)
    ensures rules == [] ==> BuildReason(rules) == "No escalation rules matched; eligible for automated response."
    ensures k < |rules| ==> Infix(rules[k], BuildReason(rules)) && "Escalation rules matched: " <= BuildReason(rules)
  {
    if k < |rules| {
      JoinedPartIsInfix(", ", rules, k);
      InfixOfLonger(rules[k], Join(", ", rules), "Escalation rules matched: ", ".");
    }
  }
}
