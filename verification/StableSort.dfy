/**
 Python's `sorted(xs, key=score, reverse=True)`: descending, and stable, so that equal
 elements keep their incoming order. `Position` says independently where each element ends.
 */
module StableSort {

  function InsertDesc<T>(x: T, ys: seq<T>, score: T -> int): (r: seq<T>)
    ensures |r| == |ys| + 1
  {
    if ys == [] || score(ys[0]) <= score(x) then [x] + ys
    else [ys[0]] + InsertDesc(x, ys[1..], score)
  }

  function SortDesc<T>(xs: seq<T>, score: T -> int): (r: seq<T>)
    ensures |r| == |xs|
  {
    if xs == [] then [] else InsertDesc(xs[0], SortDesc(xs[1..], score), score)
  }

  function Take<T>(xs: seq<T>, limit: nat): (r: seq<T>)
    ensures |r| == if limit <= |xs| then limit else |xs|
  {
    xs[..if limit <= |xs| then limit else |xs|]
  }

  /** How many elements score more than `v`. */
  function CountAbove<T>(xs: seq<T>, score: T -> int, v: int): nat {
    if xs == [] then 0 else (if score(xs[0]) > v then 1 else 0) + CountAbove(xs[1..], score, v)
  }

  /** How many elements score exactly `v`. */
  function CountTies<T>(xs: seq<T>, score: T -> int, v: int): nat {
    if xs == [] then 0 else (if score(xs[0]) == v then 1 else 0) + CountTies(xs[1..], score, v)
  }

  /** The place of `xs[i]` in the order: after all better elements and all earlier ties. */
  function Position<T>(xs: seq<T>, score: T -> int, i: nat): nat
    requires i < |xs|
  {
    CountAbove(xs, score, score(xs[i])) + CountTies(xs[..i], score, score(xs[i]))
  }

  ghost predicate Descending<T>(xs: seq<T>, score: T -> int) {
    forall i, j :: 0 <= i < j < |xs| ==> score(xs[i]) >= score(xs[j])
  }

  // ---- Insertion ----

  lemma ConsSplit<T>(x: T, ys: seq<T>, n: nat)
    requires ys != [] && n < |ys|
    ensures [ys[0]] + (ys[1..][..n] + [x] + ys[1..][n..]) == ys[..n + 1] + [x] + ys[n + 1..]
  {}

  /** Where `InsertDesc` puts `x`. */
  function Slot<T>(x: T, ys: seq<T>, score: T -> int): (n: nat)
    ensures n <= |ys|
    ensures forall i :: 0 <= i < n ==> score(ys[i]) > score(x)
    ensures n < |ys| ==> score(ys[n]) <= score(x)
    ensures InsertDesc(x, ys, score) == ys[..n] + [x] + ys[n..]
  {
    if ys == [] || score(ys[0]) <= score(x) then 0
    else
      var n := Slot(x, ys[1..], score);
      ConsSplit(x, ys, n);
      n + 1
  }

  lemma InsertDescends<T>(x: T, ys: seq<T>, score: T -> int)
    requires Descending(ys, score)
    ensures Descending(InsertDesc(x, ys, score), score)
  {
    var n := Slot(x, ys, score);
    forall i | n <= i < |ys| ensures score(ys[i]) <= score(x) {
      assert n < i ==> score(ys[n]) >= score(ys[i]);
    }
    var zs := InsertDesc(x, ys, score);
    assert forall i :: 0 <= i < |zs| ==> zs[i] == if i < n then ys[i] else if i == n then x else ys[i - 1];
    forall i, j | 0 <= i < j < |zs| ensures score(zs[i]) >= score(zs[j]) {
    }
  }

  lemma {:induction false} SortDescends<T>(xs: seq<T>, score: T -> int)
    ensures Descending(SortDesc(xs, score), score)
  {
    if xs != [] {
      SortDescends(xs[1..], score);
      InsertDescends(xs[0], SortDesc(xs[1..], score), score);
    }
  }

  lemma {:induction false} CountAboveAppend<T>(a: seq<T>, b: seq<T>, score: T -> int, v: int)
    ensures CountAbove(a + b, score, v) == CountAbove(a, score, v) + CountAbove(b, score, v)
  {
    if a == [] {
      assert a + b == b;
    } else {
      CountAboveAppend(a[1..], b, score, v);
      assert (a + b)[1..] == a[1..] + b;
    }
  }

  lemma {:induction false} SortKeepsCountAbove<T>(xs: seq<T>, score: T -> int, v: int)
    ensures CountAbove(SortDesc(xs, score), score, v) == CountAbove(xs, score, v)
  {
    if xs != [] {
      var ys := SortDesc(xs[1..], score);
      SortKeepsCountAbove(xs[1..], score, v);
      var n := Slot(xs[0], ys, score);
      CountAboveInsert(ys[..n], xs[0], ys[n..], score, v);
      assert ys == ys[..n] + ys[n..];
    }
  }

  lemma CountAboveInsert<T>(a: seq<T>, x: T, b: seq<T>, score: T -> int, v: int)
    ensures CountAbove(a + [x] + b, score, v) == CountAbove(a + b, score, v) + if score(x) > v then 1 else 0
  {
    CountAboveAppend(a + [x], b, score, v);
    CountAboveAppend(a, [x], score, v);
    CountAboveAppend(a, b, score, v);
  }

  lemma {:induction false} CountAboveOfSplit<T>(ys: seq<T>, score: T -> int, v: int, n: nat)
    requires n <= |ys|
    requires forall i :: 0 <= i < n ==> score(ys[i]) > v
    requires forall i :: n <= i < |ys| ==> score(ys[i]) <= v
    ensures CountAbove(ys, score, v) == n
  {
    if ys != [] {
      CountAboveOfSplit(ys[1..], score, v, if n == 0 then 0 else n - 1);
    }
  }

  lemma SlotIsCountAbove<T>(x: T, ys: seq<T>, score: T -> int)
    requires Descending(ys, score)
    ensures Slot(x, ys, score) == CountAbove(ys, score, score(x))
  {
    var n := Slot(x, ys, score);
    forall i | n <= i < |ys| ensures score(ys[i]) <= score(x) {
      assert score(ys[n]) >= score(ys[i]);
    }
    CountAboveOfSplit(ys, score, score(x), n);
  }

  // ---- The sorted order is the order of positions ----

  lemma PositionInLongerList<T>(x: T, rest: seq<T>, score: T -> int, i: nat)
    requires i < |rest|
    ensures Position([x] + rest, score, i + 1)
         == Position(rest, score, i) + if score(x) >= score(rest[i]) then 1 else 0
  {
    var xs := [x] + rest;
    assert xs[1..] == rest && xs[..i + 1][1..] == rest[..i] && xs[..i + 1][0] == x;
  }

  /** Each element stands in the sorted sequence at its position. */
  lemma {:induction false} SortPutsEachAtItsPosition<T>(xs: seq<T>, score: T -> int, i: nat)
    requires i < |xs|
    ensures Position(xs, score, i) < |xs|
    ensures SortDesc(xs, score)[Position(xs, score, i)] == xs[i]
  {
    var x, rest := xs[0], xs[1..];
    var ys := SortDesc(rest, score);
    var n := Slot(x, ys, score);
    SortDescends(rest, score);
    if i == 0 {
      SlotIsCountAbove(x, ys, score);
      SortKeepsCountAbove(rest, score, score(x));
      assert Position(xs, score, 0) == n;
    } else {
      SortPutsEachAtItsPosition(rest, score, i - 1);
      var p := Position(rest, score, i - 1);
      assert xs == [x] + rest;
      PositionInLongerList(x, rest, score, i - 1);
      SplitAtSlot(x, ys, score, p);
    }
  }

  lemma SplitAtSlot<T>(x: T, ys: seq<T>, score: T -> int, p: nat)
    requires p < |ys| && Descending(ys, score)
    ensures InsertDesc(x, ys, score)[p + if score(x) >= score(ys[p]) then 1 else 0] == ys[p]
  {
    var n := Slot(x, ys, score);
    if n <= p {
      assert score(ys[n]) >= score(ys[p]);
    }
  }

  lemma {:induction false} CountsGrow<T>(xs: seq<T>, score: T -> int, v: int, w: int)
    requires v > w
    ensures CountAbove(xs, score, v) + CountTies(xs, score, v) <= CountAbove(xs, score, w)
  {
    if xs != [] {
      CountsGrow(xs[1..], score, v, w);
    }
  }

  lemma {:induction false} CountTiesAppend<T>(a: seq<T>, b: seq<T>, score: T -> int, v: int)
    ensures CountTies(a + b, score, v) == CountTies(a, score, v) + CountTies(b, score, v)
  {
    if a == [] {
      assert a + b == b;
    } else {
      CountTiesAppend(a[1..], b, score, v);
      assert (a + b)[1..] == a[1..] + b;
    }
  }

  lemma EarlierTie<T>(xs: seq<T>, score: T -> int, i: nat, j: nat)
    requires i < j <= |xs|
    ensures CountTies(xs[..i], score, score(xs[i])) < CountTies(xs[..j], score, score(xs[i]))
  {
    var v := score(xs[i]);
    assert xs[..j] == xs[..i] + [xs[i]] + xs[i + 1..j];
    CountTiesAppend(xs[..i] + [xs[i]], xs[i + 1..j], score, v);
    CountTiesAppend(xs[..i], [xs[i]], score, v);
  }

  /** Positions are ordered by descending score and, among ties, by incoming order; so they never coincide. */
  lemma PositionsAreOrdered<T>(xs: seq<T>, score: T -> int, i: nat, j: nat)
    requires i < |xs| && j < |xs|
    requires score(xs[i]) > score(xs[j]) || (score(xs[i]) == score(xs[j]) && i < j)
    ensures Position(xs, score, i) < Position(xs, score, j)
  {
    if score(xs[i]) > score(xs[j]) {
      CountsGrow(xs, score, score(xs[i]), score(xs[j]));
      EarlierTie(xs, score, i, |xs|);
      assert xs[..|xs|] == xs;
    } else {
      EarlierTie(xs, score, i, j);
    }
  }

  // ---- Sorting keeps the elements and refines their order ----

  lemma {:induction false} InsertKeepsElements<T>(x: T, ys: seq<T>, score: T -> int)
    ensures multiset(InsertDesc(x, ys, score)) == multiset{x} + multiset(ys)
  {
    if ys != [] && score(ys[0]) > score(x) {
      InsertKeepsElements(x, ys[1..], score);
      assert ys == [ys[0]] + ys[1..];
    }
  }

  lemma {:induction false} SortKeepsElements<T>(xs: seq<T>, score: T -> int)
    ensures multiset(SortDesc(xs, score)) == multiset(xs)
  {
    if xs != [] {
      SortKeepsElements(xs[1..], score);
      InsertKeepsElements(xs[0], SortDesc(xs[1..], score), score);
      assert xs == [xs[0]] + xs[1..];
    }
  }

  lemma SortKeepsMember<T>(xs: seq<T>, score: T -> int, x: T)
    ensures x in SortDesc(xs, score) <==> x in xs
  {
    SortKeepsElements(xs, score);
    assert x in multiset(xs) <==> x in xs;
    assert x in multiset(SortDesc(xs, score)) <==> x in SortDesc(xs, score);
  }

  lemma SortKeepsMembers<T>(xs: seq<T>, score: T -> int)
    ensures forall x :: x in SortDesc(xs, score) <==> x in xs
  {
    forall x ensures x in SortDesc(xs, score) <==> x in xs {
      SortKeepsMember(xs, score, x);
    }
  }

  ghost predicate Ordered<T>(xs: seq<T>, rel: (T, T) -> bool) {
    forall i, j :: 0 <= i < j < |xs| ==> rel(xs[i], xs[j])
  }

  /** Higher scores first, and `rel` among ties. */
  ghost predicate Before<T>(a: T, b: T, score: T -> int, rel: (T, T) -> bool) {
    score(a) > score(b) || (score(a) == score(b) && rel(a, b))
  }

  ghost predicate InOrder<T>(xs: seq<T>, score: T -> int, rel: (T, T) -> bool) {
    forall i, j :: 0 <= i < j < |xs| ==> Before(xs[i], xs[j], score, rel)
  }

  lemma InsertKeepsOrder<T>(x: T, ys: seq<T>, score: T -> int, rel: (T, T) -> bool)
    requires InOrder(ys, score, rel) && forall k :: 0 <= k < |ys| ==> rel(x, ys[k])
    ensures InOrder(InsertDesc(x, ys, score), score, rel)
  {
    var n := Slot(x, ys, score);
    forall k | n <= k < |ys| ensures Before(x, ys[k], score, rel) {
      if n < k {
        assert Before(ys[n], ys[k], score, rel);
      }
    }
    SlottedIsInOrder(x, ys, n, score, rel);
  }

  lemma SlottedIsInOrder<T>(x: T, ys: seq<T>, n: nat, score: T -> int, rel: (T, T) -> bool)
    requires n <= |ys| && InOrder(ys, score, rel)
    requires forall k :: 0 <= k < n ==> score(ys[k]) > score(x)
    requires forall k :: n <= k < |ys| ==> Before(x, ys[k], score, rel)
    ensures InOrder(InsertAt(ys, n, x), score, rel)
  {
    var zs := InsertAt(ys, n, x);
    forall i, j | 0 <= i < j < |zs| ensures Before(zs[i], zs[j], score, rel) {
      var i', j' := if i <= n then i else i - 1, if j <= n then j else j - 1;
      InsertedElements(x, ys, n);
      if i != n && j != n {
        assert Before(ys[i'], ys[j'], score, rel);
      }
    }
  }

  lemma InsertedElements<T>(x: T, ys: seq<T>, n: nat)
    requires n <= |ys|
    ensures var r := InsertAt(ys, n, x);
            forall k :: 0 <= k < |r| ==> r[k] == if k < n then ys[k] else if k == n then x else ys[k - 1]
  {}

  /** Sorting a sequence that is in the order `rel` keeps that order among ties. */
  lemma {:induction false} SortOrders<T>(xs: seq<T>, score: T -> int, rel: (T, T) -> bool)
    requires Ordered(xs, rel)
    ensures InOrder(SortDesc(xs, score), score, rel)
  {
    if xs != [] {
      var rest := SortDesc(xs[1..], score);
      SortOrders(xs[1..], score, rel);
      forall k | 0 <= k < |rest| ensures rel(xs[0], rest[k]) {
        SortKeepsMember(xs[1..], score, rest[k]);
        var m :| 0 <= m < |xs[1..]| && xs[1..][m] == rest[k];
        assert xs[1..][m] == xs[m + 1];
      }
      InsertKeepsOrder(xs[0], rest, score, rel);
    }
  }

  // ---- Special cases and changes of the input ----

  lemma {:induction false} SortOfEquals<T>(xs: seq<T>, score: T -> int)
    requires forall i, j :: 0 <= i < |xs| && 0 <= j < |xs| ==> score(xs[i]) == score(xs[j])
    ensures SortDesc(xs, score) == xs
  {
    if |xs| > 1 {
      SortOfEquals(xs[1..], score);
      assert SortDesc(xs[1..], score)[0] == xs[1];
    }
  }

  function InsertAt<T>(xs: seq<T>, n: nat, a: T): seq<T>
    requires n <= |xs|
  {
    xs[..n] + [a] + xs[n..]
  }

  lemma SlotUnique<T>(x: T, ys: seq<T>, score: T -> int, n: nat)
    requires n <= |ys|
    requires forall i :: 0 <= i < n ==> score(ys[i]) > score(x)
    requires n < |ys| ==> score(ys[n]) <= score(x)
    ensures Slot(x, ys, score) == n
  {}

  lemma InsertionsCommute<T>(ys: seq<T>, n: nat, a: T, k: nat, x: T)
    requires n <= |ys| && k <= |ys| + 1
    ensures k <= n ==> InsertAt(InsertAt(ys, n, a), k, x) == InsertAt(InsertAt(ys, k, x), n + 1, a)
    ensures n < k ==> InsertAt(InsertAt(ys, n, a), k, x) == InsertAt(InsertAt(ys, k - 1, x), n, a)
  {
    var l := InsertAt(InsertAt(ys, n, a), k, x);
    var r := if k <= n then InsertAt(InsertAt(ys, k, x), n + 1, a) else InsertAt(InsertAt(ys, k - 1, x), n, a);
    assert |l| == |r|;
    assert forall i :: 0 <= i < |l| ==> l[i] == r[i];
  }

  lemma InsertAtElements<T>(ys: seq<T>, n: nat, a: T)
    requires n <= |ys|
    ensures forall i :: 0 <= i < |ys| ==> InsertAt(ys, n, a)[if i < n then i else i + 1] == ys[i]
  {}

  lemma SlotWithout<T>(x: T, ys: seq<T>, zs: seq<T>, n: nat, k: nat, score: T -> int)
    requires |zs| == |ys| + 1 && n <= |ys| && k <= |zs| && Descending(zs, score)
    requires forall i :: 0 <= i < |ys| ==> zs[if i < n then i else i + 1] == ys[i]
    requires forall i :: 0 <= i < k ==> score(zs[i]) > score(x)
    requires k < |zs| ==> score(zs[k]) <= score(x)
    ensures Slot(x, ys, score) == if k <= n then k else k - 1
  {
    var l := if k <= n then k else k - 1;
    if l < |ys| {
      var j := if l < n then l else l + 1;
      assert ys[l] == zs[j];
      assert k < j ==> score(zs[k]) >= score(zs[j]);
    }
    SlotUnique(x, ys, score, l);
  }

  lemma SlotWithExtra<T>(x: T, ys: seq<T>, n: nat, a: T, score: T -> int)
    requires n <= |ys| && Descending(InsertAt(ys, n, a), score)
    ensures var k := Slot(x, InsertAt(ys, n, a), score);
            Slot(x, ys, score) == if k <= n then k else k - 1
  {
    var zs := InsertAt(ys, n, a);
    var k := Slot(x, zs, score);
    InsertAtElements(ys, n, a);
    SlotWithout(x, ys, zs, n, k, score);
  }

  lemma InsertKeepsExtra<T>(x: T, ys: seq<T>, n: nat, a: T, score: T -> int) returns (m: nat)
    requires n <= |ys| && Descending(InsertAt(ys, n, a), score)
    ensures m <= |ys| + 1
    ensures InsertDesc(x, InsertAt(ys, n, a), score) == InsertAt(InsertDesc(x, ys, score), m, a)
  {
    var k := Slot(x, InsertAt(ys, n, a), score);
    SlotWithExtra(x, ys, n, a, score);
    InsertionsCommute(ys, n, a, k, x);
    m := if k <= n then n + 1 else n;
  }

  /** One more element in the input is one more element in the order; the others keep theirs. */
  lemma {:induction false} SortOfInsertion<T>(xs: seq<T>, p: nat, a: T, score: T -> int) returns (m: nat)
    requires p <= |xs|
    ensures m <= |xs|
    ensures SortDesc(InsertAt(xs, p, a), score) == InsertAt(SortDesc(xs, score), m, a)
  {
    var zs := InsertAt(xs, p, a);
    if p == 0 {
      assert zs[0] == a && zs[1..] == xs;
      m := Slot(a, SortDesc(xs, score), score);
    } else {
      m := SortOfInsertion(xs[1..], p - 1, a, score);
      assert zs[0] == xs[0] && zs[1..] == InsertAt(xs[1..], p - 1, a);
      SortDescends(zs[1..], score);
      m := InsertKeepsExtra(xs[0], SortDesc(xs[1..], score), m, a, score);
    }
  }

  lemma TakeOfInsertion<T>(xs: seq<T>, m: nat, a: T, limit: nat)
    requires m <= |xs|
    ensures m < limit ==> m <= |Take(xs, limit)|
    ensures Take(InsertAt(xs, m, a), limit) ==
            if m < limit then Take(InsertAt(Take(xs, limit), m, a), limit) else Take(xs, limit)
  {}
}
