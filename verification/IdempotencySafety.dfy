/**
 What the idempotency protocol guarantees over whole runs, and exactly when it stops doing so.
 */
module IdempotencySafety {
  import opened Options
  import opened TtlStore
  import opened TicketResponses
  import opened IdempotencyProtocol

  lemma {:induction false} TimelyRunKeepsInv(s: State, es: seq<Event>)
    requires Inv(s) && IsTimelyRun(s, es)
    ensures Inv(Run(s, es))
    decreases |es|
  {
    if es != [] {
      var front := es[..|es| - 1];
      TimelyRunKeepsInv(s, front);
      StepKeepsInv(Run(s, front), es[|es| - 1]);
    }
  }

  /** The state a timely run from the start ends in. */
  ghost function Reached(ttl: nat, es: seq<Event>): State
    requires IsTimelyRun(Init(ttl), es)
  {
    Run(Init(ttl), es)
  }

  lemma ReachedIsSound(ttl: nat, es: seq<Event>)
    requires IsTimelyRun(Init(ttl), es)
    ensures Inv(Reached(ttl, es)) && Timely(Reached(ttl, es))
  {
    InitInv(ttl);
    TimelyRunKeepsInv(Init(ttl), es);
  }

  // ---- Mutual exclusion ----

  predicate HoldsKey(s: State, r: RequestId, key: string) {
    r in s.requests && Holds(s.requests[r]) && s.requests[r].key == Some(key)
  }

  ghost predicate Exclusive(s: State) {
    forall r1, r2, key :: HoldsKey(s, r1, key) && HoldsKey(s, r2, key) ==> r1 == r2
  }

  lemma InvIsExclusive(s: State)
    requires Inv(s)
    ensures Exclusive(s)
  {
    forall r1, r2, key | HoldsKey(s, r1, key) && HoldsKey(s, r2, key) ensures r1 == r2 {
      HolderFacts(s, r1);
      HolderFacts(s, r2);
    }
  }

  /** At most one request per key is ever between its claim and its completion or release. */
  lemma AtMostOneHolder(ttl: nat, es: seq<Event>)
    requires IsTimelyRun(Init(ttl), es)
    ensures Exclusive(Reached(ttl, es))
  {
    ReachedIsSound(ttl, es);
    InvIsExclusive(Reached(ttl, es));
  }

  /** The request holds `key` although the time to live of its claim is over. */
  predicate Overdue(s: State, r: RequestId, key: string) {
    HoldsKey(s, r, key) && !InTime(s.ttl, s.now, s.claims, s.requests[r])
  }

  /** A request is changed by nobody's steps but its own. */
  lemma OthersLeaveRequest(s: State, e: Event, r: RequestId)
    requires Enabled(s, e) && (e.Tick? || e.r != r)
    ensures r in Apply(s, e).requests <==> r in s.requests
    ensures r in s.requests ==> Apply(s, e).requests[r] == s.requests[r]
  {
    match e
    case CommitTicket(_, ticket, delivery) => OthersLeaveRequestAtCommit(s, e, r);
    case ExecutionFails(q, error) =>
      assert r in s.requests ==> Fail(s, q, error).requests[r] == s.requests[r];
    case _ =>
  }

  lemma OthersLeaveRequestAtCommit(s: State, e: Event, r: RequestId)
    requires Enabled(s, e) && e.CommitTicket? && e.r != r
    ensures r in Apply(s, e).requests <==> r in s.requests
    ensures r in s.requests ==> Apply(s, e).requests[r] == s.requests[r]
  {
    assert r in s.requests ==> Commit(s, e.r, e.ticket).requests[r] == s.requests[r];
    assert r in Commit(s, e.r, e.ticket).requests <==> r in s.requests;
  }

  lemma HoldersOnlyByClaim(s: State, e: Event, p: RequestId, key: string)
    requires Enabled(s, e) && HoldsKey(Apply(s, e), p, key)
    ensures HoldsKey(s, p, key)
         || (&& e.TryClaim? && e.delivery.Delivered? && e.r == p && s.requests[p].key == Some(key)
             && !Live(s.store, key, s.now))
  {
    if e.Tick? || e.r != p {
      OthersLeaveRequest(s, e, p);
    } else if e.TryClaim? {
      OwnClaimHolds(s, e, key);
    } else {
      OthersStayHolders(s, e, key);
    }
  }

  lemma OwnClaimHolds(s: State, e: Event, key: string)
    requires Enabled(s, e) && e.TryClaim? && HoldsKey(Apply(s, e), e.r, key)
    ensures e.delivery.Delivered? && s.requests[e.r].key == Some(key) && !Live(s.store, key, s.now)
  {}

  lemma OthersStayHolders(s: State, e: Event, key: string)
    requires Enabled(s, e) && !e.Tick? && !e.TryClaim? && HoldsKey(Apply(s, e), e.r, key)
    ensures HoldsKey(s, e.r, key)
  {}

  lemma HoldersStayUnlessSettled(s: State, e: Event, p: RequestId, key: string)
    requires Enabled(s, e) && HoldsKey(s, p, key) && e.TryClaim?
    ensures HoldsKey(Apply(s, e), p, key)
  {}

  /** Redis grants, and says so, a key that some request still holds: the guard of `SET NX` no longer protects it. */
  ghost predicate GrantsHeldKey(s: State, e: Event) {
    && e.TryClaim? && e.delivery.Delivered? && e.r in s.requests && s.requests[e.r].key.Some?
    && !Live(s.store, s.requests[e.r].key.value, s.now)
    && exists h :: HoldsKey(s, h, s.requests[e.r].key.value)
  }

  /** Whatever happened before, a step gives a key a second holder exactly when it grants a held key. */
  lemma StepBreaksExclusionExactly(s: State, e: Event)
    requires Exclusive(s) && Enabled(s, e)
    ensures Exclusive(Apply(s, e)) <==> !GrantsHeldKey(s, e)
  {
    var s' := Apply(s, e);
    if GrantsHeldKey(s, e) {
      var key := s.requests[e.r].key.value;
      var h :| HoldsKey(s, h, key);
      HoldersStayUnlessSettled(s, e, h, key);
      assert HoldsKey(s', e.r, key) && HoldsKey(s', h, key) && h != e.r;
    } else {
      forall r1, r2, key | HoldsKey(s', r1, key) && HoldsKey(s', r2, key) ensures r1 == r2 {
        HoldersOnlyByClaim(s, e, r1, key);
        HoldersOnlyByClaim(s, e, r2, key);
      }
    }
  }

  lemma {:induction false} PrefixIsRun(s: State, es: seq<Event>, n: nat)
    requires IsRun(s, es) && n <= |es|
    ensures IsRun(s, es[..n])
    decreases |es|
  {
    if n == |es| {
      assert es[..n] == es;
    } else {
      var front := es[..|es| - 1];
      PrefixIsRun(s, front, n);
      assert front[..n] == es[..n];
    }
  }

  /** The state after the first `n` steps. */
  ghost function After(start: State, es: seq<Event>, n: nat): State
    requires IsRun(start, es) && n <= |es|
  {
    PrefixIsRun(start, es, n);
    Run(start, es[..n])
  }

  ghost predicate Steps(s: State, e: Event, s': State) {
    Enabled(s, e) && s' == Apply(s, e)
  }

  lemma LastStep(s: State, es: seq<Event>)
    requires IsRun(s, es) && es != []
    ensures IsRun(s, es[..|es| - 1]) && Steps(Run(s, es[..|es| - 1]), es[|es| - 1], Run(s, es))
  {}

  lemma AfterStep(start: State, es: seq<Event>, n: nat)
    requires IsRun(start, es) && n < |es|
    ensures Steps(After(start, es, n), es[n], After(start, es, n + 1))
  {
    PrefixIsRun(start, es, n + 1);
    assert es[..n + 1][..n] == es[..n];
    LastStep(start, es[..n + 1]);
  }

  lemma {:induction false} ExclusiveUntil(start: State, es: seq<Event>, n: nat)
    requires Exclusive(start) && IsRun(start, es) && n <= |es|
    requires forall m: nat :: m < |es| ==> !GrantsHeldKey(After(start, es, m), es[m])
    ensures Exclusive(After(start, es, n))
  {
    if n > 0 {
      ExclusiveUntil(start, es, n - 1);
      AfterStep(start, es, n - 1);
      StepBreaksExclusionExactly(After(start, es, n - 1), es[n - 1]);
    }
  }

  /**
   In every run, timely or not, from the start or from any state in which no key has two holders,
   no key ever has two holders if and only if Redis never grants a
   key that some request still holds.
   */
  lemma ExclusionBreaksExactly(start: State, es: seq<Event>)
    requires Exclusive(start) && IsRun(start, es)
    ensures AlwaysExclusive(start, es)
       <==> (forall m: nat :: m < |es| ==> !GrantsHeldKey(After(start, es, m), es[m]))
  {
    if AlwaysExclusive(start, es) {
      forall m: nat | m < |es| ensures !GrantsHeldKey(After(start, es, m), es[m]) {
        AfterStep(start, es, m);
        assert Exclusive(After(start, es, m)) && Exclusive(After(start, es, m + 1));
        StepBreaksExclusionExactly(After(start, es, m), es[m]);
      }
    }
    if forall m: nat :: m < |es| ==> !GrantsHeldKey(After(start, es, m), es[m]) {
      forall n: nat | n <= |es| ensures Exclusive(After(start, es, n)) {
        ExclusiveUntil(start, es, n);
      }
    }
  }

  /** A holder's key is in the store, with at least the time that the holder's own claim gave it. */
  ghost predicate HolderKeyLasts(s: State, r: RequestId, key: string)
    requires HoldsKey(s, r, key)
  {
    && HeldClaim(s.requests[r]) < |s.claims| && key in s.store
    && s.claims[HeldClaim(s.requests[r])].at + s.ttl <= s.store[key].expiry
  }

  ghost predicate HeldKeysLast(s: State) {
    forall r, key :: HoldsKey(s, r, key) ==> HolderKeyLasts(s, r, key)
  }

  /** A step of another request leaves a holder its key, unless the other one holds it too. */
  lemma OthersKeepHeldKey(s: State, e: Event, r: RequestId, key: string)
    requires Enabled(s, e) && HoldsKey(s, r, key) && HolderKeyLasts(s, r, key)
    requires e.Tick? || e.r != r
    requires !e.Tick? ==> !HoldsKey(s, e.r, key)
    requires e.Complete? || e.Release? ==> Holds(s.requests[e.r])
    requires s.claims[HeldClaim(s.requests[r])].at <= s.now
    ensures key in Apply(s, e).store && s.claims[HeldClaim(s.requests[r])].at + s.ttl <= Apply(s, e).store[key].expiry
  {}

  lemma StepKeepsHeldKeys(s: State, e: Event)
    requires Paired(s) && Bounded(s) && Exclusive(s) && HeldKeysLast(s) && Enabled(s, e)
    ensures HeldKeysLast(Apply(s, e))
  {
    var s' := Apply(s, e);
    forall r, key | HoldsKey(s', r, key) ensures HolderKeyLasts(s', r, key) {
      HoldersOnlyByClaim(s, e, r, key);
      if !e.Tick? && e.r == r {
        OwnKeyLasts(s, e, key);
      } else {
        OthersKeyLasts(s, e, r, key);
      }
    }
  }

  lemma OthersKeyLasts(s: State, e: Event, r: RequestId, key: string)
    requires Paired(s) && Bounded(s) && Exclusive(s) && HeldKeysLast(s) && Enabled(s, e)
    requires (e.Tick? || e.r != r) && HoldsKey(s, r, key) && HoldsKey(Apply(s, e), r, key)
    ensures HolderKeyLasts(Apply(s, e), r, key)
  {
    OthersLeaveRequest(s, e, r);
    assert PhaseOk(r, s.requests[r], s.claims);
    HeldClaimsDiffer(s, e, r);
    StepLeavesOtherClaims(s, e, HeldClaim(s.requests[r]));
    OthersKeepHeldKey(s, e, r, key);
  }

  /** A claim that wins gives its key the full time to live. */
  lemma ClaimedKeyLasts(s: State, e: Event, key: string)
    requires Enabled(s, e) && e.TryClaim? && !HoldsKey(s, e.r, key) && HoldsKey(Apply(s, e), e.r, key)
    ensures HolderKeyLasts(Apply(s, e), e.r, key)
  {}

  /** A holder's own step leaves it its key, unless the key is given up. */
  lemma HolderKeepsKey(s: State, e: Event, key: string)
    requires Enabled(s, e) && !e.Tick? && HoldsKey(s, e.r, key) && HoldsKey(Apply(s, e), e.r, key)
    ensures var s' := Apply(s, e);
            && HeldClaim(s'.requests[e.r]) == HeldClaim(s.requests[e.r]) && s'.store == s.store && s'.ttl == s.ttl
  {
    match e
    case CommitTicket(r, ticket, delivery) => CommitKeepsKey(s, r, ticket, delivery);
    case _ =>
  }

  lemma CommitKeepsKey(s: State, r: RequestId, ticket: Ticket, delivery: Delivery)
    requires Enabled(s, CommitTicket(r, ticket, delivery)) && Holds(s.requests[r])
    requires var q := Apply(s, CommitTicket(r, ticket, delivery)).requests; r in q && Holds(q[r])
    ensures var s' := Apply(s, CommitTicket(r, ticket, delivery));
            HeldClaim(s'.requests[r]) == HeldClaim(s.requests[r]) && s'.store == s.store && s'.ttl == s.ttl
  {
    assert Commit(s, r, ticket).store == s.store && Commit(s, r, ticket).ttl == s.ttl;
  }

  lemma ClaimTimesStay(s: State, e: Event, c: nat)
    requires Enabled(s, e) && c < |s.claims|
    ensures c < |Apply(s, e).claims| && Apply(s, e).claims[c].at == s.claims[c].at
  {
    match e
    case CommitTicket(r, ticket, delivery) =>
      assert c < |Commit(s, r, ticket).claims| && Commit(s, r, ticket).claims[c].at == s.claims[c].at;
    case ExecutionFails(r, error) =>
      assert c < |Fail(s, r, error).claims| && Fail(s, r, error).claims[c].at == s.claims[c].at;
    case _ =>
  }

  /** A request that still holds its key after a step of its own has just claimed it, or left it alone. */
  lemma OwnKeyLasts(s: State, e: Event, key: string)
    requires HeldKeysLast(s) && Enabled(s, e) && !e.Tick? && HoldsKey(Apply(s, e), e.r, key)
    ensures HolderKeyLasts(Apply(s, e), e.r, key)
  {
    HoldersOnlyByClaim(s, e, e.r, key);
    if HoldsKey(s, e.r, key) {
      assert HolderKeyLasts(s, e.r, key);
      HolderKeepsKey(s, e, key);
      ClaimTimesStay(s, e, HeldClaim(s.requests[e.r]));
    } else {
      ClaimedKeyLasts(s, e, key);
    }
  }

  /** Two requests are never under one claim. */
  lemma HeldClaimsDiffer(s: State, e: Event, r: RequestId)
    requires Paired(s) && r in s.requests && Holds(s.requests[r]) && (e.Tick? || e.r != r)
    ensures !e.Tick? && e.r in s.requests && Holds(s.requests[e.r]) ==>
              HeldClaim(s.requests[e.r]) != HeldClaim(s.requests[r])
  {
    assert PhaseOk(r, s.requests[r], s.claims);
    assert !e.Tick? && e.r in s.requests ==> PhaseOk(e.r, s.requests[e.r], s.claims);
  }

  ghost predicate AlwaysExclusive(start: State, es: seq<Event>)
    requires IsRun(start, es)
  {
    forall n: nat :: n <= |es| ==> Exclusive(After(start, es, n))
  }

  lemma {:induction false} HeldKeysLastWhileExclusive(ttl: nat, es: seq<Event>, n: nat)
    requires IsRun(Init(ttl), es) && AlwaysExclusive(Init(ttl), es) && n <= |es|
    ensures HeldKeysLast(After(Init(ttl), es, n))
  {
    if n > 0 {
      HeldKeysLastWhileExclusive(ttl, es, n - 1);
      AfterStep(Init(ttl), es, n - 1);
      PrefixIsRun(Init(ttl), es, n - 1);
      RunKeepsPairs(ttl, es[..n - 1]);
      EveryRunIsBounded(ttl, es[..n - 1]);
      assert Exclusive(After(Init(ttl), es, n - 1));
      StepKeepsHeldKeys(After(Init(ttl), es, n - 1), es[n - 1]);
    }
  }

  /** When holders' keys last, a held key is granted exactly when it has run out on an overdue holder. */
  lemma GrantNeedsOverdue(s: State, e: Event)
    requires HeldKeysLast(s) && Enabled(s, e) && e.TryClaim? && e.delivery.Delivered?
    ensures var key := s.requests[e.r].key.value;
            GrantsHeldKey(s, e) <==> !Live(s.store, key, s.now) && exists h :: Overdue(s, h, key)
  {
    var key := s.requests[e.r].key.value;
    if GrantsHeldKey(s, e) {
      var h :| HoldsKey(s, h, key);
      assert HolderKeyLasts(s, h, key);
      assert Overdue(s, h, key);
    }
  }

  /**
   The first holder of any run to lose its key has outlived its claim: after every run in which
   no key ever had two holders, whatever was late in it, Redis grants a held key if and only if
   the key has run out and its holder is overdue.
   */
  lemma OnlyOverdueHoldersLoseTheirKey(ttl: nat, es: seq<Event>, e: Event)
    requires IsRun(Init(ttl), es) && AlwaysExclusive(Init(ttl), es)
    requires Enabled(Run(Init(ttl), es), e) && e.TryClaim? && e.delivery.Delivered?
    ensures var s := Run(Init(ttl), es);
            var key := s.requests[e.r].key.value;
            GrantsHeldKey(s, e) <==> !Live(s.store, key, s.now) && exists h :: Overdue(s, h, key)
  {
    HeldKeysLastWhileExclusive(ttl, es, |es|);
    assert es[..|es|] == es;
    GrantNeedsOverdue(Run(Init(ttl), es), e);
  }

  // ---- At most one successful execution per time to live ----

  /** A claim is followed by another on its key within the time to live only when it failed and was released. */
  lemma ReclaimOnlyAfterRelease(ttl: nat, es: seq<Event>, i: nat, j: nat)
    requires IsTimelyRun(Init(ttl), es)
    requires i < j < |Reached(ttl, es).claims|
    requires Reached(ttl, es).claims[i].key == Reached(ttl, es).claims[j].key
    ensures var claims := Reached(ttl, es).claims;
            claims[i].fate.Released? || claims[i].at + Reached(ttl, es).ttl <= claims[j].at
  {
    ReachedIsSound(ttl, es);
    var s := Reached(ttl, es);
    if s.claims[j].at < s.claims[i].at + s.ttl {
      assert Close(s.ttl, s.claims[i], s.claims[j]);
    }
  }

  lemma {:induction false} TtlIsFixed(s: State, es: seq<Event>)
    requires IsRun(s, es)
    ensures Run(s, es).ttl == s.ttl
    decreases |es|
  {
    if es != [] {
      TtlIsFixed(s, es[..|es| - 1]);
    }
  }

  /** Once an execution under a key has succeeded, nobody claims the key until a time to live after its claim. */
  lemma NoReclaimAfterSuccess(ttl: nat, es: seq<Event>, i: nat, j: nat)
    requires IsTimelyRun(Init(ttl), es)
    requires i < j < |Reached(ttl, es).claims|
    requires Reached(ttl, es).claims[i].key == Reached(ttl, es).claims[j].key
    requires Reached(ttl, es).claims[i].fate.Succeeded?
    ensures Reached(ttl, es).claims[i].at + ttl <= Reached(ttl, es).claims[j].at
  {
    ReclaimOnlyAfterRelease(ttl, es, i, j);
    TtlIsFixed(Init(ttl), es);
  }

  // ---- Replays ----

  predicate IsReplay(s: State, r: RequestId) {
    r in s.requests && s.requests[r].phase.Finished? && s.requests[r].phase.outcome.Replayed?
  }

  /** In a timely run a replayed response is moreover given less than two times to live after its execution's claim. */
  lemma ReplaysAreRecent(ttl: nat, es: seq<Event>, r: RequestId)
    requires IsTimelyRun(Init(ttl), es) && IsReplay(Reached(ttl, es), r)
    ensures var s := Reached(ttl, es);
            var Replayed(response, c, at) := s.requests[r].phase.outcome;
            && c < |s.claims| && s.requests[r].key == Some(s.claims[c].key) && s.claims[c].fate.Succeeded?
            && response == s.claims[c].fate.response.(idempotentReplay := true)
            && s.claims[c].at <= at < s.claims[c].at + 2 * s.ttl
  {
    ReachedIsSound(ttl, es);
    var s := Reached(ttl, es);
    assert AnswerOk(s.ttl, s.claims, s.requests[r]);
  }

  /** Two replays under one key agree unless the executions behind them were claimed a time to live apart. */
  lemma ReplaysAgree(ttl: nat, es: seq<Event>, r1: RequestId, r2: RequestId)
    requires IsTimelyRun(Init(ttl), es) && IsReplay(Reached(ttl, es), r1) && IsReplay(Reached(ttl, es), r2)
    requires Reached(ttl, es).requests[r1].key == Reached(ttl, es).requests[r2].key
    ensures var s := Reached(ttl, es);
            var o1, o2 := s.requests[r1].phase.outcome, s.requests[r2].phase.outcome;
            && o1.source < |s.claims| && o2.source < |s.claims|
            && (|| o1.response == o2.response
                || s.claims[o1.source].at + s.ttl <= s.claims[o2.source].at
                || s.claims[o2.source].at + s.ttl <= s.claims[o1.source].at)
  {
    ReachedIsSound(ttl, es);
    ReplaysAgreeWhenSound(Reached(ttl, es), r1, r2);
  }

  lemma ReplaysAgreeWhenSound(s: State, r1: RequestId, r2: RequestId)
    requires ClaimsSpaced(s.ttl, s.claims) && AnswersOk(s.ttl, s.requests, s.claims)
    requires IsReplay(s, r1) && IsReplay(s, r2) && s.requests[r1].key == s.requests[r2].key
    ensures var o1, o2 := s.requests[r1].phase.outcome, s.requests[r2].phase.outcome;
            && o1.source < |s.claims| && o2.source < |s.claims|
            && (|| o1.response == o2.response
                || s.claims[o1.source].at + s.ttl <= s.claims[o2.source].at
                || s.claims[o2.source].at + s.ttl <= s.claims[o1.source].at)
  {
    assert AnswerOk(s.ttl, s.claims, s.requests[r1]) && AnswerOk(s.ttl, s.claims, s.requests[r2]);
    var c1, c2 := s.requests[r1].phase.outcome.source, s.requests[r2].phase.outcome.source;
    if c1 < c2 {
      assert Close(s.ttl, s.claims[c1], s.claims[c2]) <==> s.claims[c2].at < s.claims[c1].at + s.ttl;
    } else if c2 < c1 {
      assert Close(s.ttl, s.claims[c2], s.claims[c1]) <==> s.claims[c1].at < s.claims[c2].at + s.ttl;
    }
  }

  // ---- Conservation of tickets ----

  predicate InWindow(s: State, c: nat, key: string, from: nat) {
    c < |s.claims| && s.claims[c].key == key && from <= s.claims[c].at < from + s.ttl
  }

  /** The ticket rows made under claims on `key` within one time to live from `from` on. */
  function RowsInWindow(s: State, key: string, from: nat): set<nat> {
    set j | 0 <= j < |s.rows| && s.rows[j].claim.Some? && InWindow(s, s.rows[j].claim.value, key, from)
  }

  predicate FailedExecution(claim: Claim) {
    claim.fate.FailedToExecute? || claim.fate.Released?
  }

  /** Claims in the window whose execution failed after its ticket was committed. */
  function FailedAfterCommit(s: State, key: string, from: nat): set<nat> {
    set c | 0 <= c < |s.claims| && InWindow(s, c, key, from) && FailedExecution(s.claims[c]) && s.claims[c].row.Some?
  }

  lemma SubsetSize<T>(a: set<T>, b: set<T>)
    requires a <= b
    ensures |a| <= |b|
  {
    assert b == a + (b - a);
  }

  lemma {:induction false} InjectionSize(a: set<nat>, b: set<nat>, f: nat -> nat)
    requires forall x :: x in a ==> f(x) in b
    requires forall x, y :: x in a && y in a && f(x) == f(y) ==> x == y
    ensures |a| <= |b|
    decreases |a|
  {
    if a != {} {
      var x :| x in a;
      InjectionSize(a - {x}, b - {f(x)}, f);
    }
  }

  /** Claims in the window under which a ticket was committed. */
  function CommittedClaims(s: State, key: string, from: nat): set<nat> {
    set c | 0 <= c < |s.claims| && InWindow(s, c, key, from) && s.claims[c].row.Some?
  }

  lemma OneRowPerClaim(s: State, key: string, from: nat)
    requires RowsOk(s.rows, s.claims)
    ensures |RowsInWindow(s, key, from)| <= |CommittedClaims(s, key, from)|
  {
    var claimOf := (j: nat) => if j < |s.rows| && s.rows[j].claim.Some? then s.rows[j].claim.value else 0;
    forall j | j in RowsInWindow(s, key, from) ensures claimOf(j) in CommittedClaims(s, key, from) {
      assert s.claims[s.rows[j].claim.value].row == Some(j);
    }
    InjectionSize(RowsInWindow(s, key, from), CommittedClaims(s, key, from), claimOf);
  }

  lemma AllButOneFailed(s: State, key: string, from: nat)
    requires ClaimsSpaced(s.ttl, s.claims)
    ensures |CommittedClaims(s, key, from)| <= |FailedAfterCommit(s, key, from)| + 1
  {
    var claims, failed := CommittedClaims(s, key, from), FailedAfterCommit(s, key, from);
    if claims <= failed {
      SubsetSize(claims, failed);
    } else {
      var m :| m in claims && m !in failed;
      forall c | c in claims && c != m ensures c in failed {
        assert if c < m then Close(s.ttl, s.claims[c], s.claims[m]) else Close(s.ttl, s.claims[m], s.claims[c]);
      }
      SubsetSize(claims, failed + {m});
    }
  }

  /**
   Within one time to live, a key gets at most one ticket row more than it had executions
   that failed after their commit; so at most one when every failure comes before the commit.
   */
  lemma TicketConservation(ttl: nat, es: seq<Event>, key: string, from: nat)
    requires IsTimelyRun(Init(ttl), es)
    ensures var s := Reached(ttl, es);
            |RowsInWindow(s, key, from)| <= |FailedAfterCommit(s, key, from)| + 1
  {
    ReachedIsSound(ttl, es);
    OneRowPerClaim(Reached(ttl, es), key, from);
    AllButOneFailed(Reached(ttl, es), key, from);
  }

  // ---- Second rows ----

  /** Claim `c` lies within a time to live after an earlier claim on its key that has a row. */
  ghost predicate FollowsRow(s: State, c: nat) {
    exists j :: 0 <= j < |s.rows| && RowBefore(s, j, c)
  }

  predicate RowBefore(s: State, j: nat, c: nat)
    requires j < |s.rows|
  {
    && s.rows[j].claim.Some? && s.rows[j].claim.value < c < |s.claims|
    && Close(s.ttl, s.claims[s.rows[j].claim.value], s.claims[c])
  }

  /** An earlier claim on the key, within a time to live, committed a row, failed all the same and was released. */
  ghost predicate FollowsReleasedRow(s: State, c: nat) {
    exists b :: 0 <= b < c < |s.claims| && Close(s.ttl, s.claims[b], s.claims[c])
                && s.claims[b].row.Some? && s.claims[b].fate.Released?
  }

  /**
   In a timely run, a commit puts a second row under its key within a time to live if and only
   if an earlier execution failed after its row was committed and then released the key.
   */
  lemma SecondRowExactly(ttl: nat, es: seq<Event>, r: RequestId, ticket: Ticket)
    requires IsTimelyRun(Init(ttl), es)
    requires Enabled(Reached(ttl, es), CommitTicket(r, ticket, Delivered))
    requires Reached(ttl, es).requests[r].phase.claim.Some?
    ensures var s := Reached(ttl, es);
            var c := s.requests[r].phase.claim.value;
            FollowsRow(s, c) <==> FollowsReleasedRow(s, c)
  {
    ReachedIsSound(ttl, es);
    RowsFollowExactly(Reached(ttl, es), Reached(ttl, es).requests[r].phase.claim.value);
  }

  lemma RowsFollowExactly(s: State, c: nat)
    requires ClaimsSpaced(s.ttl, s.claims) && RowsOk(s.rows, s.claims) && c < |s.claims|
    ensures FollowsRow(s, c) <==> FollowsReleasedRow(s, c)
  {
    if FollowsRow(s, c) {
      var j :| 0 <= j < |s.rows| && RowBefore(s, j, c);
      assert s.claims[s.rows[j].claim.value].row == Some(j);
    }
    if FollowsReleasedRow(s, c) {
      var b :| 0 <= b < c && Close(s.ttl, s.claims[b], s.claims[c]) && s.claims[b].row.Some?;
      assert ClaimRowOk(s.rows, b, s.claims[b]);
      assert RowBefore(s, s.claims[b].row.value, c);
    }
  }

  /** An error is raised between an answered commit and the end of the execution, as when a node raises. */
  predicate RaisesAfterCommit(e: Event) {
    e.ExecutionFails? && e.error.WorkflowFailure?
  }

  /** A commit takes effect although its caller is told that it failed. */
  predicate CommitIsLost(e: Event) {
    e.CommitTicket? && e.delivery.LostAfter?
  }

  predicate FailsAfterCommit(e: Event) {
    RaisesAfterCommit(e) || CommitIsLost(e)
  }

  ghost predicate NobodyRaises(es: seq<Event>) {
    forall i :: 0 <= i < |es| ==> !RaisesAfterCommit(es[i])
  }

  ghost predicate LosesACommit(es: seq<Event>) {
    exists i :: 0 <= i < |es| && CommitIsLost(es[i])
  }

  ghost predicate NoFailureAfterCommit(es: seq<Event>) {
    forall i :: 0 <= i < |es| ==> !FailsAfterCommit(es[i])
  }

  ghost predicate FailuresLeaveNoRow(claims: seq<Claim>) {
    forall c :: 0 <= c < |claims| && FailedExecution(claims[c]) ==> claims[c].row.None?
  }

  lemma ChangedClaimLeavesNoRow(claims: seq<Claim>, c: nat, claim: Claim)
    requires FailuresLeaveNoRow(claims) && c < |claims| && (FailedExecution(claim) ==> claim.row.None?)
    ensures FailuresLeaveNoRow(claims[c := claim])
  {}

  /** An execution that fails before its commit has no row. */
  lemma FailLeavesNoRow(s: State, r: RequestId, error: ExecutionError)
    requires Inv(s) && Executes(s, r) && !s.requests[r].phase.committed && FailuresLeaveNoRow(s.claims)
    ensures FailuresLeaveNoRow(Fail(s, r, error).claims)
  {
    if s.requests[r].phase.claim.Some? {
      HolderFacts(s, r);
      var c := s.requests[r].phase.claim.value;
      ChangedClaimLeavesNoRow(s.claims, c, s.claims[c].(fate := FailedToExecute));
    }
  }

  lemma CommitLeavesNoFailedRow(s: State, r: RequestId, ticket: Ticket)
    requires Inv(s) && Executes(s, r) && !s.requests[r].phase.committed && FailuresLeaveNoRow(s.claims)
    ensures FailuresLeaveNoRow(Commit(s, r, ticket).claims)
  {
    if s.requests[r].phase.claim.Some? {
      HolderFacts(s, r);
      var c := s.requests[r].phase.claim.value;
      ChangedClaimLeavesNoRow(s.claims, c, s.claims[c].(row := Some(|s.rows|)));
    }
  }

  lemma StepLeavesNoRow(s: State, e: Event)
    requires Inv(s) && Enabled(s, e) && !FailsAfterCommit(e) && FailuresLeaveNoRow(s.claims)
    ensures FailuresLeaveNoRow(Apply(s, e).claims)
  {
    match e
    case CommitTicket(r, ticket, delivery) =>
      if delivery.Applied() {
        CommitLeavesNoFailedRow(s, r, ticket);
      } else if delivery.LostBefore? {
        FailLeavesNoRow(s, r, DatabaseFailure);
      }
    case ExecutionFails(r, error) => FailLeavesNoRow(s, r, error);
    case ExecutionSucceeds(r, response) =>
      if s.requests[r].phase.claim.Some? {
        var c := s.requests[r].phase.claim.value;
        ChangedClaimLeavesNoRow(s.claims, c, s.claims[c].(fate := Succeeded(response)));
      }
    case Release(r, delivery) =>
      HolderFacts(s, r);
      var c := s.requests[r].phase.held;
      ChangedClaimLeavesNoRow(s.claims, c, s.claims[c].(fate := Released));
    case _ =>
  }

  lemma {:induction false} RunLeavesNoRow(ttl: nat, es: seq<Event>)
    requires IsTimelyRun(Init(ttl), es) && NoFailureAfterCommit(es)
    ensures FailuresLeaveNoRow(Reached(ttl, es).claims)
  {
    if es != [] {
      var front := es[..|es| - 1];
      RunLeavesNoRow(ttl, front);
      ReachedIsSound(ttl, front);
      StepLeavesNoRow(Reached(ttl, front), es[|es| - 1]);
    }
  }

  /** In a timely run in which no execution fails after its commit, a key gets at most one row per time to live. */
  lemma AtMostOneRow(ttl: nat, es: seq<Event>, key: string, from: nat)
    requires IsTimelyRun(Init(ttl), es) && NoFailureAfterCommit(es)
    ensures |RowsInWindow(Reached(ttl, es), key, from)| <= 1
  {
    RunLeavesNoRow(ttl, es);
    TicketConservation(ttl, es, key, from);
    assert FailedAfterCommit(Reached(ttl, es), key, from) == {};
  }

  // ---- Requests, claims and rows in every run ----

  /** A request is under a claim of its own exactly while it executes, completes or releases with a key. */
  predicate PhaseOk(r: RequestId, q: Request, claims: seq<Claim>) {
    match q.phase
    case Executing(c, committed) =>
      && (q.key.Some? <==> c.Some?)
      && (c.Some? ==> OwnClaim(r, q, c.value, claims) && (committed <==> claims[c.value].row.Some?))
    case Completing(c, _) => OwnClaim(r, q, c, claims)
    case Releasing(c, _) => OwnClaim(r, q, c, claims)
    case Claiming => q.key.Some?
    case Reading => q.key.Some?
    case _ => true
  }

  predicate AtWork(p: Phase) {
    p.Executing? || p.Completing? || p.Releasing?
  }

  predicate OwnClaim(r: RequestId, q: Request, c: nat, claims: seq<Claim>) {
    c < |claims| && claims[c].owner == r && q.key == Some(claims[c].key)
  }

  ghost predicate PhasesOk(requests: Requests, claims: seq<Claim>) {
    forall r :: r in requests ==> PhaseOk(r, requests[r], claims)
  }

  ghost predicate OwnersOk(requests: Requests, claims: seq<Claim>) {
    && (forall i :: 0 <= i < |claims| ==> claims[i].owner in requests && !requests[claims[i].owner].phase.Claiming?)
    && (forall i, j :: 0 <= i < j < |claims| ==> claims[i].owner != claims[j].owner)
  }

  /** The request may have a row. */
  predicate MayHaveRow(p: Phase) {
    match p
    case Claiming => false
    case Reading => false
    case Executing(_, committed) => committed
    case _ => true
  }

  ghost predicate RowsOnce(rows: seq<TicketRow>, requests: Requests) {
    && (forall j :: 0 <= j < |rows| ==> rows[j].request in requests && MayHaveRow(requests[rows[j].request].phase))
    && (forall i, j :: 0 <= i < j < |rows| ==> rows[i].request != rows[j].request)
  }

  /** A keyed row and its claim belong together and to the row's request. */
  ghost predicate RowsClaimed(rows: seq<TicketRow>, claims: seq<Claim>) {
    forall j :: 0 <= j < |rows| && rows[j].claim.Some? ==>
      && rows[j].claim.value < |claims|
      && claims[rows[j].claim.value].row == Some(j) && claims[rows[j].claim.value].owner == rows[j].request
  }

  ghost predicate Paired(s: State) {
    && PhasesOk(s.requests, s.claims) && OwnersOk(s.requests, s.claims)
    && RowsOnce(s.rows, s.requests) && RowsClaimed(s.rows, s.claims)
  }

  lemma CommitKeepsRowPairs(s: State, r: RequestId, ticket: Ticket)
    requires Paired(s) && Executes(s, r) && !s.requests[r].phase.committed
    ensures var s' := Commit(s, r, ticket); RowsOnce(s'.rows, s'.requests) && RowsClaimed(s'.rows, s'.claims)
  {
    assert PhaseOk(r, s.requests[r], s.claims);
  }

  lemma CommitKeepsPairs(s: State, r: RequestId, ticket: Ticket)
    requires Paired(s) && Executes(s, r) && !s.requests[r].phase.committed
    ensures Paired(Commit(s, r, ticket))
  {
    var s' := Commit(s, r, ticket);
    CommitKeepsRowPairs(s, r, ticket);
    assert PhaseOk(r, s.requests[r], s.claims);
    forall p | p in s'.requests && p != r ensures PhaseOk(p, s'.requests[p], s'.claims) {
      assert PhaseOk(p, s.requests[p], s.claims);
    }
  }

  /** The fate of one claim and the phase of its owner change together. */
  lemma MarkKeepsPairs(s: State, r: RequestId, c: nat, fate: Fate, phase: Phase)
    requires Paired(s) && r in s.requests && Holds(s.requests[r]) && HeldClaim(s.requests[r]) == c < |s.claims|
    requires phase.Finished? || ((phase.Completing? || phase.Releasing?) && phase.held == c)
    ensures Paired(Enter(SetFate(s, c, fate), r, phase))
  {
    var s' := Enter(SetFate(s, c, fate), r, phase);
    assert PhaseOk(r, s.requests[r], s.claims);
    forall p | p in s'.requests && p != r ensures PhaseOk(p, s'.requests[p], s'.claims) {
      assert PhaseOk(p, s.requests[p], s.claims);
    }
  }

  lemma FailKeepsPairs(s: State, r: RequestId, error: ExecutionError)
    requires Paired(s) && Executes(s, r)
    ensures Paired(Fail(s, r, error))
  {
    match s.requests[r].phase.claim
    case Some(c) => MarkKeepsPairs(s, r, c, FailedToExecute, Releasing(c, error));
    case None => FinishKeepsPairs(s, r, Failed(error));
  }

  lemma FinishKeepsPairs(s: State, r: RequestId, outcome: Outcome)
    requires Paired(s) && r in s.requests
    ensures Paired(Finish(s, r, outcome))
  {
    forall p | p in s.requests && p != r ensures PhaseOk(p, s.requests[p], s.claims) {
    }
  }

  /** A claim is appended for `r`, which was claiming and now is in `phase`. */
  lemma WinKeepsPairs(s: State, r: RequestId, claim: Claim, phase: Phase)
    requires Paired(s) && r in s.requests && s.requests[r].phase.Claiming? && claim.owner == r && claim.row.None?
    requires !phase.Claiming? && PhaseOk(r, s.requests[r].(phase := phase), s.claims + [claim])
    ensures var requests, claims := s.requests[r := s.requests[r].(phase := phase)], s.claims + [claim];
            && PhasesOk(requests, claims) && OwnersOk(requests, claims)
            && RowsOnce(s.rows, requests) && RowsClaimed(s.rows, claims)
  {
    forall p | p in s.requests && p != r ensures PhaseOk(p, s.requests[p], s.claims + [claim]) {
      assert PhaseOk(p, s.requests[p], s.claims);
    }
  }

  lemma PassKeepsPairs(s: State, r: RequestId, phase: Phase)
    requires Paired(s) && r in s.requests && s.requests[r].phase.Claiming? && (phase.Reading? || phase.Finished?)
    ensures Paired(Enter(s, r, phase))
  {
    assert PhaseOk(r, s.requests[r], s.claims);
    forall p | p in s.requests && p != r ensures PhaseOk(p, s.requests[p], s.claims) {
    }
  }

  lemma ClaimKeepsPairs(s: State, r: RequestId, delivery: Delivery)
    requires Paired(s) && Enabled(s, TryClaim(r, delivery))
    ensures Paired(Apply(s, TryClaim(r, delivery)))
  {
    var key := s.requests[r].key.value;
    var phase := if delivery.Raised() then Finished(Unanswered(delivery)) else Executing(Some(|s.claims|), false);
    if delivery.Applied() && !Live(s.store, key, s.now) {
      WinKeepsPairs(s, r, Claim(r, key, s.now, if delivery.Raised() then Orphaned else Running, None), phase);
    } else {
      PassKeepsPairs(s, r, if delivery.Raised() then phase else Reading);
    }
  }

  lemma StepKeepsPairs(s: State, e: Event)
    requires Paired(s) && Enabled(s, e)
    ensures Paired(Apply(s, e))
  {
    match e
    case Tick(_) =>
    case Arrive(_, _) =>
    case TryClaim(r, delivery) => ClaimKeepsPairs(s, r, delivery);
    case ReadExisting(r, _) => FinishKeepsPairs(s, r, Apply(s, e).requests[r].phase.outcome);
    case CommitTicket(r, ticket, delivery) =>
      if delivery.Applied() {
        CommitKeepsPairs(s, r, ticket);
      }
      var s1 := if delivery.Applied() then Commit(s, r, ticket) else s;
      if delivery.Cut() {
        FinishKeepsPairs(s1, r, Cancelled);
      } else if delivery.Raised() {
        FailKeepsPairs(s1, r, DatabaseFailure);
      }
    case ExecutionSucceeds(r, response) =>
      if s.requests[r].phase.claim.Some? {
        MarkKeepsPairs(s, r, s.requests[r].phase.claim.value, Succeeded(response), Apply(s, e).requests[r].phase);
      } else {
        FinishKeepsPairs(s, r, Created(response, None));
      }
    case ExecutionFails(r, error) => FailKeepsPairs(s, r, error);
    case Complete(r, _) => FinishKeepsPairs(s, r, Apply(s, e).requests[r].phase.outcome);
    case Release(r, delivery) =>
      if delivery.Applied() {
        MarkKeepsPairs(s, r, s.requests[r].phase.held, Released, Apply(s, e).requests[r].phase);
      } else {
        FinishKeepsPairs(s, r, Apply(s, e).requests[r].phase.outcome);
      }
    case Cancel(r) => FinishKeepsPairs(s, r, Cancelled);
  }

  lemma {:induction false} RunKeepsPairs(ttl: nat, es: seq<Event>)
    requires IsRun(Init(ttl), es)
    ensures Paired(Run(Init(ttl), es))
    decreases |es|
  {
    if es != [] {
      RunKeepsPairs(ttl, es[..|es| - 1]);
      StepKeepsPairs(Run(Init(ttl), es[..|es| - 1]), es[|es| - 1]);
    }
  }

  /**
   In every run, timely or not: no request claims twice; a keyed request executes, completes or
   releases only under a claim of its own; no request gets two rows; and no two rows share a claim.
   */
  lemma ExecutionsPairWithClaims(ttl: nat, es: seq<Event>)
    requires IsRun(Init(ttl), es)
    ensures var s := Run(Init(ttl), es);
            && (forall i, j :: 0 <= i < j < |s.claims| ==> s.claims[i].owner != s.claims[j].owner)
            && (forall r :: r in s.requests && s.requests[r].key.Some? && AtWork(s.requests[r].phase) ==>
                  Holds(s.requests[r]) && OwnClaim(r, s.requests[r], HeldClaim(s.requests[r]), s.claims))
            && (forall i, j :: 0 <= i < j < |s.rows| ==>
                  && s.rows[i].request != s.rows[j].request
                  && (s.rows[i].claim.Some? ==> s.rows[i].claim != s.rows[j].claim))
  {
    RunKeepsPairs(ttl, es);
    var s := Run(Init(ttl), es);
    forall r | r in s.requests ensures PhaseOk(r, s.requests[r], s.claims) {
    }
  }

  // ---- Replays in every run ----

  predicate FateMatches(p: Phase, fate: Fate) {
    match p
    case Executing(_, _) => fate.Running?
    case Completing(_, response) => fate == Succeeded(response)
    case Releasing(_, _) => fate.FailedToExecute?
    case _ => true
  }

  /** The fate of the claim that the request is under, if any, fits its phase. */
  ghost predicate FateKnown(q: Request, claims: seq<Claim>) {
    Holds(q) && HeldClaim(q) < |claims| ==> FateMatches(q.phase, claims[HeldClaim(q)].fate)
  }

  /** What has become of an execution is known to the request that is under its claim. */
  ghost predicate FatesMatch(requests: Requests, claims: seq<Claim>) {
    forall r :: r in requests ==> FateKnown(requests[r], claims)
  }

  /** An execution under a claim on `key` has produced `response`. */
  ghost predicate Produced(claims: seq<Claim>, key: string, response: TicketResponse) {
    exists c :: 0 <= c < |claims| && claims[c].key == key && claims[c].fate == Succeeded(response)
  }

  ghost predicate RecordTrue(value: Record, key: string, claims: seq<Claim>) {
    value == IN_PROGRESS || exists response :: Produced(claims, key, response) && value == Json(ModelDump(response))
  }

  ghost predicate RecordsTrue(store: Records, claims: seq<Claim>) {
    forall k :: k in store ==> RecordTrue(store[k].value, k, claims)
  }

  /** The request, if it was answered with a replay, was given what some execution under its key produced. */
  ghost predicate AnswerTrue(q: Request, claims: seq<Claim>) {
    match q.phase
    case Finished(Replayed(response, _, _)) => q.key.Some? && IsReplayOf(q.key.value, response, claims)
    case Finished(InvalidRecord) => false
    case _ => true
  }

  ghost predicate IsReplayOf(key: string, response: TicketResponse, claims: seq<Claim>) {
    exists original :: Produced(claims, key, original) && response == original.(idempotentReplay := true)
  }

  ghost predicate AnswersTrue(requests: Requests, claims: seq<Claim>) {
    forall r :: r in requests ==> AnswerTrue(requests[r], claims)
  }

  ghost predicate Truthful(s: State) {
    FatesMatch(s.requests, s.claims) && RecordsTrue(s.store, s.claims) && AnswersTrue(s.requests, s.claims)
  }

  /** Successful executions are never forgotten. */
  ghost predicate SuccessesStay(claims: seq<Claim>, claims': seq<Claim>) {
    forall c :: 0 <= c < |claims| && claims[c].fate.Succeeded? ==>
      c < |claims'| && claims'[c].key == claims[c].key && claims'[c].fate == claims[c].fate
  }

  lemma RecordStaysTrue(value: Record, key: string, claims: seq<Claim>, claims': seq<Claim>)
    requires RecordTrue(value, key, claims) && SuccessesStay(claims, claims')
    ensures RecordTrue(value, key, claims')
  {
    if value != IN_PROGRESS {
      var response :| Produced(claims, key, response) && value == Json(ModelDump(response));
      ProducedStays(claims, claims', key, response);
    }
  }

  lemma AnswerStaysTrue(q: Request, claims: seq<Claim>, claims': seq<Claim>)
    requires AnswerTrue(q, claims) && SuccessesStay(claims, claims')
    ensures AnswerTrue(q, claims')
  {
    if q.phase.Finished? && q.phase.outcome.Replayed? {
      var original :| Produced(claims, q.key.value, original)
                      && q.phase.outcome.response == original.(idempotentReplay := true);
      ProducedStays(claims, claims', q.key.value, original);
    }
  }

  lemma ProducedStays(claims: seq<Claim>, claims': seq<Claim>, key: string, response: TicketResponse)
    requires Produced(claims, key, response) && SuccessesStay(claims, claims')
    ensures Produced(claims', key, response)
  {
    var c :| 0 <= c < |claims| && claims[c].key == key && claims[c].fate == Succeeded(response);
    assert claims'[c].fate == Succeeded(response);
  }

  /** A request changes its own claim only before its execution has succeeded. */
  lemma OwnSuccessStays(s: State, e: Event)
    requires Enabled(s, e) && !e.Tick? && e.r in s.requests && Holds(s.requests[e.r])
    requires HeldClaim(s.requests[e.r]) < |s.claims|
    requires FateMatches(s.requests[e.r].phase, s.claims[HeldClaim(s.requests[e.r])].fate)
    requires s.claims[HeldClaim(s.requests[e.r])].fate.Succeeded?
    ensures Apply(s, e).claims == s.claims
  {}

  lemma StepKeepsSuccesses(s: State, e: Event)
    requires FatesMatch(s.requests, s.claims) && Enabled(s, e)
    ensures SuccessesStay(s.claims, Apply(s, e).claims)
  {
    forall c | 0 <= c < |s.claims| && s.claims[c].fate.Succeeded?
      ensures c < |Apply(s, e).claims| && Apply(s, e).claims[c] == s.claims[c]
    {
      if !e.Tick? && e.r in s.requests && Holds(s.requests[e.r]) && HeldClaim(s.requests[e.r]) == c {
        OwnSuccessStays(s, e);
      } else {
        StepLeavesOtherClaims(s, e, c);
      }
    }
  }

  lemma CommitFateKnown(s: State, r: RequestId, ticket: Ticket, delivery: Delivery)
    requires Enabled(s, CommitTicket(r, ticket, delivery)) && FateKnown(s.requests[r], s.claims)
    ensures var s' := Apply(s, CommitTicket(r, ticket, delivery));
            r in s'.requests && FateKnown(s'.requests[r], s'.claims)
  {
    assert FateKnown(Commit(s, r, ticket).requests[r], Commit(s, r, ticket).claims);
  }

  lemma OwnFateMatches(s: State, e: Event)
    requires Enabled(s, e) && !e.Tick? && !e.CommitTicket? && (e.Arrive? || FateKnown(s.requests[e.r], s.claims))
    ensures e.r in Apply(s, e).requests && FateKnown(Apply(s, e).requests[e.r], Apply(s, e).claims)
  {}

  lemma StepKeepsFates(s: State, e: Event)
    requires Paired(s) && FatesMatch(s.requests, s.claims) && Enabled(s, e)
    ensures FatesMatch(Apply(s, e).requests, Apply(s, e).claims)
  {
    var s' := Apply(s, e);
    forall r | r in s'.requests ensures FateKnown(s'.requests[r], s'.claims) {
      if !e.Tick? && e.r == r {
        match e
        case CommitTicket(_, ticket, delivery) => CommitFateKnown(s, r, ticket, delivery);
        case _ => OwnFateMatches(s, e);
      } else {
        OthersLeaveRequest(s, e, r);
        if Holds(s.requests[r]) {
          assert PhaseOk(r, s.requests[r], s.claims) && FateKnown(s.requests[r], s.claims);
          HeldClaimsDiffer(s, e, r);
          StepLeavesOtherClaims(s, e, HeldClaim(s.requests[r]));
        }
      }
    }
  }

  /** A key that a step writes gets the mark, or the response of the execution that writes it. */
  lemma WrittenRecordIsTrue(s: State, e: Event, k: string)
    requires Paired(s) && FatesMatch(s.requests, s.claims) && Enabled(s, e)
    requires k in Apply(s, e).store && (k !in s.store || Apply(s, e).store[k] != s.store[k])
    ensures RecordTrue(Apply(s, e).store[k].value, k, s.claims)
  {
    if e.Complete? {
      assert PhaseOk(e.r, s.requests[e.r], s.claims);
      var Completing(c, response) := s.requests[e.r].phase;
      assert s.claims[c].key == k && s.claims[c].fate == Succeeded(response);
      assert Produced(s.claims, k, response);
    } else if !e.TryClaim? {
      OnlyClaimsAndCompletionsWrite(s, e, k);
    }
  }

  lemma OnlyClaimsAndCompletionsWrite(s: State, e: Event, k: string)
    requires Enabled(s, e) && !e.Complete? && !e.TryClaim? && k in Apply(s, e).store
    ensures k in s.store && Apply(s, e).store[k] == s.store[k]
  {
    match e
    case CommitTicket(r, ticket, _) => assert Commit(s, r, ticket).store == s.store;
    case _ =>
  }

  lemma StepKeepsRecords(s: State, e: Event)
    requires Paired(s) && FatesMatch(s.requests, s.claims) && RecordsTrue(s.store, s.claims) && Enabled(s, e)
    ensures RecordsTrue(Apply(s, e).store, Apply(s, e).claims)
  {
    var s' := Apply(s, e);
    StepKeepsSuccesses(s, e);
    forall k | k in s'.store ensures RecordTrue(s'.store[k].value, k, s'.claims) {
      if k in s.store && s'.store[k] == s.store[k] {
        assert RecordTrue(s.store[k].value, k, s.claims);
      } else {
        WrittenRecordIsTrue(s, e, k);
      }
      RecordStaysTrue(s'.store[k].value, k, s.claims, s'.claims);
    }
  }

  /** What is read under a key is answered truthfully. */
  lemma ReadAnswerIsTrue(s: State, key: string, source: nat)
    requires RecordsTrue(s.store, s.claims)
    ensures var outcome := OutcomeOfExisting(Lookup(s.store, key, s.now), source, s.now);
            AnswerTrue(Request(Some(key), Finished(outcome)), s.claims)
  {
    if Live(s.store, key, s.now) {
      var value := s.store[key].value;
      assert RecordTrue(value, key, s.claims);
      if value == IN_PROGRESS {
        assert IsInProgress(SENTINEL);
      } else {
        var response :| Produced(s.claims, key, response) && value == Json(ModelDump(response));
        ReplayIsFaithful(response);
        assert IsReplayOf(key, response.(idempotentReplay := true), s.claims);
      }
    }
  }

  /** The outcome, if there is one, came without a record. */
  predicate NotFromRecord(phase: Phase) {
    phase.Finished? ==> !phase.outcome.Replayed? && !phase.outcome.InvalidRecord?
  }

  /** Only the read of a record is answered from one. */
  lemma OnlyReadsGiveRecords(s: State, e: Event)
    requires Enabled(s, e) && !e.Tick? && !e.ReadExisting?
    ensures e.r in Apply(s, e).requests && NotFromRecord(Apply(s, e).requests[e.r].phase)
  {
    match e
    case CommitTicket(r, ticket, delivery) => assert Commit(s, r, ticket).requests[r].phase.Executing?;
    case _ =>
  }

  lemma OwnAnswerIsTrue(s: State, e: Event)
    requires RecordsTrue(s.store, s.claims) && Enabled(s, e) && !e.Tick?
    ensures e.r in Apply(s, e).requests && AnswerTrue(Apply(s, e).requests[e.r], s.claims)
  {
    if e.ReadExisting? {
      var key := s.requests[e.r].key.value;
      ReadAnswerIsTrue(s, key, if key in s.latest then s.latest[key] else 0);
    } else {
      OnlyReadsGiveRecords(s, e);
    }
  }

  lemma StepKeepsAnswers(s: State, e: Event)
    requires Paired(s) && Truthful(s) && Enabled(s, e)
    ensures AnswersTrue(Apply(s, e).requests, Apply(s, e).claims)
  {
    var s' := Apply(s, e);
    StepKeepsSuccesses(s, e);
    forall r | r in s'.requests ensures AnswerTrue(s'.requests[r], s'.claims) {
      if !e.Tick? && e.r == r {
        OwnAnswerIsTrue(s, e);
      } else {
        OthersLeaveRequest(s, e, r);
        assert AnswerTrue(s.requests[r], s.claims);
      }
      AnswerStaysTrue(s'.requests[r], s.claims, s'.claims);
    }
  }

  lemma {:induction false} RunIsTruthful(ttl: nat, es: seq<Event>)
    requires IsRun(Init(ttl), es)
    ensures Truthful(Run(Init(ttl), es))
    decreases |es|
  {
    if es != [] {
      var s, e := Run(Init(ttl), es[..|es| - 1]), es[|es| - 1];
      RunIsTruthful(ttl, es[..|es| - 1]);
      RunKeepsPairs(ttl, es[..|es| - 1]);
      StepKeepsFates(s, e);
      StepKeepsRecords(s, e);
      StepKeepsAnswers(s, e);
    }
  }

  /**
   In every run, timely or not, every replayed response is, in every field but the replay mark,
   the response that a successful execution under the same key produced, and no request ever
   finds a record that is not one.
   */
  lemma ReplayFidelity(ttl: nat, es: seq<Event>, r: RequestId)
    requires IsRun(Init(ttl), es) && r in Run(Init(ttl), es).requests
    ensures var s := Run(Init(ttl), es);
            && (IsReplay(s, r) ==>
                  s.requests[r].key.Some?
                  && exists c :: 0 <= c < |s.claims| && ReplaysClaim(s, r, s.claims[c]))
            && s.requests[r].phase != Finished(InvalidRecord)
  {
    RunIsTruthful(ttl, es);
    var s := Run(Init(ttl), es);
    assert AnswerTrue(s.requests[r], s.claims);
    if IsReplay(s, r) {
      var key, response := s.requests[r].key.value, s.requests[r].phase.outcome.response;
      var original :| Produced(s.claims, key, original) && response == original.(idempotentReplay := true);
      var c :| 0 <= c < |s.claims| && s.claims[c].key == key && s.claims[c].fate == Succeeded(original);
      assert ReplaysClaim(s, r, s.claims[c]);
    }
  }

  /** What `r` was given is the replay of what the execution under `claim` produced. */
  predicate ReplaysClaim(s: State, r: RequestId, claim: Claim)
    requires IsReplay(s, r)
  {
    && s.requests[r].key == Some(claim.key) && claim.fate.Succeeded?
    && s.requests[r].phase.outcome.response == claim.fate.response.(idempotentReplay := true)
  }

  // ---- No key is stuck ----

  /** A step of a request changes no claim but the one it is under, and only adds claims. */
  lemma StepLeavesOtherClaims(s: State, e: Event, c: nat)
    requires Enabled(s, e) && c < |s.claims|
    requires !e.Tick? && e.r in s.requests && Holds(s.requests[e.r]) ==> HeldClaim(s.requests[e.r]) != c
    ensures c < |Apply(s, e).claims| && Apply(s, e).claims[c] == s.claims[c]
  {
    match e
    case CommitTicket(r, ticket, delivery) => CommitLeavesOtherClaims(s, e, c);
    case ExecutionFails(r, error) => assert Fail(s, r, error).claims[c] == s.claims[c];
    case TryClaim(_, _) =>
    case _ =>
  }

  lemma CommitLeavesOtherClaims(s: State, e: Event, c: nat)
    requires Enabled(s, e) && e.CommitTicket? && c < |s.claims|
    requires Holds(s.requests[e.r]) ==> HeldClaim(s.requests[e.r]) != c
    ensures c < |Apply(s, e).claims| && Apply(s, e).claims[c] == s.claims[c]
  {
    assert c < |Commit(s, e.r, e.ticket).claims| && Commit(s, e.r, e.ticket).claims[c] == s.claims[c];
  }

  /** A holder's claim has not been released, so no step marks a released claim again. */
  lemma ReleasedKept(s: State, e: Event, c: nat)
    requires Inv(s) && Enabled(s, e) && c < |s.claims| && s.claims[c].fate.Released?
    ensures c < |Apply(s, e).claims| && Apply(s, e).claims[c] == s.claims[c]
  {
    if !e.Tick? && e.r in s.requests && Holds(s.requests[e.r]) {
      HolderFacts(s, e.r);
    }
    StepLeavesOtherClaims(s, e, c);
  }

  lemma {:induction false} ReleasedStaysReleased(s: State, es: seq<Event>, c: nat)
    requires Inv(s) && IsTimelyRun(s, es) && c < |s.claims| && s.claims[c].fate.Released?
    ensures c < |Run(s, es).claims| && Run(s, es).claims[c] == s.claims[c]
    decreases |es|
  {
    if es != [] {
      var front := es[..|es| - 1];
      ReleasedStaysReleased(s, front, c);
      TimelyRunKeepsInv(s, front);
      ReleasedKept(Run(s, front), es[|es| - 1], c);
    }
  }

  /** The state after the release of `r` has taken effect. */
  function ReleasedState(s: State, r: RequestId, delivery: Delivery): State
    requires Enabled(s, Release(r, delivery))
  {
    Apply(s, Release(r, delivery))
  }

  /** Whoever asks for `key` now and is answered by Redis executes. */
  ghost predicate NextClaimWins(s: State, key: string) {
    forall r: RequestId :: Enabled(s, TryClaim(r, Delivered)) && s.requests[r].key == Some(key) ==>
      Apply(s, TryClaim(r, Delivered)).requests[r].phase == Executing(Some(|s.claims|), false)
  }

  /** No claim on `key` has taken effect since claim `c`. */
  predicate NotReclaimed(s: State, key: string, c: nat) {
    key in s.latest && s.latest[key] == c
  }

  /**
   After a failed execution whose release took effect, the next claim on the key succeeds: in
   every timely continuation in which no claim on the key has taken effect yet, whoever asks for
   it and is answered wins.
   */
  lemma NextClaimAfterReleaseWins(s: State, r: RequestId, delivery: Delivery, es: seq<Event>)
    requires Inv(s) && Timely(s) && Enabled(s, Release(r, delivery)) && delivery.Applied()
    requires IsTimelyRun(ReleasedState(s, r, delivery), es)
    requires NotReclaimed(Run(ReleasedState(s, r, delivery), es), s.requests[r].key.value, s.requests[r].phase.held)
    ensures NextClaimWins(Run(ReleasedState(s, r, delivery), es), s.requests[r].key.value)
  {
    var s1 := ReleasedState(s, r, delivery);
    var key, c := s.requests[r].key.value, s.requests[r].phase.held;
    HolderFacts(s, r);
    ReleaseKeepsInv(s, r, delivery);
    ReleasedStaysReleased(s1, es, c);
    TimelyRunKeepsInv(s1, es);
    ReleasedKeyIsFree(Run(s1, es), key, c);
  }

  lemma ReleasedKeyIsFree(s: State, key: string, c: nat)
    requires RecordsOk(s.ttl, s.store, s.claims, s.latest) && NotReclaimed(s, key, c)
    requires c < |s.claims| && s.claims[c].fate.Released?
    ensures NextClaimWins(s, key)
  {
    assert key !in s.store;
  }

  /** Kept by every run, timely or not. */
  ghost predicate EntriesBounded(ttl: nat, now: nat, store: Records, claims: seq<Claim>, latest: map<string, nat>) {
    && ClaimsOk(now, claims, latest)
    && (forall k :: k in store ==> store[k].expiry <= now + ttl)
    && (forall k :: k in store && store[k].value == IN_PROGRESS ==>
          k in latest && store[k].expiry == claims[latest[k]].at + ttl)
  }

  ghost predicate Bounded(s: State) {
    EntriesBounded(s.ttl, s.now, s.store, s.claims, s.latest)
  }

  lemma UpdateKeepsBounded(ttl: nat, now: nat, store: Records, claims: seq<Claim>, latest: map<string, nat>,
                           c: nat, claim: Claim)
    requires EntriesBounded(ttl, now, store, claims, latest) && c < |claims| && SameClaim(claims[c], claim)
    ensures EntriesBounded(ttl, now, store, claims[c := claim], latest)
  {
    ClaimsOkUpdate(now, claims, latest, c, claim);
  }

  lemma WinKeepsBounded(s: State, r: RequestId, key: string, fate: Fate)
    requires Bounded(s)
    ensures Bounded(Claimed(s, r, key, fate))
  {
    ClaimsOkWin(s.now, s.claims, s.latest, Claim(r, key, s.now, fate, None));
  }

  lemma OverwriteKeepsBounded(s: State, key: string, response: TicketResponse)
    requires Bounded(s)
    ensures Bounded(s.(store := SetEx(s.store, key, Json(ModelDump(response)), s.now, s.ttl)))
  {
    ReplayIsFaithful(response);
  }

  lemma CommitKeepsBounded(s: State, r: RequestId, ticket: Ticket)
    requires Bounded(s) && Executes(s, r)
    ensures Bounded(Commit(s, r, ticket))
  {
    if s.requests[r].phase.claim.Some? {
      var c := s.requests[r].phase.claim.value;
      UpdateKeepsBounded(s.ttl, s.now, s.store, s.claims, s.latest, c, Commit(s, r, ticket).claims[c]);
    }
  }

  lemma MarkKeepsBounded(s: State, c: nat, fate: Fate)
    requires Bounded(s) && c < |s.claims|
    ensures Bounded(SetFate(s, c, fate))
  {
    UpdateKeepsBounded(s.ttl, s.now, s.store, s.claims, s.latest, c, s.claims[c].(fate := fate));
  }

  lemma FailKeepsBounded(s: State, r: RequestId, error: ExecutionError)
    requires Bounded(s) && Executes(s, r)
    ensures Bounded(Fail(s, r, error))
  {
    if s.requests[r].phase.claim.Some? {
      MarkKeepsBounded(s, s.requests[r].phase.claim.value, FailedToExecute);
    }
  }

  lemma CommitTicketKeepsBounded(s: State, r: RequestId, ticket: Ticket, delivery: Delivery)
    requires Bounded(s) && Enabled(s, CommitTicket(r, ticket, delivery))
    ensures Bounded(Apply(s, CommitTicket(r, ticket, delivery)))
  {
    match delivery
    case Delivered => CommitKeepsBounded(s, r, ticket);
    case LostBefore => FailKeepsBounded(s, r, DatabaseFailure);
    case CutBefore =>
    case CutAfter => CommitKeepsBounded(s, r, ticket);
    case LostAfter =>
      CommitKeepsBounded(s, r, ticket);
      FailKeepsBounded(Commit(s, r, ticket), r, DatabaseFailure);
  }

  lemma DeleteKeepsBounded(ttl: nat, now: nat, store: Records, claims: seq<Claim>, latest: map<string, nat>,
                           key: string)
    requires EntriesBounded(ttl, now, store, claims, latest)
    ensures EntriesBounded(ttl, now, Delete(store, key), claims, latest)
  {}

  lemma ReleaseKeepsBounded(s: State, r: RequestId, delivery: Delivery)
    requires Bounded(s) && Enabled(s, Release(r, delivery))
    ensures Bounded(Apply(s, Release(r, delivery)))
  {
    var c := s.requests[r].phase.held;
    var claim := s.claims[c].(fate := Released);
    DeleteKeepsBounded(s.ttl, s.now, s.store, s.claims, s.latest, s.requests[r].key.value);
    UpdateKeepsBounded(s.ttl, s.now, Delete(s.store, s.requests[r].key.value), s.claims, s.latest, c, claim);
  }

  lemma StepKeepsBounded(s: State, e: Event)
    requires Bounded(s) && Enabled(s, e)
    ensures Bounded(Apply(s, e))
  {
    match e
    case TryClaim(r, delivery) =>
      WinKeepsBounded(s, r, s.requests[r].key.value, if delivery.Raised() then Orphaned else Running);
    case CommitTicket(r, ticket, delivery) => CommitTicketKeepsBounded(s, r, ticket, delivery);
    case ExecutionSucceeds(r, response) =>
      if s.requests[r].phase.claim.Some? {
        MarkKeepsBounded(s, s.requests[r].phase.claim.value, Succeeded(response));
      }
    case ExecutionFails(r, error) => FailKeepsBounded(s, r, error);
    case Complete(r, _) => OverwriteKeepsBounded(s, s.requests[r].key.value, s.requests[r].phase.response);
    case Release(r, delivery) => ReleaseKeepsBounded(s, r, delivery);
    case _ =>
  }

  lemma {:induction false} RunKeepsBounded(s: State, es: seq<Event>)
    requires Bounded(s) && IsRun(s, es)
    ensures Bounded(Run(s, es))
    decreases |es|
  {
    if es != [] {
      RunKeepsBounded(s, es[..|es| - 1]);
      StepKeepsBounded(Run(s, es[..|es| - 1]), es[|es| - 1]);
    }
  }

  /** The record under `key`, if it is an in-progress mark, expires a time to live after the last claim on the key. */
  predicate MarkExpires(s: State, key: string) {
    key in s.store && s.store[key].value == IN_PROGRESS ==>
      && key in s.latest && s.latest[key] < |s.claims| && s.claims[s.latest[key]].key == key
      && s.store[key].expiry == s.claims[s.latest[key]].at + s.ttl
  }

  function Later(s: State, wait: nat): State {
    Apply(s, Tick(wait))
  }

  lemma MarksExpireWhenBounded(s: State, key: string)
    requires Bounded(s)
    ensures MarkExpires(s, key)
  {}

  lemma WaitingFreesTheKey(s: State, key: string, wait: nat)
    requires Bounded(s) && s.ttl <= wait
    ensures NextClaimWins(Later(s, wait), key)
  {
    assert !Live(s.store, key, s.now + wait);
  }

  ghost predicate NeverStuck(s: State, key: string, wait: nat) {
    MarkExpires(s, key) && NextClaimWins(Later(s, wait), key)
  }

  lemma BoundedIsNeverStuck(s: State, key: string, wait: nat)
    requires Bounded(s) && s.ttl <= wait
    ensures NeverStuck(s, key, wait)
  {
    MarksExpireWhenBounded(s, key);
    WaitingFreesTheKey(s, key, wait);
  }

  lemma EveryRunIsBounded(ttl: nat, es: seq<Event>)
    requires IsRun(Init(ttl), es)
    ensures Bounded(Run(Init(ttl), es)) && Run(Init(ttl), es).ttl == ttl
  {
    RunKeepsBounded(Init(ttl), es);
    TtlIsFixed(Init(ttl), es);
  }

  /**
   In every run, whatever crashes or overruns, an in-progress mark expires a time to live
   after the claim that made it, and any key can be claimed again after waiting that long.
   */
  lemma NoKeyIsStuck(ttl: nat, es: seq<Event>, key: string, wait: nat)
    requires IsRun(Init(ttl), es) && ttl <= wait
    ensures MarkExpires(Run(Init(ttl), es), key)
    ensures NextClaimWins(Later(Run(Init(ttl), es), wait), key)
  {
    EveryRunIsBounded(ttl, es);
    BoundedIsNeverStuck(Run(Init(ttl), es), key, wait);
  }

  // ---- Two runs in which one key gets two rows ----

  const KEY := "key"

  const TICKET := Ticket("", "", "", "", "")

  /** The run `es` from the start, prolonged by `e`. */
  lemma Extend(ttl: nat, es: seq<Event>, s: State, e: Event) returns (es': seq<Event>, s': State)
    requires IsRun(Init(ttl), es) && s == Run(Init(ttl), es) && Enabled(s, e)
    ensures es' == es + [e] && s' == Apply(s, e) && IsRun(Init(ttl), es') && s' == Run(Init(ttl), es')
  {
    RunExtends(Init(ttl), es, e);
    es', s' := es + [e], Apply(s, e);
  }

  /** The same for timely runs. */
  lemma ExtendTimely(ttl: nat, es: seq<Event>, s: State, e: Event) returns (es': seq<Event>, s': State)
    requires IsTimelyRun(Init(ttl), es) && s == Run(Init(ttl), es) && Enabled(s, e) && Timely(Apply(s, e))
    ensures es' == es + [e] && s' == Apply(s, e) && IsTimelyRun(Init(ttl), es') && s' == Run(Init(ttl), es')
  {
    RunExtends(Init(ttl), es, e);
    es', s' := es + [e], Apply(s, e);
    assert es'[..|es|] == es;
  }

  /** Both requests have arrived, and the first has won its claim. */
  predicate FirstHolds(s: State) {
    && s.requests == map[0 := Request(Some(KEY), Executing(Some(0), false)), 1 := Request(Some(KEY), Claiming)]
    && s.claims == [Claim(0, KEY, 0, Running, None)] && s.rows == []
  }

  lemma FirstArrives() returns (es: seq<Event>, s: State)
    ensures IsTimelyRun(Init(1), es) && s == Run(Init(1), es) && NoFailureAfterCommit(es)
    ensures s == Init(1).(requests := map[0 := Request(Some(KEY), Claiming)])
  {
    es, s := ExtendTimely(1, [], Init(1), Arrive(0, Some(KEY)));
  }

  lemma BothArrive() returns (es: seq<Event>, s: State)
    ensures IsTimelyRun(Init(1), es) && s == Run(Init(1), es) && NoFailureAfterCommit(es)
    ensures s == Init(1).(requests := map[0 := Request(Some(KEY), Claiming), 1 := Request(Some(KEY), Claiming)])
  {
    es, s := FirstArrives();
    es, s := ExtendTimely(1, es, s, Arrive(1, Some(KEY)));
  }

  lemma FirstClaims() returns (es: seq<Event>, s: State)
    ensures IsTimelyRun(Init(1), es) && s == Run(Init(1), es) && NoFailureAfterCommit(es)
    ensures FirstHolds(s) && s.now == 0 && s.ttl == 1 && KEY in s.store && s.store[KEY].expiry == 1
  {
    es, s := BothArrive();
    es, s := ExtendTimely(1, es, s, TryClaim(0, Delivered));
  }

  /**
   When a request outlives the time to live of its claim, a second one executes beside it and
   one key gets two tickets, though nothing failed.
   */
  lemma OverrunExecutesTwice() returns (es: seq<Event>, s: State)
    ensures IsRun(Init(1), es) && s == Run(Init(1), es)
    ensures HoldsKey(s, 0, KEY) && HoldsKey(s, 1, KEY)
    ensures s.rows == [TicketRow(0, Some(0), TICKET), TicketRow(1, Some(1), TICKET)]
    ensures forall c :: 0 <= c < |s.claims| ==> s.claims[c].key == KEY && !FailedExecution(s.claims[c])
  {
    es, s := FirstClaims();
    es, s := Extend(1, es, s, Tick(1));
    es, s := SecondClaimsBesideFirst(es, s);
    es, s := Extend(1, es, s, CommitTicket(0, TICKET, Delivered));
    es, s := Extend(1, es, s, CommitTicket(1, TICKET, Delivered));
  }

  lemma SecondClaimsBesideFirst(es: seq<Event>, s: State) returns (es': seq<Event>, s': State)
    requires IsRun(Init(1), es) && s == Run(Init(1), es) && FirstHolds(s) && !Live(s.store, KEY, s.now)
    ensures IsRun(Init(1), es') && s' == Run(Init(1), es') && s'.rows == []
    ensures s'.requests == map[0 := Request(Some(KEY), Executing(Some(0), false)),
                               1 := Request(Some(KEY), Executing(Some(1), false))]
    ensures |s'.claims| == 2 && forall c :: 0 <= c < 2 ==> s'.claims[c].key == KEY && s'.claims[c].fate == Running
  {
    es', s' := Extend(1, es, s, TryClaim(1, Delivered));
  }

  /**
   Nor is a timely run always safe: when a commit takes effect but is reported as an error, the
   key is released, and a retry within the time to live makes a second ticket.
   */
  lemma LostCommitMakesTwoTickets() returns (es: seq<Event>, s: State)
    ensures IsTimelyRun(Init(1), es) && s == Run(Init(1), es) && TwoTickets(s) && NobodyRaises(es)
  {
    es, s := FirstLosesItsCommit();
    es, s := RetryMakesSecondTicket(es, s, DatabaseFailure);
  }

  lemma FirstLosesItsCommit() returns (es: seq<Event>, s: State)
    ensures IsTimelyRun(Init(1), es) && s == Run(Init(1), es) && FirstFailed(s, DatabaseFailure) && NobodyRaises(es)
  {
    es, s := FirstClaims();
    LosingTheCommit(s);
    es, s := ExtendTimely(1, es, s, CommitTicket(0, TICKET, LostAfter));
  }

  /** The same happens, with every commit answered, when the workflow of the first request raises. */
  lemma RaisingMakesTwoTickets() returns (es: seq<Event>, s: State)
    ensures IsTimelyRun(Init(1), es) && s == Run(Init(1), es) && TwoTickets(s) && !LosesACommit(es)
  {
    es, s := FirstRaises();
    es, s := RetryMakesSecondTicket(es, s, WorkflowFailure);
  }

  lemma FirstRaises() returns (es: seq<Event>, s: State)
    ensures IsTimelyRun(Init(1), es) && s == Run(Init(1), es) && FirstFailed(s, WorkflowFailure) && !LosesACommit(es)
  {
    es, s := FirstClaims();
    es, s := FirstCommits(es, s);
    FailingAfterCommit(s);
    es, s := ExtendTimely(1, es, s, ExecutionFails(0, WorkflowFailure));
  }

  /** One key has two tickets, though no time has passed. */
  predicate TwoTickets(s: State) {
    && s.rows == [TicketRow(0, Some(0), TICKET), TicketRow(1, Some(1), TICKET)] && s.now == 0 && s.ttl == 1
    && |s.claims| == 2 && s.claims[0].key == KEY && s.claims[1].key == KEY
  }

  /** The first request has failed with its ticket in the table. */
  predicate FirstFailed(s: State, error: ExecutionError) {
    && s.requests == map[0 := Request(Some(KEY), Releasing(0, error)), 1 := Request(Some(KEY), Claiming)]
    && s.claims == [Claim(0, KEY, 0, FailedToExecute, Some(0))] && s.rows == [TicketRow(0, Some(0), TICKET)]
    && s.now == 0 && s.ttl == 1
  }

  lemma LosingTheCommit(s: State)
    requires FirstHolds(s) && s.now == 0 && s.ttl == 1
    ensures Enabled(s, CommitTicket(0, TICKET, LostAfter))
    ensures FirstFailed(Apply(s, CommitTicket(0, TICKET, LostAfter)), DatabaseFailure)
  {
    assert Commit(s, 0, TICKET).rows == [TicketRow(0, Some(0), TICKET)];
    assert Commit(s, 0, TICKET).claims == [Claim(0, KEY, 0, Running, Some(0))];
  }

  predicate FirstCommitted(s: State) {
    && s.requests == map[0 := Request(Some(KEY), Executing(Some(0), true)), 1 := Request(Some(KEY), Claiming)]
    && s.claims == [Claim(0, KEY, 0, Running, Some(0))] && s.rows == [TicketRow(0, Some(0), TICKET)]
    && s.now == 0 && s.ttl == 1
  }

  lemma CommittingFirst(s: State)
    requires FirstHolds(s) && s.now == 0 && s.ttl == 1
    ensures Enabled(s, CommitTicket(0, TICKET, Delivered))
    ensures FirstCommitted(Apply(s, CommitTicket(0, TICKET, Delivered)))
  {
    assert Commit(s, 0, TICKET).rows == [TicketRow(0, Some(0), TICKET)];
    assert Commit(s, 0, TICKET).claims == [Claim(0, KEY, 0, Running, Some(0))];
  }

  lemma FirstCommits(es: seq<Event>, s: State) returns (es': seq<Event>, s': State)
    requires IsTimelyRun(Init(1), es) && s == Run(Init(1), es) && FirstHolds(s) && s.now == 0 && s.ttl == 1
    ensures es' == es + [CommitTicket(0, TICKET, Delivered)]
    ensures IsTimelyRun(Init(1), es') && s' == Run(Init(1), es') && FirstCommitted(s')
  {
    CommittingFirst(s);
    es', s' := ExtendTimely(1, es, s, CommitTicket(0, TICKET, Delivered));
  }

  lemma FailingAfterCommit(s: State)
    requires FirstCommitted(s)
    ensures Enabled(s, ExecutionFails(0, WorkflowFailure))
    ensures FirstFailed(Apply(s, ExecutionFails(0, WorkflowFailure)), WorkflowFailure)
  {}

  lemma RetryMakesSecondTicket(es: seq<Event>, s: State, error: ExecutionError) returns (es': seq<Event>, s': State)
    requires IsTimelyRun(Init(1), es) && s == Run(Init(1), es) && FirstFailed(s, error)
    ensures es' == es + RETRY && IsTimelyRun(Init(1), es') && s' == Run(Init(1), es') && TwoTickets(s')
  {
    es', s' := KeyIsReleased(es, s, error);
    es', s' := SecondClaimsFreeKey(es', s', error);
    SecondCommits(s', error);
    es', s' := ExtendTimely(1, es', s', CommitTicket(1, TICKET, Delivered));
  }

  /** The first request gives its key back, and the second claims it and commits. */
  const RETRY := [Release(0, Delivered), TryClaim(1, Delivered), CommitTicket(1, TICKET, Delivered)]

  predicate FirstReleased(s: State, error: ExecutionError) {
    && s.requests == map[0 := Request(Some(KEY), Finished(Failed(error))), 1 := Request(Some(KEY), Claiming)]
    && s.claims == [Claim(0, KEY, 0, Released, Some(0))] && s.rows == [TicketRow(0, Some(0), TICKET)]
    && s.now == 0 && s.ttl == 1 && KEY !in s.store
  }

  lemma ReleasingTheKey(s: State, error: ExecutionError)
    requires FirstFailed(s, error)
    ensures Enabled(s, Release(0, Delivered)) && FirstReleased(Apply(s, Release(0, Delivered)), error)
  {}

  lemma KeyIsReleased(es: seq<Event>, s: State, error: ExecutionError) returns (es': seq<Event>, s': State)
    requires IsTimelyRun(Init(1), es) && s == Run(Init(1), es) && FirstFailed(s, error)
    ensures es' == es + [Release(0, Delivered)]
    ensures IsTimelyRun(Init(1), es') && s' == Run(Init(1), es') && FirstReleased(s', error)
  {
    ReleasingTheKey(s, error);
    es', s' := ExtendTimely(1, es, s, Release(0, Delivered));
  }

  /** The second request has won the key that the first one released. */
  predicate SecondHolds(s: State, error: ExecutionError) {
    && s.requests == map[0 := Request(Some(KEY), Finished(Failed(error))),
                         1 := Request(Some(KEY), Executing(Some(1), false))]
    && s.claims == [Claim(0, KEY, 0, Released, Some(0)), Claim(1, KEY, 0, Running, None)]
    && s.rows == [TicketRow(0, Some(0), TICKET)] && s.now == 0 && s.ttl == 1
  }

  lemma SecondClaimsFreeKey(es: seq<Event>, s: State, error: ExecutionError) returns (es': seq<Event>, s': State)
    requires IsTimelyRun(Init(1), es) && s == Run(Init(1), es) && FirstReleased(s, error)
    ensures es' == es + [TryClaim(1, Delivered)] && IsTimelyRun(Init(1), es') && s' == Run(Init(1), es')
    ensures SecondHolds(s', error)
  {
    es', s' := ExtendTimely(1, es, s, TryClaim(1, Delivered));
  }

  lemma SecondCommits(s: State, error: ExecutionError)
    requires SecondHolds(s, error)
    ensures Enabled(s, CommitTicket(1, TICKET, Delivered))
    ensures var s' := Apply(s, CommitTicket(1, TICKET, Delivered)); TwoTickets(s') && Timely(s')
  {
    var s' := Commit(s, 1, TICKET);
    assert s'.rows == [TicketRow(0, Some(0), TICKET), TicketRow(1, Some(1), TICKET)];
    assert s'.claims == [Claim(0, KEY, 0, Released, Some(0)), Claim(1, KEY, 0, Running, Some(1))];
  }
}
