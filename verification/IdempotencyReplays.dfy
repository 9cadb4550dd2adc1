/**
 What a request that does not win its key is told: a key whose creation has completed is replayed
 for a full time to live, a key that is held is in progress, and nothing else is ever said.
 */
module IdempotencyReplays {
  import opened Options
  import opened TtlStore
  import opened TicketResponses
  import opened IdempotencyProtocol
  import opened IdempotencySafety

  // ---- A completed key is kept ----

  /** Nobody holds `key`, and it stores the record until `until`. */
  ghost predicate Kept(s: State, key: string, record: Record, until: nat) {
    (forall h :: !HoldsKey(s, h, key)) && key in s.store && s.store[key] == Entry(record, until)
  }

  /** Request `q` is about to store `response` under `key`. */
  predicate Stores(s: State, q: RequestId, key: string, response: TicketResponse) {
    && q in s.requests && s.requests[q].key == Some(key)
    && s.requests[q].phase.Completing? && s.requests[q].phase.response == response
  }

  lemma CompletionKeeps(s: State, q: RequestId, delivery: Delivery, key: string, response: TicketResponse)
    requires Exclusive(s) && Stores(s, q, key, response) && Enabled(s, Complete(q, delivery)) && delivery.Applied()
    ensures Kept(Apply(s, Complete(q, delivery)), key, Json(ModelDump(response)), s.now + s.ttl)
  {
    var s' := Apply(s, Complete(q, delivery));
    assert HoldsKey(s, q, key);
    forall h ensures !HoldsKey(s', h, key) {
      if HoldsKey(s', h, key) {
        HoldersOnlyByClaim(s, Complete(q, delivery), h, key);
      }
    }
  }

  /** Only a holder of a key or a claim that finds it free changes what the key stores. */
  lemma KeyChangesOnlyByHolders(s: State, e: Event, key: string)
    requires Enabled(s, e) && Live(s.store, key, s.now) && forall h :: !HoldsKey(s, h, key)
    ensures key in Apply(s, e).store && Apply(s, e).store[key] == s.store[key]
  {
    if e.Complete? || e.Release? {
      assert !HoldsKey(s, e.r, key);
    } else if !e.TryClaim? {
      OnlyClaimsAndCompletionsWrite(s, e, key);
      StoreStays(s, e);
    }
  }

  lemma StoreStays(s: State, e: Event)
    requires Enabled(s, e) && !e.TryClaim? && !e.Complete? && !e.Release?
    ensures Apply(s, e).store == s.store
  {
    match e
    case CommitTicket(r, ticket, _) => assert Commit(s, r, ticket).store == s.store;
    case _ =>
  }

  lemma StepKeepsKept(s: State, e: Event, key: string, record: Record, until: nat)
    requires Kept(s, key, record, until) && s.now < until && Enabled(s, e)
    ensures Kept(Apply(s, e), key, record, until)
  {
    KeyChangesOnlyByHolders(s, e, key);
    forall h ensures !HoldsKey(Apply(s, e), h, key) {
      if HoldsKey(Apply(s, e), h, key) {
        HoldersOnlyByClaim(s, e, h, key);
      }
    }
  }

  lemma ClockMovesOn(s: State, e: Event)
    requires Enabled(s, e)
    ensures s.now <= Apply(s, e).now
  {
    match e
    case CommitTicket(r, ticket, _) => assert Commit(s, r, ticket).now == s.now;
    case _ =>
  }

  /** From one moment of a run to a later one that comes before `until`. */
  lemma {:induction false} KeptWhile(start: State, es: seq<Event>, n: nat, m: nat,
                                     key: string, record: Record, until: nat)
    requires IsRun(start, es) && n <= m <= |es| && Kept(After(start, es, n), key, record, until)
    requires After(start, es, m).now < until
    ensures Kept(After(start, es, m), key, record, until)
    decreases m
  {
    if n < m {
      AfterStep(start, es, m - 1);
      ClockMovesOn(After(start, es, m - 1), es[m - 1]);
      KeptWhile(start, es, n, m - 1, key, record, until);
      StepKeepsKept(After(start, es, m - 1), es[m - 1], key, record, until);
    }
  }

  // ---- What a claim and a read then find ----

  /** Request `r` was answered with `response`, marked as a replay. */
  predicate IsToldAgain(s: State, r: RequestId, response: TicketResponse) {
    && r in s.requests && s.requests[r].phase.Finished? && s.requests[r].phase.outcome.Replayed?
    && s.requests[r].phase.outcome.response == response.(idempotentReplay := true)
  }

  predicate IsTold(s: State, r: RequestId, outcome: Outcome) {
    r in s.requests && s.requests[r].phase == Finished(outcome)
  }

  predicate MustRead(s: State, r: RequestId) {
    r in s.requests && s.requests[r].phase == Reading
  }

  predicate ReadsKey(s: State, e: Event, key: string) {
    && e.ReadExisting? && e.delivery.Delivered? && e.r in s.requests && s.requests[e.r].key == Some(key)
  }

  predicate ClaimsKey(s: State, e: Event, key: string) {
    && e.TryClaim? && e.delivery.Delivered? && e.r in s.requests && s.requests[e.r].key == Some(key)
  }

  lemma KeptIsReplayed(s: State, e: Event, key: string, response: TicketResponse, until: nat)
    requires Kept(s, key, Json(ModelDump(response)), until) && s.now < until && Enabled(s, e)
    ensures ReadsKey(s, e, key) ==> IsToldAgain(Apply(s, e), e.r, response)
    ensures ClaimsKey(s, e, key) ==> MustRead(Apply(s, e), e.r)
  {
    ReplayIsFaithful(response);
  }

  /**
   Once a completion under `key` has taken effect while nobody else held the key, then for a full
   time to live and whatever else happens, late or not, every answered claim of the key has to
   read it, and every answered read of it is told the completed response again.
   */
  lemma CompletedKeyIsReplayed(start: State, es: seq<Event>, n: nat, m: nat, key: string, response: TicketResponse)
    requires IsRun(start, es) && n < m < |es|
    requires es[n].Complete? && es[n].delivery.Applied() && Stores(After(start, es, n), es[n].r, key, response)
    requires Exclusive(After(start, es, n))
    requires After(start, es, m).now < After(start, es, n).now + After(start, es, n).ttl
    ensures ReadsKey(After(start, es, m), es[m], key) ==> IsToldAgain(After(start, es, m + 1), es[m].r, response)
    ensures ClaimsKey(After(start, es, m), es[m], key) ==> MustRead(After(start, es, m + 1), es[m].r)
  {
    var s := After(start, es, n);
    AfterStep(start, es, n);
    CompletionKeeps(s, es[n].r, es[n].delivery, key, response);
    KeptWhile(start, es, n + 1, m, key, Json(ModelDump(response)), s.now + s.ttl);
    AfterStep(start, es, m);
    KeptIsReplayed(After(start, es, m), es[m], key, response, s.now + s.ttl);
  }

  lemma {:induction false} FinishedStays(start: State, es: seq<Event>, n: nat, m: nat, r: RequestId)
    requires IsRun(start, es) && n <= m <= |es|
    requires r in After(start, es, n).requests && After(start, es, n).requests[r].phase.Finished?
    ensures r in After(start, es, m).requests && After(start, es, m).requests[r] == After(start, es, n).requests[r]
    decreases m
  {
    if n < m {
      FinishedStays(start, es, n, m - 1, r);
      AfterStep(start, es, m - 1);
      OthersLeaveRequest(After(start, es, m - 1), es[m - 1], r);
    }
  }

  /**
   The promise to a client that retries: if nobody outlived a claim up to a completion that took
   effect, a request on the same key whose read is answered less than a time to live later ends
   with the completed response, marked as a replay.
   */
  lemma RetryGetsTheResponse(ttl: nat, es: seq<Event>, n: nat, m: nat, key: string, response: TicketResponse)
    requires IsRun(Init(ttl), es) && n < m < |es| && IsTimelyRun(Init(ttl), es[..n])
    requires es[n].Complete? && es[n].delivery.Applied() && Stores(After(Init(ttl), es, n), es[n].r, key, response)
    requires After(Init(ttl), es, m).now < After(Init(ttl), es, n).now + ttl
    requires ReadsKey(After(Init(ttl), es, m), es[m], key)
    ensures IsToldAgain(Run(Init(ttl), es), es[m].r, response)
  {
    TimelyPrefixIsExclusive(ttl, es, n);
    CompletedKeyIsReplayed(Init(ttl), es, n, m, key, response);
    ToldStaysTold(Init(ttl), es, m + 1, es[m].r, response);
  }

  lemma TimelyPrefixIsExclusive(ttl: nat, es: seq<Event>, n: nat)
    requires IsRun(Init(ttl), es) && n <= |es| && IsTimelyRun(Init(ttl), es[..n])
    ensures Exclusive(After(Init(ttl), es, n)) && After(Init(ttl), es, n).ttl == ttl
  {
    AtMostOneHolder(ttl, es[..n]);
    TtlIsFixed(Init(ttl), es[..n]);
  }

  lemma ToldStaysTold(start: State, es: seq<Event>, n: nat, r: RequestId, response: TicketResponse)
    requires IsRun(start, es) && n <= |es| && IsToldAgain(After(start, es, n), r, response)
    ensures IsToldAgain(Run(start, es), r, response)
  {
    FinishedStays(start, es, n, |es|, r);
    assert es[..|es|] == es;
  }

  // ---- The other answers ----

  /** While a request that is in time holds a key, whoever reads the key is told that the creation is in progress. */
  lemma HeldKeyIsInProgress(ttl: nat, es: seq<Event>, h: RequestId, e: Event, key: string)
    requires IsTimelyRun(Init(ttl), es) && HoldsKey(Reached(ttl, es), h, key)
    requires Enabled(Reached(ttl, es), e)
    ensures ReadsKey(Reached(ttl, es), e, key) ==> IsTold(Apply(Reached(ttl, es), e), e.r, CreationInProgress)
    ensures ClaimsKey(Reached(ttl, es), e, key) ==> MustRead(Apply(Reached(ttl, es), e), e.r)
  {
    ReachedIsSound(ttl, es);
    HolderFacts(Reached(ttl, es), h);
  }

  lemma LostClaimKeeps(s: State, e: Event, key: string)
    requires Enabled(s, e) && e.TryClaim? && e.delivery.Applied() && e.delivery.Raised()
    requires s.requests[e.r].key == Some(key) && !Live(s.store, key, s.now) && forall h :: !HoldsKey(s, h, key)
    ensures Kept(Apply(s, e), key, IN_PROGRESS, s.now + s.ttl)
  {
    forall h ensures !HoldsKey(Apply(s, e), h, key) {
      if HoldsKey(Apply(s, e), h, key) {
        HoldersOnlyByClaim(s, e, h, key);
      }
    }
  }

  lemma KeptMarkBlocks(s: State, e: Event, key: string, until: nat)
    requires Kept(s, key, IN_PROGRESS, until) && s.now < until && Enabled(s, e)
    ensures ReadsKey(s, e, key) ==> IsTold(Apply(s, e), e.r, CreationInProgress)
    ensures ClaimsKey(s, e, key) ==> MustRead(Apply(s, e), e.r)
  {
    assert IsInProgress(SENTINEL);
  }

  /**
   A claim that takes effect while its caller sees an error or is cut off makes nobody a holder,
   and still blocks the key for a full time to live, whatever else happens: every answered claim
   of the key has to read it, and every answered read is told that the creation is in progress.
   */
  lemma LostClaimBlocksItsKey(start: State, es: seq<Event>, n: nat, m: nat, key: string)
    requires IsRun(start, es) && n < m < |es|
    requires es[n].TryClaim? && es[n].delivery.Applied() && es[n].delivery.Raised()
    requires var s := After(start, es, n);
             && es[n].r in s.requests && s.requests[es[n].r].key == Some(key)
             && !Live(s.store, key, s.now) && (forall h :: !HoldsKey(s, h, key))
             && After(start, es, m).now < s.now + s.ttl
    ensures ReadsKey(After(start, es, m), es[m], key) ==> IsTold(After(start, es, m + 1), es[m].r, CreationInProgress)
    ensures ClaimsKey(After(start, es, m), es[m], key) ==> MustRead(After(start, es, m + 1), es[m].r)
  {
    var s := After(start, es, n);
    AfterStep(start, es, n);
    LostClaimKeeps(s, es[n], key);
    KeptWhile(start, es, n + 1, m, key, IN_PROGRESS, s.now + s.ttl);
    AfterStep(start, es, m);
    KeptMarkBlocks(After(start, es, m), es[m], key, s.now + s.ttl);
  }

  /** The key stores a response. */
  predicate StoresAResponse(s: State, key: string) {
    key in s.store && s.now < s.store[key].expiry && s.store[key].value != Json(SENTINEL)
  }

  /** In every run, timely or not, a read gives a replay if a live response is stored, and otherwise "in progress". */
  lemma ReadsAreAnsweredExactly(ttl: nat, es: seq<Event>, e: Event, key: string)
    requires IsRun(Init(ttl), es) && Enabled(Run(Init(ttl), es), e) && ReadsKey(Run(Init(ttl), es), e, key)
    ensures var s, s' := Run(Init(ttl), es), Apply(Run(Init(ttl), es), e);
            && (StoresAResponse(s, key) <==> exists response :: IsToldAgain(s', e.r, response))
            && (!StoresAResponse(s, key) <==> IsTold(s', e.r, CreationInProgress))
  {
    RunIsTruthful(ttl, es);
    ReadAnswered(Run(Init(ttl), es), e, key);
  }

  lemma ReadAnswered(s: State, e: Event, key: string)
    requires Enabled(s, e) && ReadsKey(s, e, key) && RecordsTrue(s.store, s.claims)
    ensures StoresAResponse(s, key) <==> exists response :: IsToldAgain(Apply(s, e), e.r, response)
    ensures !StoresAResponse(s, key) <==> IsTold(Apply(s, e), e.r, CreationInProgress)
  {
    if StoresAResponse(s, key) {
      assert RecordTrue(s.store[key].value, key, s.claims);
      var response :| Produced(s.claims, key, response) && s.store[key].value == Json(ModelDump(response));
      ReplayIsFaithful(response);
      assert IsToldAgain(Apply(s, e), e.r, response);
    } else {
      assert IsInProgress(SENTINEL);
    }
  }

  // ---- The ticket table ----

  predicate Inserts(e: Event, r: RequestId, ticket: Ticket) {
    e.CommitTicket? && e.r == r && e.ticket == ticket && e.delivery.Applied()
  }

  ghost predicate InTable(s: State, r: RequestId, ticket: Ticket) {
    InRows(s.rows, r, ticket)
  }

  ghost predicate InRows(rows: seq<TicketRow>, r: RequestId, ticket: Ticket) {
    exists j :: 0 <= j < |rows| && rows[j].request == r && rows[j].ticket == ticket
  }

  lemma RowAppended(rows: seq<TicketRow>, row: TicketRow, r: RequestId, ticket: Ticket)
    ensures InRows(rows + [row], r, ticket)
       <==> InRows(rows, r, ticket) || (row.request == r && row.ticket == ticket)
  {
    var longer := rows + [row];
    assert longer[|rows|] == row;
    if InRows(rows, r, ticket) {
      var j :| 0 <= j < |rows| && rows[j].request == r && rows[j].ticket == ticket;
      assert longer[j] == rows[j];
    }
  }

  lemma RowsGrowByCommits(s: State, e: Event)
    requires Enabled(s, e)
    ensures Apply(s, e).rows
         == if e.CommitTicket? && e.delivery.Applied()
            then s.rows + [TicketRow(e.r, s.requests[e.r].phase.claim, e.ticket)]
            else s.rows
  {
    match e
    case CommitTicket(r, ticket, _) =>
      assert Commit(s, r, ticket).rows == s.rows + [TicketRow(r, s.requests[r].phase.claim, ticket)];
    case _ =>
  }

  lemma RowsAfterStep(s: State, e: Event, r: RequestId, ticket: Ticket)
    requires Enabled(s, e)
    ensures InTable(Apply(s, e), r, ticket) <==> InTable(s, r, ticket) || Inserts(e, r, ticket)
  {
    RowsGrowByCommits(s, e);
    if e.CommitTicket? {
      RowAppended(s.rows, TicketRow(e.r, s.requests[e.r].phase.claim, e.ticket), r, ticket);
    }
  }

  /** In every run the table holds exactly the tickets whose commits took effect, with the fields they were given. */
  lemma {:induction false} TableHoldsTheCommitted(ttl: nat, es: seq<Event>, r: RequestId, ticket: Ticket)
    requires IsRun(Init(ttl), es)
    ensures InTable(Run(Init(ttl), es), r, ticket) <==> exists i :: 0 <= i < |es| && Inserts(es[i], r, ticket)
    decreases |es|
  {
    if es != [] {
      var front := es[..|es| - 1];
      TableHoldsTheCommitted(ttl, front, r, ticket);
      RowsAfterStep(Run(Init(ttl), front), es[|es| - 1], r, ticket);
      assert forall i :: 0 <= i < |front| ==> front[i] == es[i];
      if i :| 0 <= i < |front| && Inserts(front[i], r, ticket) {
        assert Inserts(es[i], r, ticket);
      }
    }
  }
}
