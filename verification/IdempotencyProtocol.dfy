/**
 The idempotent ticket creation of `backend/services/idempotency.py` and
 `backend/services/ticket.py` as a step system: any number of requests, each at its own
 point in `create_ticket`, over one Redis store and one ticket table, with a clock.

 One event is one indivisible action: a Redis command, a database commit, an outcome of
 the execution, a cancellation, or the passing of time. A Redis command whose caller gave
 up counts as pending until it takes effect or is dropped.

 `claims`, `latest`, and the marks inside phases and outcomes record history; no action
 of the program depends on them.
 */
module IdempotencyProtocol {
  import opened Options
  import opened TtlStore
  import opened TicketResponses

  type RequestId = nat

  /** Why an execution fails: WorkflowFailure stands for any error after the commit was answered. */
  datatype ExecutionError = CustomerNotFound | DatabaseFailure | WorkflowFailure

  /** How a call of `create_ticket` ends. */
  datatype Outcome =
    | Created(response: TicketResponse, claim: Option<nat>)
    | Replayed(response: TicketResponse, source: nat, at: nat)
    | CreationInProgress
    | BackendUnavailable
    | Failed(error: ExecutionError)
    | InvalidRecord
    | Cancelled

  datatype Phase =
    | Claiming
    | Reading
    | Executing(claim: Option<nat>, committed: bool)
    | Completing(held: nat, response: TicketResponse)
    | Releasing(held: nat, error: ExecutionError)
    | Finished(outcome: Outcome)

  datatype Request = Request(key: Option<string>, phase: Phase)

  /** What has become of the execution a claim was made for. */
  datatype Fate =
    | Orphaned
    | Running
    | Succeeded(response: TicketResponse)
    | FailedToExecute
    | Released

  datatype Claim = Claim(owner: RequestId, key: string, at: nat, fate: Fate, row: Option<nat>)

  /** A row of the `tickets` table, as far as `create_ticket` fills it. */
  datatype Ticket = Ticket(id: string, customerId: string, subject: string, description: string, createdAt: string)

  datatype TicketRow = TicketRow(request: RequestId, claim: Option<nat>, ticket: Ticket)

  /** A stored record; Malformed is anything `json.loads` rejects. */
  datatype Record = Json(object: JsonObject) | Malformed

  const IN_PROGRESS: Record := Json(SENTINEL)

  datatype State = State(
    ttl: nat,
    now: nat,
    store: Store<string, Record>,
    requests: map<RequestId, Request>,
    rows: seq<TicketRow>,
    claims: seq<Claim>,
    latest: map<string, nat>)

  datatype Event =
    | Tick(elapsed: nat)
    | Arrive(r: RequestId, key: Option<string>)
    | TryClaim(r: RequestId, delivery: Delivery)
    | ReadExisting(r: RequestId, delivery: Delivery)
    | CommitTicket(r: RequestId, ticket: Ticket, delivery: Delivery)
    | ExecutionSucceeds(r: RequestId, response: TicketResponse)
    | ExecutionFails(r: RequestId, error: ExecutionError)
    | Complete(r: RequestId, delivery: Delivery)
    | Release(r: RequestId, delivery: Delivery)
    | Cancel(r: RequestId)

  function Init(ttl: nat): State {
    State(ttl, 0, map[], map[], [], [], map[])
  }

  predicate Enabled(s: State, e: Event) {
    match e
    case Tick(_) => true
    case Arrive(r, _) => r !in s.requests
    case TryClaim(r, _) => r in s.requests && s.requests[r].phase.Claiming? && s.requests[r].key.Some?
    case ReadExisting(r, _) => r in s.requests && s.requests[r].phase.Reading? && s.requests[r].key.Some?
    case CommitTicket(r, _, _) => Executes(s, r) && !s.requests[r].phase.committed
    case ExecutionSucceeds(r, _) => Executes(s, r) && s.requests[r].phase.committed
    case ExecutionFails(r, error) => Executes(s, r) && (error.WorkflowFailure? <==> s.requests[r].phase.committed)
    case Complete(r, _) => r in s.requests && s.requests[r].phase.Completing? && s.requests[r].key.Some?
    case Release(r, _) =>
      && r in s.requests && s.requests[r].phase.Releasing? && s.requests[r].key.Some?
      && s.requests[r].phase.held < |s.claims|
    case Cancel(r) => r in s.requests && !s.requests[r].phase.Finished?
  }

  /** The request is in `_execute`. */
  predicate Executes(s: State, r: RequestId) {
    && r in s.requests && s.requests[r].phase.Executing?
    && (s.requests[r].phase.claim.Some? ==> s.requests[r].phase.claim.value < |s.claims|)
  }

  function Enter(s: State, r: RequestId, phase: Phase): State
    requires r in s.requests
  {
    s.(requests := s.requests[r := s.requests[r].(phase := phase)])
  }

  function Finish(s: State, r: RequestId, outcome: Outcome): State
    requires r in s.requests
  {
    Enter(s, r, Finished(outcome))
  }

  function SetFate(s: State, c: nat, fate: Fate): State
    requires c < |s.claims|
  {
    s.(claims := s.claims[c := s.claims[c].(fate := fate)])
  }

  /** `SET key sentinel NX EX ttl` has set the key on behalf of `r`. */
  function Claimed(s: State, r: RequestId, key: string, fate: Fate): State {
    s.(store := SetEx(s.store, key, IN_PROGRESS, s.now, s.ttl),
       claims := s.claims + [Claim(r, key, s.now, fate, None)],
       latest := s.latest[key := |s.claims|])
  }

  /** The database commits the ticket of `r`. */
  function Commit(s: State, r: RequestId, ticket: Ticket): (s': State)
    requires Executes(s, r)
    ensures Executes(s', r) && s'.requests[r].phase == s.requests[r].phase.(committed := true)
  {
    var claim := s.requests[r].phase.claim;
    var s1 := Enter(s, r, Executing(claim, true));
    var s2 := s1.(rows := s.rows + [TicketRow(r, claim, ticket)]);
    if claim.Some? then s2.(claims := s.claims[claim.value := s.claims[claim.value].(row := Some(|s.rows|))]) else s2
  }

  /** `_execute` raises. */
  function Fail(s: State, r: RequestId, error: ExecutionError): State
    requires Executes(s, r)
  {
    match s.requests[r].phase.claim
    case Some(c) => Enter(SetFate(s, c, FailedToExecute), r, Releasing(c, error))
    case None => Finish(s, r, Failed(error))
  }

  /** How a call ends whose Redis command was not answered. */
  function Unanswered(delivery: Delivery): Outcome {
    if delivery.Cut() then Cancelled else BackendUnavailable
  }

  /** What `create_ticket` makes of the record found under a key it could not claim. */
  function OutcomeOfExisting(existing: Option<Record>, source: nat, at: nat): Outcome {
    match existing
    case None => CreationInProgress
    case Some(Malformed) => CreationInProgress
    case Some(Json(o)) =>
      if IsInProgress(o) then CreationInProgress
      else match Replay(o)
           case Some(response) => Replayed(response, source, at)
           case None => InvalidRecord
  }

  function Apply(s: State, e: Event): State
    requires Enabled(s, e)
  {
    match e
    case Tick(elapsed) => s.(now := s.now + elapsed)
    case Arrive(r, key) =>
      s.(requests := s.requests[r := Request(key, if key.Some? then Claiming else Executing(None, false))])
    case TryClaim(r, delivery) =>
      var key := s.requests[r].key.value;
      var wins := delivery.Applied() && !Live(s.store, key, s.now);
      if delivery.Raised() then
        Finish(if wins then Claimed(s, r, key, Orphaned) else s, r, Unanswered(delivery))
      else if wins then Enter(Claimed(s, r, key, Running), r, Executing(Some(|s.claims|), false))
      else Enter(s, r, Reading)
    case ReadExisting(r, delivery) =>
      var key := s.requests[r].key.value;
      if delivery.Raised() then Finish(s, r, Unanswered(delivery))
      else
        var source := if key in s.latest then s.latest[key] else 0;
        Finish(s, r, OutcomeOfExisting(Lookup(s.store, key, s.now), source, s.now))
    case CommitTicket(r, ticket, delivery) =>
      (match delivery
       case Delivered => Commit(s, r, ticket)
       case LostBefore => Fail(s, r, DatabaseFailure)
       case LostAfter => Fail(Commit(s, r, ticket), r, DatabaseFailure)
       case CutBefore => Finish(s, r, Cancelled)
       case CutAfter => Finish(Commit(s, r, ticket), r, Cancelled))
    case ExecutionSucceeds(r, response) =>
      (match s.requests[r].phase.claim
       case Some(c) => Enter(SetFate(s, c, Succeeded(response)), r, Completing(c, response))
       case None => Finish(s, r, Created(response, None)))
    case ExecutionFails(r, error) => Fail(s, r, error)
    case Complete(r, delivery) =>
      var Completing(c, response) := s.requests[r].phase;
      var s1 := if delivery.Applied()
                then s.(store := SetEx(s.store, s.requests[r].key.value, Json(ModelDump(response)), s.now, s.ttl))
                else s;
      Finish(s1, r, if delivery.Raised() then Unanswered(delivery) else Created(response, Some(c)))
    case Release(r, delivery) =>
      var Releasing(c, error) := s.requests[r].phase;
      var s1 := if delivery.Applied()
                then SetFate(s, c, Released).(store := Delete(s.store, s.requests[r].key.value))
                else s;
      Finish(s1, r, if delivery.Cut() then Cancelled else Failed(error))
    case Cancel(r) => Finish(s, r, Cancelled)
  }

  // ---- Runs ----

  ghost predicate IsRun(s: State, es: seq<Event>)
    decreases |es|, 0
  {
    es == [] || (IsRun(s, es[..|es| - 1]) && Enabled(Run(s, es[..|es| - 1]), es[|es| - 1]))
  }

  ghost function Run(s: State, es: seq<Event>): State
    requires IsRun(s, es)
    decreases |es|, 1
  {
    if es == [] then s else Apply(Run(s, es[..|es| - 1]), es[|es| - 1])
  }

  lemma RunExtends(s: State, es: seq<Event>, e: Event)
    requires IsRun(s, es) && Enabled(Run(s, es), e)
    ensures IsRun(s, es + [e]) && Run(s, es + [e]) == Apply(Run(s, es), e)
  {
    assert (es + [e])[..|es|] == es;
  }

  /** The request has claimed its key and not yet completed or released it. */
  predicate Holds(q: Request) {
    match q.phase
    case Executing(c, _) => c.Some?
    case Completing(_, _) => true
    case Releasing(_, _) => true
    case _ => false
  }

  function HeldClaim(q: Request): nat
    requires Holds(q)
  {
    if q.phase.Executing? then q.phase.claim.value
    else q.phase.held
  }

  /** A holder of a claim is still within the time to live of that claim. */
  predicate InTime(ttl: nat, now: nat, claims: seq<Claim>, q: Request) {
    Holds(q) && HeldClaim(q) < |claims| ==> now < claims[HeldClaim(q)].at + ttl
  }

  /** No holder has outlived the time to live of its claim. */
  ghost predicate Timely(s: State) {
    forall r :: r in s.requests ==> InTime(s.ttl, s.now, s.claims, s.requests[r])
  }

  /** A run in which no holder acts or lingers past its time to live. */
  ghost predicate IsTimelyRun(s: State, es: seq<Event>)
    decreases |es|
  {
    IsRun(s, es) && Timely(Run(s, es)) && (es == [] || IsTimelyRun(s, es[..|es| - 1]))
  }

  // ---- The invariant ----
  //
  // Each part is stated over the components of the state it depends on.

  type Requests = map<RequestId, Request>
  type Records = Store<string, Record>

  ghost predicate ClaimsOk(now: nat, claims: seq<Claim>, latest: map<string, nat>) {
    && (forall i :: 0 <= i < |claims| ==>
          claims[i].at <= now && claims[i].key in latest && i <= latest[claims[i].key])
    && (forall i, j :: 0 <= i <= j < |claims| ==> claims[i].at <= claims[j].at)
    && (forall k :: k in latest ==> latest[k] < |claims| && claims[latest[k]].key == k)
  }

  predicate Close(ttl: nat, earlier: Claim, later: Claim) {
    earlier.key == later.key && later.at < earlier.at + ttl
  }

  /** Two claims on one key lie a time to live apart unless the earlier one was released after a failure. */
  ghost predicate ClaimsSpaced(ttl: nat, claims: seq<Claim>) {
    forall i, j :: 0 <= i < j < |claims| && Close(ttl, claims[i], claims[j]) ==> claims[i].fate.Released?
  }

  predicate FateFits(p: Phase, claim: Claim) {
    match p
    case Executing(_, committed) => claim.fate.Running? && claim.row.Some? == committed
    case Completing(_, response) => claim.fate == Succeeded(response)
    case Releasing(_, _) => claim.fate.FailedToExecute?
    case _ => true
  }

  /** A holder's claim is the last one on its key, and its sentinel is in place. */
  ghost predicate HolderOk(ttl: nat, store: Records, claims: seq<Claim>, latest: map<string, nat>,
                           r: RequestId, q: Request)
    requires Holds(q)
  {
    var c := HeldClaim(q);
    && c < |claims|
    && claims[c].owner == r
    && q.key == Some(claims[c].key)
    && FateFits(q.phase, claims[c])
    && claims[c].key in latest && latest[claims[c].key] == c
    && claims[c].key in store
    && store[claims[c].key] == Entry(IN_PROGRESS, claims[c].at + ttl)
  }

  ghost predicate HoldersOk(ttl: nat, store: Records, requests: Requests, claims: seq<Claim>,
                            latest: map<string, nat>) {
    forall r :: r in requests && Holds(requests[r]) ==> HolderOk(ttl, store, claims, latest, r, requests[r])
  }

  ghost predicate KeyGuarded(ttl: nat, now: nat, store: Records, k: string, claim: Claim) {
    !claim.fate.Released? && now < claim.at + ttl ==> k in store && claim.at + ttl <= store[k].expiry
  }

  /** Until its time to live is over, the last claim on a key keeps the key occupied unless it was released. */
  ghost predicate Guarded(ttl: nat, now: nat, store: Records, claims: seq<Claim>, latest: map<string, nat>) {
    forall k :: k in latest && latest[k] < |claims| ==> KeyGuarded(ttl, now, store, k, claims[latest[k]])
  }

  ghost predicate RecordOk(ttl: nat, entry: Entry<Record>, claim: Claim) {
    && !claim.fate.Released?
    && (|| (entry.value == IN_PROGRESS && entry.expiry == claim.at + ttl)
        || (&& claim.fate.Succeeded?
            && entry.value == Json(ModelDump(claim.fate.response))
            && claim.at + ttl <= entry.expiry < claim.at + 2 * ttl))
  }

  /** Every record is the sentinel of the last claim on its key, or the response of that claim's execution. */
  ghost predicate RecordsOk(ttl: nat, store: Records, claims: seq<Claim>, latest: map<string, nat>) {
    forall k :: k in store ==> k in latest && latest[k] < |claims| && RecordOk(ttl, store[k], claims[latest[k]])
  }

  /** Ticket rows of keyed requests and the claims they were made under correspond one to one. */
  ghost predicate RowsOk(rows: seq<TicketRow>, claims: seq<Claim>) {
    && (forall j :: 0 <= j < |rows| && rows[j].claim.Some? ==>
          && rows[j].claim.value < |claims|
          && claims[rows[j].claim.value].row == Some(j) && claims[rows[j].claim.value].owner == rows[j].request)
    && (forall c :: 0 <= c < |claims| ==> ClaimRowOk(rows, c, claims[c]))
  }

  ghost predicate ClaimRowOk(rows: seq<TicketRow>, c: nat, claim: Claim) {
    && (claim.row.Some? ==> claim.row.value < |rows| && rows[claim.row.value].claim == Some(c))
    && (claim.fate.Orphaned? ==> claim.row.None?)
    && (claim.fate.Succeeded? ==> claim.row.Some?)
  }

  /** What a finished request was told is what the execution behind it produced. */
  ghost predicate AnswerOk(ttl: nat, claims: seq<Claim>, q: Request) {
    match q.phase
    case Finished(Created(response, Some(c))) =>
      c < |claims| && q.key == Some(claims[c].key) && claims[c].fate == Succeeded(response)
    case Finished(Replayed(response, c, at)) =>
      && c < |claims| && q.key == Some(claims[c].key) && claims[c].fate.Succeeded?
      && response == claims[c].fate.response.(idempotentReplay := true)
      && claims[c].at <= at < claims[c].at + 2 * ttl
    case Finished(InvalidRecord) => false
    case _ => true
  }

  ghost predicate AnswersOk(ttl: nat, requests: Requests, claims: seq<Claim>) {
    forall r :: r in requests ==> AnswerOk(ttl, claims, requests[r])
  }

  ghost predicate Inv(s: State) {
    && ClaimsOk(s.now, s.claims, s.latest)
    && ClaimsSpaced(s.ttl, s.claims)
    && HoldersOk(s.ttl, s.store, s.requests, s.claims, s.latest)
    && Guarded(s.ttl, s.now, s.store, s.claims, s.latest)
    && RecordsOk(s.ttl, s.store, s.claims, s.latest)
    && RowsOk(s.rows, s.claims)
    && AnswersOk(s.ttl, s.requests, s.claims)
  }

  lemma InitInv(ttl: nat)
    ensures Inv(Init(ttl)) && Timely(Init(ttl))
  {}

  // ---- A claim takes effect ----

  lemma ClaimsOkWin(now: nat, claims: seq<Claim>, latest: map<string, nat>, claim: Claim)
    requires ClaimsOk(now, claims, latest) && claim.at == now
    ensures ClaimsOk(now, claims + [claim], latest[claim.key := |claims|])
  {}

  lemma ClaimsSpacedWin(ttl: nat, now: nat, store: Records, claims: seq<Claim>, latest: map<string, nat>, claim: Claim)
    requires ClaimsOk(now, claims, latest) && ClaimsSpaced(ttl, claims) && Guarded(ttl, now, store, claims, latest)
    requires claim.at == now && !Live(store, claim.key, now)
    ensures ClaimsSpaced(ttl, claims + [claim])
  {
    forall i | 0 <= i < |claims| && Close(ttl, claims[i], claim) ensures claims[i].fate.Released? {
      var l := latest[claim.key];
      assert KeyGuarded(ttl, now, store, claim.key, claims[l]);
      if i < l {
        assert Close(ttl, claims[i], claims[l]);
      }
    }
  }

  lemma HoldersOkWin(s: State, r: RequestId, claim: Claim, q: Request)
    requires HoldersOk(s.ttl, s.store, s.requests, s.claims, s.latest) && Timely(s)
    requires r in s.requests && !Live(s.store, claim.key, s.now)
    requires claim.owner == r && claim.at == s.now && q.key == Some(claim.key)
    requires Holds(q) ==> HeldClaim(q) == |s.claims| && FateFits(q.phase, claim)
    ensures HoldersOk(s.ttl, SetEx(s.store, claim.key, IN_PROGRESS, s.now, s.ttl), s.requests[r := q],
                      s.claims + [claim], s.latest[claim.key := |s.claims|])
  {
    forall p | p in s.requests && p != r && Holds(s.requests[p])
      ensures HolderOk(s.ttl, SetEx(s.store, claim.key, IN_PROGRESS, s.now, s.ttl),
                       s.claims + [claim], s.latest[claim.key := |s.claims|], p, s.requests[p])
    {
      assert HolderOk(s.ttl, s.store, s.claims, s.latest, p, s.requests[p]);
      assert InTime(s.ttl, s.now, s.claims, s.requests[p]);
    }
  }

  lemma GuardedWin(ttl: nat, now: nat, store: Records, claims: seq<Claim>, latest: map<string, nat>, claim: Claim)
    requires ClaimsOk(now, claims, latest) && Guarded(ttl, now, store, claims, latest) && claim.at == now
    ensures Guarded(ttl, now, SetEx(store, claim.key, IN_PROGRESS, now, ttl), claims + [claim],
                    latest[claim.key := |claims|])
  {
    forall k | k in latest && k != claim.key
      ensures KeyGuarded(ttl, now, SetEx(store, claim.key, IN_PROGRESS, now, ttl), k, claims[latest[k]])
    {
      assert KeyGuarded(ttl, now, store, k, claims[latest[k]]);
    }
  }

  lemma RecordsOkWin(ttl: nat, now: nat, store: Records, claims: seq<Claim>, latest: map<string, nat>, claim: Claim)
    requires RecordsOk(ttl, store, claims, latest) && claim.at == now && !claim.fate.Released?
    ensures RecordsOk(ttl, SetEx(store, claim.key, IN_PROGRESS, now, ttl), claims + [claim],
                      latest[claim.key := |claims|])
  {}

  lemma RowsOkWin(rows: seq<TicketRow>, claims: seq<Claim>, claim: Claim)
    requires RowsOk(rows, claims) && ClaimRowOk(rows, |claims|, claim) && claim.row.None?
    ensures RowsOk(rows, claims + [claim])
  {}

  lemma AnswersOkWin(ttl: nat, requests: Requests, claims: seq<Claim>, claim: Claim)
    requires AnswersOk(ttl, requests, claims)
    ensures AnswersOk(ttl, requests, claims + [claim])
  {
    forall r | r in requests ensures AnswerOk(ttl, claims + [claim], requests[r]) {
      assert AnswerOk(ttl, claims, requests[r]);
    }
  }

  // ---- The fate or the row of a claim changes ----

  predicate SameClaim(a: Claim, b: Claim) {
    a.owner == b.owner && a.key == b.key && a.at == b.at
  }

  lemma ClaimsOkUpdate(now: nat, claims: seq<Claim>, latest: map<string, nat>, c: nat, claim: Claim)
    requires ClaimsOk(now, claims, latest) && c < |claims| && SameClaim(claims[c], claim)
    ensures ClaimsOk(now, claims[c := claim], latest)
  {}

  lemma ClaimsSpacedUpdate(ttl: nat, claims: seq<Claim>, c: nat, claim: Claim)
    requires ClaimsSpaced(ttl, claims) && c < |claims| && SameClaim(claims[c], claim)
    requires claims[c].fate.Released? ==> claim.fate.Released?
    ensures ClaimsSpaced(ttl, claims[c := claim])
  {
    var claims' := claims[c := claim];
    forall i, j | 0 <= i < j < |claims| && Close(ttl, claims'[i], claims'[j]) ensures claims'[i].fate.Released? {
      assert Close(ttl, claims[i], claims[j]);
    }
  }

  lemma GuardedUpdate(ttl: nat, now: nat, store: Records, claims: seq<Claim>, latest: map<string, nat>, c: nat,
                      claim: Claim)
    requires Guarded(ttl, now, store, claims, latest) && c < |claims| && SameClaim(claims[c], claim)
    requires claims[c].fate.Released? ==> claim.fate.Released?
    ensures Guarded(ttl, now, store, claims[c := claim], latest)
  {
    forall k | k in latest && latest[k] < |claims|
      ensures KeyGuarded(ttl, now, store, k, claims[c := claim][latest[k]])
    {
      assert KeyGuarded(ttl, now, store, k, claims[latest[k]]);
    }
  }

  lemma RecordsOkUpdate(ttl: nat, now: nat, store: Records, claims: seq<Claim>, latest: map<string, nat>, c: nat,
                        claim: Claim)
    requires ClaimsOk(now, claims, latest) && RecordsOk(ttl, store, claims, latest)
    requires c < |claims| && SameClaim(claims[c], claim)
    requires claim.key in store && latest[claim.key] == c ==> RecordOk(ttl, store[claim.key], claim)
    ensures RecordsOk(ttl, store, claims[c := claim], latest)
  {}

  lemma RowsOkUpdate(rows: seq<TicketRow>, claims: seq<Claim>, c: nat, claim: Claim)
    requires RowsOk(rows, claims) && c < |claims| && SameClaim(claims[c], claim) && claims[c].row == claim.row
    requires ClaimRowOk(rows, c, claim)
    ensures RowsOk(rows, claims[c := claim])
  {}

  lemma AnswersOkUpdate(ttl: nat, requests: Requests, claims: seq<Claim>, c: nat, claim: Claim)
    requires AnswersOk(ttl, requests, claims) && c < |claims| && SameClaim(claims[c], claim)
    requires claims[c].fate.Succeeded? ==> claim.fate == claims[c].fate
    ensures AnswersOk(ttl, requests, claims[c := claim])
  {
    forall r | r in requests ensures AnswerOk(ttl, claims[c := claim], requests[r]) {
      assert AnswerOk(ttl, claims, requests[r]);
    }
  }

  /** Only the owner of a claim can hold it, so marking a claim disturbs no other holder. */
  lemma HoldersOkUpdate(s: State, r: RequestId, q: Request, c: nat, claim: Claim)
    requires HoldersOk(s.ttl, s.store, s.requests, s.claims, s.latest)
    requires c < |s.claims| && SameClaim(s.claims[c], claim) && claim.owner == r
    requires Holds(q) ==> HolderOk(s.ttl, s.store, s.claims[c := claim], s.latest, r, q)
    ensures HoldersOk(s.ttl, s.store, s.requests[r := q], s.claims[c := claim], s.latest)
  {
    forall p | p in s.requests && p != r && Holds(s.requests[p])
      ensures HolderOk(s.ttl, s.store, s.claims[c := claim], s.latest, p, s.requests[p])
    {
      assert HolderOk(s.ttl, s.store, s.claims, s.latest, p, s.requests[p]);
    }
  }

  // ---- A request moves on ----

  lemma HoldersOkRequest(s: State, r: RequestId, q: Request)
    requires HoldersOk(s.ttl, s.store, s.requests, s.claims, s.latest)
    requires Holds(q) ==> HolderOk(s.ttl, s.store, s.claims, s.latest, r, q)
    ensures HoldersOk(s.ttl, s.store, s.requests[r := q], s.claims, s.latest)
  {}

  lemma AnswersOkRequest(ttl: nat, requests: Requests, claims: seq<Claim>, r: RequestId, q: Request)
    requires AnswersOk(ttl, requests, claims) && AnswerOk(ttl, claims, q)
    ensures AnswersOk(ttl, requests[r := q], claims)
  {}

  // ---- A holder writes its key ----

  predicate SameExceptAt(store: Records, store': Records, key: string) {
    store' - {key} == store - {key}
  }

  lemma SameExceptAtKeys(store: Records, store': Records, key: string, k: string)
    requires SameExceptAt(store, store', key) && k != key
    ensures (k in store <==> k in store') && (k in store ==> store'[k] == store[k])
  {
    assert k in store <==> k in store - {key};
    assert k in store' <==> k in store' - {key};
    if k in store {
      assert (store - {key})[k] == store[k] && (store' - {key})[k] == store'[k];
    }
  }

  /** The holder of a key is alone, so writing the key and finishing disturbs no other holder. */
  lemma HoldersOkSettle(s: State, r: RequestId, q: Request, store': Records)
    requires HoldersOk(s.ttl, s.store, s.requests, s.claims, s.latest)
    requires r in s.requests && Holds(s.requests[r]) && HeldClaim(s.requests[r]) < |s.claims|
    requires SameExceptAt(s.store, store', s.claims[HeldClaim(s.requests[r])].key) && !Holds(q)
    ensures HoldersOk(s.ttl, store', s.requests[r := q], s.claims, s.latest)
  {
    assert HolderOk(s.ttl, s.store, s.claims, s.latest, r, s.requests[r]);
    var key := s.claims[HeldClaim(s.requests[r])].key;
    forall p | p in s.requests && p != r && Holds(s.requests[p])
      ensures HolderOk(s.ttl, store', s.claims, s.latest, p, s.requests[p])
    {
      assert HolderOk(s.ttl, s.store, s.claims, s.latest, p, s.requests[p]);
      SameExceptAtKeys(s.store, store', key, s.claims[HeldClaim(s.requests[p])].key);
    }
  }

  lemma GuardedComplete(ttl: nat, now: nat, store: Records, claims: seq<Claim>, latest: map<string, nat>,
                        key: string, value: Record)
    requires ClaimsOk(now, claims, latest) && Guarded(ttl, now, store, claims, latest)
    ensures Guarded(ttl, now, SetEx(store, key, value, now, ttl), claims, latest)
  {
    forall k | k in latest && latest[k] < |claims|
      ensures KeyGuarded(ttl, now, SetEx(store, key, value, now, ttl), k, claims[latest[k]])
    {
      assert KeyGuarded(ttl, now, store, k, claims[latest[k]]);
    }
  }

  lemma RecordsOkComplete(ttl: nat, now: nat, store: Records, claims: seq<Claim>, latest: map<string, nat>,
                          c: nat, response: TicketResponse)
    requires ClaimsOk(now, claims, latest) && RecordsOk(ttl, store, claims, latest)
    requires c < |claims| && claims[c].fate == Succeeded(response) && latest[claims[c].key] == c
    requires now < claims[c].at + ttl
    ensures RecordsOk(ttl, SetEx(store, claims[c].key, Json(ModelDump(response)), now, ttl), claims, latest)
  {}

  lemma GuardedRelease(ttl: nat, now: nat, store: Records, claims: seq<Claim>, latest: map<string, nat>,
                       key: string, c: nat, claim: Claim)
    requires ClaimsOk(now, claims, latest) && Guarded(ttl, now, store, claims, latest)
    requires c < |claims| && SameClaim(claims[c], claim) && claim.key == key && latest[key] == c && claim.fate.Released?
    ensures Guarded(ttl, now, Delete(store, key), claims[c := claim], latest)
  {
    forall k | k in latest && latest[k] < |claims|
      ensures KeyGuarded(ttl, now, Delete(store, key), k, claims[c := claim][latest[k]])
    {
      assert KeyGuarded(ttl, now, store, k, claims[latest[k]]);
    }
  }

  lemma RecordsOkRelease(ttl: nat, now: nat, store: Records, claims: seq<Claim>, latest: map<string, nat>,
                         key: string, c: nat, claim: Claim)
    requires ClaimsOk(now, claims, latest) && RecordsOk(ttl, store, claims, latest)
    requires c < |claims| && SameClaim(claims[c], claim) && claim.key == key && latest[key] == c
    ensures RecordsOk(ttl, Delete(store, key), claims[c := claim], latest)
  {}

  // ---- Every step keeps the invariant ----

  lemma HolderFacts(s: State, r: RequestId)
    requires Inv(s) && r in s.requests && Holds(s.requests[r])
    ensures HolderOk(s.ttl, s.store, s.claims, s.latest, r, s.requests[r])
  {}

  lemma RequestStepKeepsInv(s: State, r: RequestId, q: Request)
    requires Inv(s) && AnswerOk(s.ttl, s.claims, q)
    requires Holds(q) ==> HolderOk(s.ttl, s.store, s.claims, s.latest, r, q)
    ensures Inv(s.(requests := s.requests[r := q]))
  {
    HoldersOkRequest(s, r, q);
    AnswersOkRequest(s.ttl, s.requests, s.claims, r, q);
  }

  lemma WinKeepsInv(s: State, r: RequestId, claim: Claim, q: Request)
    requires Inv(s) && Timely(s) && r in s.requests && !Live(s.store, claim.key, s.now)
    requires claim == Claim(r, claim.key, s.now, claim.fate, None) && (claim.fate.Orphaned? || claim.fate.Running?)
    requires q.key == Some(claim.key) && AnswerOk(s.ttl, s.claims + [claim], q)
    requires Holds(q) ==> HeldClaim(q) == |s.claims| && FateFits(q.phase, claim)
    ensures Inv(Claimed(s, r, claim.key, claim.fate).(requests := s.requests[r := q]))
  {
    ClaimsOkWin(s.now, s.claims, s.latest, claim);
    ClaimsSpacedWin(s.ttl, s.now, s.store, s.claims, s.latest, claim);
    HoldersOkWin(s, r, claim, q);
    GuardedWin(s.ttl, s.now, s.store, s.claims, s.latest, claim);
    RecordsOkWin(s.ttl, s.now, s.store, s.claims, s.latest, claim);
    RowsOkWin(s.rows, s.claims, claim);
    AnswersOkWin(s.ttl, s.requests, s.claims, claim);
    AnswersOkRequest(s.ttl, s.requests, s.claims + [claim], r, q);
  }

  lemma TryClaimKeepsInv(s: State, r: RequestId, delivery: Delivery)
    requires Inv(s) && Timely(s) && Enabled(s, TryClaim(r, delivery))
    ensures Inv(Apply(s, TryClaim(r, delivery)))
  {
    var key := s.requests[r].key.value;
    if delivery.Applied() && !Live(s.store, key, s.now) {
      var fate := if delivery.Raised() then Orphaned else Running;
      var phase := if delivery.Raised() then Finished(Unanswered(delivery)) else Executing(Some(|s.claims|), false);
      WinKeepsInv(s, r, Claim(r, key, s.now, fate, None), Request(Some(key), phase));
    } else {
      var phase := if delivery.Raised() then Finished(Unanswered(delivery)) else Reading;
      RequestStepKeepsInv(s, r, Request(Some(key), phase));
    }
  }

  lemma ReadExistingKeepsInv(s: State, r: RequestId, delivery: Delivery)
    requires Inv(s) && Enabled(s, ReadExisting(r, delivery))
    ensures Inv(Apply(s, ReadExisting(r, delivery)))
  {
    var key := s.requests[r].key.value;
    var outcome := if delivery.Raised() then Unanswered(delivery)
                   else OutcomeOfExisting(
                          Lookup(s.store, key, s.now), if key in s.latest then s.latest[key] else 0, s.now);
    ExistingAnswerIsOk(s, key);
    RequestStepKeepsInv(s, r, s.requests[r].(phase := Finished(outcome)));
  }

  /** What is found under a key answers a request for it rightly. */
  lemma ExistingAnswerIsOk(s: State, key: string)
    requires RecordsOk(s.ttl, s.store, s.claims, s.latest) && ClaimsOk(s.now, s.claims, s.latest)
    ensures var source := if key in s.latest then s.latest[key] else 0;
            AnswerOk(s.ttl, s.claims,
                     Request(Some(key), Finished(OutcomeOfExisting(Lookup(s.store, key, s.now), source, s.now))))
  {
    if Live(s.store, key, s.now) {
      var claim := s.claims[s.latest[key]];
      assert RecordOk(s.ttl, s.store[key], claim);
      if claim.fate.Succeeded? {
        ReplayIsFaithful(claim.fate.response);
      }
    }
  }

  lemma MarkKeepsInv(s: State, r: RequestId, q: Request, claim: Claim)
    requires Inv(s) && r in s.requests && Holds(s.requests[r])
    requires HeldClaim(s.requests[r]) < |s.claims| && SameClaim(s.claims[HeldClaim(s.requests[r])], claim)
    requires claim.row == s.claims[HeldClaim(s.requests[r])].row
    requires s.requests[r].phase.Executing? && Holds(q) && HeldClaim(q) == HeldClaim(s.requests[r])
    requires q.key == s.requests[r].key && !q.phase.Finished? && FateFits(q.phase, claim)
    requires claim.fate.FailedToExecute? || (claim.fate.Succeeded? && claim.row.Some?)
    ensures Inv(s.(claims := s.claims[HeldClaim(q) := claim], requests := s.requests[r := q]))
  {
    var c := HeldClaim(q);
    HolderFacts(s, r);
    ClaimsOkUpdate(s.now, s.claims, s.latest, c, claim);
    ClaimsSpacedUpdate(s.ttl, s.claims, c, claim);
    HoldersOkUpdate(s, r, q, c, claim);
    GuardedUpdate(s.ttl, s.now, s.store, s.claims, s.latest, c, claim);
    RecordsOkUpdate(s.ttl, s.now, s.store, s.claims, s.latest, c, claim);
    assert ClaimRowOk(s.rows, c, s.claims[c]);
    RowsOkUpdate(s.rows, s.claims, c, claim);
    AnswersOkUpdate(s.ttl, s.requests, s.claims, c, claim);
    AnswersOkRequest(s.ttl, s.requests, s.claims[c := claim], r, q);
  }

  /** An execution under claim `c` ends. */
  lemma MarkEndKeepsInv(s: State, r: RequestId, c: nat, fate: Fate, phase: Phase)
    requires Inv(s) && Executes(s, r) && s.requests[r].phase.claim == Some(c)
    requires (fate.FailedToExecute? && phase.Releasing? && phase.held == c)
             || (fate.Succeeded? && phase == Completing(c, fate.response) && s.requests[r].phase.committed)
    ensures Inv(Enter(SetFate(s, c, fate), r, phase))
  {
    HolderFacts(s, r);
    MarkKeepsInv(s, r, s.requests[r].(phase := phase), s.claims[c].(fate := fate));
  }

  lemma SuccessKeepsInv(s: State, r: RequestId, response: TicketResponse)
    requires Inv(s) && Enabled(s, ExecutionSucceeds(r, response))
    ensures Inv(Apply(s, ExecutionSucceeds(r, response)))
  {
    match s.requests[r].phase.claim
    case None =>
      RequestStepKeepsInv(s, r, s.requests[r].(phase := Finished(Created(response, None))));
    case Some(c) =>
      MarkEndKeepsInv(s, r, c, Succeeded(response), Completing(c, response));
  }

  lemma FailKeepsInv(s: State, r: RequestId, error: ExecutionError)
    requires Inv(s) && Executes(s, r)
    ensures Inv(Fail(s, r, error))
  {
    match s.requests[r].phase.claim
    case None =>
      RequestStepKeepsInv(s, r, s.requests[r].(phase := Finished(Failed(error))));
    case Some(c) =>
      MarkEndKeepsInv(s, r, c, FailedToExecute, Releasing(c, error));
  }

  lemma RowsOkCommit(rows: seq<TicketRow>, claims: seq<Claim>, c: nat, claim: Claim, row: TicketRow)
    requires RowsOk(rows, claims) && c < |claims| && SameClaim(claims[c], claim)
    requires claims[c].row == None && claim.row == Some(|rows|) && claim.fate == claims[c].fate && !claim.fate.Orphaned?
    requires row == TicketRow(claim.owner, Some(c), row.ticket)
    ensures RowsOk(rows + [row], claims[c := claim])
  {
    var rows', claims' := rows + [row], claims[c := claim];
    forall d | 0 <= d < |claims'| ensures ClaimRowOk(rows', d, claims'[d]) {
      assert ClaimRowOk(rows, d, claims[d]);
    }
  }

  lemma RowsOkKeyless(rows: seq<TicketRow>, claims: seq<Claim>, row: TicketRow)
    requires RowsOk(rows, claims) && row.claim.None?
    ensures RowsOk(rows + [row], claims)
  {
    forall d | 0 <= d < |claims| ensures ClaimRowOk(rows + [row], d, claims[d]) {
      assert ClaimRowOk(rows, d, claims[d]);
    }
  }

  lemma CommitKeepsInv(s: State, r: RequestId, ticket: Ticket)
    requires Inv(s) && Executes(s, r) && !s.requests[r].phase.committed
    ensures Inv(Commit(s, r, ticket))
  {
    var s' := Commit(s, r, ticket);
    var q := s'.requests[r];
    match q.phase.claim
    case None =>
      RequestStepKeepsInv(s, r, q);
      RowsOkKeyless(s.rows, s.claims, TicketRow(r, None, ticket));
    case Some(c) =>
      HolderFacts(s, r);
      var claim := s'.claims[c];
      ClaimsOkUpdate(s.now, s.claims, s.latest, c, claim);
      ClaimsSpacedUpdate(s.ttl, s.claims, c, claim);
      HoldersOkUpdate(s, r, q, c, claim);
      GuardedUpdate(s.ttl, s.now, s.store, s.claims, s.latest, c, claim);
      RecordsOkUpdate(s.ttl, s.now, s.store, s.claims, s.latest, c, claim);
      RowsOkCommit(s.rows, s.claims, c, claim, TicketRow(r, Some(c), ticket));
      AnswersOkUpdate(s.ttl, s.requests, s.claims, c, claim);
      AnswersOkRequest(s.ttl, s.requests, s.claims[c := claim], r, q);
  }

  lemma CommitTicketKeepsInv(s: State, r: RequestId, ticket: Ticket, delivery: Delivery)
    requires Inv(s) && Enabled(s, CommitTicket(r, ticket, delivery))
    ensures Inv(Apply(s, CommitTicket(r, ticket, delivery)))
  {
    if delivery.Applied() {
      CommitKeepsInv(s, r, ticket);
    }
    match delivery
    case Delivered =>
    case LostBefore => FailKeepsInv(s, r, DatabaseFailure);
    case LostAfter => FailKeepsInv(Commit(s, r, ticket), r, DatabaseFailure);
    case CutBefore => RequestStepKeepsInv(s, r, s.requests[r].(phase := Finished(Cancelled)));
    case CutAfter => RequestStepKeepsInv(Commit(s, r, ticket), r, s.requests[r].(phase := Finished(Cancelled)));
  }

  lemma OverwriteKeepsInv(s: State, r: RequestId, q: Request, c: nat, response: TicketResponse)
    requires Inv(s) && r in s.requests && Holds(s.requests[r]) && HeldClaim(s.requests[r]) == c < |s.claims|
    requires s.claims[c].key in s.latest && s.latest[s.claims[c].key] == c && s.claims[c].fate == Succeeded(response)
    requires s.now < s.claims[c].at + s.ttl && !Holds(q) && AnswerOk(s.ttl, s.claims, q)
    ensures Inv(s.(store := SetEx(s.store, s.claims[c].key, Json(ModelDump(response)), s.now, s.ttl),
                   requests := s.requests[r := q]))
  {
    var key := s.claims[c].key;
    var value := Json(ModelDump(response));
    assert SameExceptAt(s.store, SetEx(s.store, key, value, s.now, s.ttl), key);
    HoldersOkSettle(s, r, q, SetEx(s.store, key, value, s.now, s.ttl));
    GuardedComplete(s.ttl, s.now, s.store, s.claims, s.latest, key, value);
    RecordsOkComplete(s.ttl, s.now, s.store, s.claims, s.latest, c, response);
    AnswersOkRequest(s.ttl, s.requests, s.claims, r, q);
  }

  lemma CompleteKeepsInv(s: State, r: RequestId, delivery: Delivery)
    requires Inv(s) && Timely(s) && Enabled(s, Complete(r, delivery))
    ensures Inv(Apply(s, Complete(r, delivery)))
  {
    HolderFacts(s, r);
    var Completing(c, response) := s.requests[r].phase;
    var outcome := if delivery.Raised() then Unanswered(delivery) else Created(response, Some(c));
    var q := s.requests[r].(phase := Finished(outcome));
    if delivery.Applied() {
      assert InTime(s.ttl, s.now, s.claims, s.requests[r]);
      OverwriteKeepsInv(s, r, q, c, response);
    } else {
      RequestStepKeepsInv(s, r, q);
    }
  }

  lemma DeleteKeepsInv(s: State, r: RequestId, q: Request, c: nat)
    requires Inv(s) && r in s.requests && Holds(s.requests[r]) && HeldClaim(s.requests[r]) == c < |s.claims|
    requires s.claims[c].key in s.latest && s.latest[s.claims[c].key] == c && s.claims[c].owner == r
    requires s.claims[c].fate.FailedToExecute? && !Holds(q) && AnswerOk(s.ttl, s.claims, q)
    ensures Inv(SetFate(s, c, Released).(store := Delete(s.store, s.claims[c].key), requests := s.requests[r := q]))
  {
    var key := s.claims[c].key;
    var claim := s.claims[c].(fate := Released);
    assert SameExceptAt(s.store, Delete(s.store, key), key);
    HoldersOkSettle(s, r, q, Delete(s.store, key));
    HoldersOkUpdate(s.(store := Delete(s.store, key), requests := s.requests[r := q]), r, q, c, claim);
    assert s.requests[r := q][r := q] == s.requests[r := q];
    ClaimsOkUpdate(s.now, s.claims, s.latest, c, claim);
    ClaimsSpacedUpdate(s.ttl, s.claims, c, claim);
    GuardedRelease(s.ttl, s.now, s.store, s.claims, s.latest, key, c, claim);
    RecordsOkRelease(s.ttl, s.now, s.store, s.claims, s.latest, key, c, claim);
    assert ClaimRowOk(s.rows, c, s.claims[c]);
    RowsOkUpdate(s.rows, s.claims, c, claim);
    AnswersOkRequest(s.ttl, s.requests, s.claims, r, q);
    AnswersOkUpdate(s.ttl, s.requests[r := q], s.claims, c, claim);
  }

  lemma ReleaseKeepsInv(s: State, r: RequestId, delivery: Delivery)
    requires Inv(s) && Enabled(s, Release(r, delivery))
    ensures Inv(Apply(s, Release(r, delivery)))
  {
    HolderFacts(s, r);
    var Releasing(c, error) := s.requests[r].phase;
    var q := s.requests[r].(phase := Finished(if delivery.Cut() then Cancelled else Failed(error)));
    if delivery.Applied() {
      DeleteKeepsInv(s, r, q, c);
    } else {
      RequestStepKeepsInv(s, r, q);
    }
  }

  lemma TickKeepsInv(s: State, elapsed: nat)
    requires Inv(s)
    ensures Inv(Apply(s, Tick(elapsed)))
  {
    forall k | k in s.latest && s.latest[k] < |s.claims|
      ensures KeyGuarded(s.ttl, s.now + elapsed, s.store, k, s.claims[s.latest[k]])
    {
      assert KeyGuarded(s.ttl, s.now, s.store, k, s.claims[s.latest[k]]);
    }
  }

  lemma StepKeepsInv(s: State, e: Event)
    requires Inv(s) && Timely(s) && Enabled(s, e)
    ensures Inv(Apply(s, e))
  {
    match e
    case Tick(elapsed) => TickKeepsInv(s, elapsed);
    case Arrive(r, key) => RequestStepKeepsInv(s, r, Apply(s, e).requests[r]);
    case TryClaim(r, delivery) => TryClaimKeepsInv(s, r, delivery);
    case ReadExisting(r, delivery) => ReadExistingKeepsInv(s, r, delivery);
    case CommitTicket(r, ticket, delivery) => CommitTicketKeepsInv(s, r, ticket, delivery);
    case ExecutionSucceeds(r, response) => SuccessKeepsInv(s, r, response);
    case ExecutionFails(r, error) => FailKeepsInv(s, r, error);
    case Complete(r, delivery) => CompleteKeepsInv(s, r, delivery);
    case Release(r, delivery) => ReleaseKeepsInv(s, r, delivery);
    case Cancel(r) => RequestStepKeepsInv(s, r, Apply(s, e).requests[r]);
  }
}
