# SupportOps AI: verified core

A Dafny model of the parts of SupportOps AI whose correctness is not visible in any one function:
the idempotent creation of tickets, the cache-aside lookups over normalized text, the policy
scanner, the resources bound to event loops, the checkpointed workflow, and the supervisor queue.
`dafny verify dfyconfig.toml` checks everything.

## How the model is built

**Concurrency.** Each protocol is a step system: a `State`, the `Event`s that can happen, `Enabled`
and `Apply`. Theorems speak about every run, that is, every sequence of enabled events, with any
number of participants, crashes at any point and time passing at any point. Beside each step
system stands the code in its own form: classes and methods that change a shared `World`, where
`Interleave` lets the other participants take any number of steps at every await or thread switch.
The contracts of those methods tie what one call does to events of the step system, so the
theorems about runs apply to the code in any surroundings.

**Redis.** A store is a map from keys to values with an expiry. Each command takes effect at most
once; whether it did or not, its caller may see a Redis error, or be cut off before it sees anything
(`TtlStore.Delivery`). Cached values may vanish at any time or be of the wrong kind.

**Outside the model's knowledge.** The model behind the classifier and the agents, whether its clients
can be built, a failing search or database, and the clock are arbitrary choices. For the workflow, the
classifier's answer is such a choice as well, and so is its raising; `ClassifyTicket` says when it raises. SHA-256 is an injective function. `float()` is a
monotone rounding of the exact decimal value. Text is `seq<char>` with Python's whitespace and
ASCII case.

| file | content |
|---|---|
| `Options.dfy`, `TtlStore.dfy`, `Text.dfy`, `Regex.dfy`, `StableSort.dfy` | shared notions: optional values, Redis, text scanning, Python's backtracking regular expressions, `sorted` |
| `TicketResponse.dfy`, `IdempotencyProtocol.dfy`, `IdempotencySafety.dfy`, `IdempotencyReplays.dfy`, `TicketService.dfy` | idempotent ticket creation |
| `CacheKeys.dfy`, `CacheAside.dfy`, `RedisCache.dfy`, `KnowledgeArticles.dfy`, `KnowledgeSearch.dfy`, `KnowledgeBase.dfy`, `Classifier.dfy` | normalized text, cache keys, ranking, and the two caches |
| `PolicyRules.dfy`, `PolicyMeaning.dfy` | the policy scanner, and what its amounts and rules mean |
| `BackgroundLoop.dfy`, `LoopRegistry.dfy` | the background loop and the registries per loop |
| `WorkflowState.dfy`, `Agents.dfy`, `Workflow.dfy`, `WorkflowRuns.dfy`, `WorkflowSafety.dfy`, `WorkflowExecution.dfy` | the workflow and its checkpoints |
| `ApprovalQueue.dfy`, `ApprovalRepository.dfy` | the supervisor queue |

## Findings

- The docstring of `backend/services/idempotency.py` (lines 3-6) promises at-most-once execution per
  key. Two conditions bound that.
  - *One at a time.* `complete` and `release` do not check that the key is still theirs, and a mark
    expires while its owner works. In every run, no key ever has two holders if and only if Redis never
    grants a key that somebody still holds (`ExclusionBreaksExactly`). As long as nobody outlives the
    time to live of its claim that does not happen (`AtMostOneHolder`). In every run, however late, the
    first holder to lose its key is one that has outlived its claim (`OnlyOverdueHoldersLoseTheirKey`).
    Replays stay faithful even then (`ReplayFidelity`). `OverrunExecutesTwice` is a run in which one key
    gets two tickets although nothing failed.
  - *One ticket.* Even when nobody outlives a claim, a commit puts a second ticket under its key within a
    time to live if and only if an earlier execution failed after its ticket was committed and released
    the key (`SecondRowExactly`). A call fails like that exactly when its commit takes effect with its
    answer lost, or when after an answered commit the workflow is not started or raises
    (`ExecuteUnderClaim`, `CreateTicket`). `LostCommitMakesTwoTickets` and `RaisingMakesTwoTickets` are
    such runs, one for each way; without any such call a key gets one ticket (`TimelyWorldIsSafe`).
- The docstrings of `backend/graph/nodes.py` (lines 22-24), `backend/graph/classifier.py` (lines 12-15)
  and `backend/agents/base.py` (line 108) say that these never raise. They do: the two `run_sync` calls
  and the client of `classify_ticket` (lines 92, 103 and 136) and the construction of the agent, its task
  and its crew (lines 90-105 and 111-122) stand outside any `try`. `ClassifyTicket` raises exactly when its lookup is
  cut off, when after a miss no client can be built, or when the write of the model's answer is cut off;
  `Respond` exactly when something cannot be built; and the workflow exactly when one of these does
  (`Invoke`). Such a ticket stays in the table with no response and no review item
  (`RaisingTicketsAreNeverEscalated`), its key is released, and a retry can make a second one.
- `build_cache_key` joins its parts with colons. Two first parts never share a join exactly when neither,
  followed by a colon, is a prefix of the other (`JoinsCollideExactly`). With normalized texts as second
  parts, two categories share a key for different lookups exactly when one of them is the other, a colon
  and a rest such that this rest followed by another colon is in normal form (`LookupsCollideExactly`);
  so "a" and "a:x " collide, although "x " is not in normal form. The categories the agents pass contain
  no colon, and then `KeysAgreeExactly` holds.
- `ApprovalRequestRepository.decide` accepts any status. The queue's invariant survives exactly when the
  status is not PENDING (`DecideStaysConsistentExactly`), as with the two routes. The routes do not look
  at the current status, so a decision is not final: it stands exactly as long as no later approval or
  rejection addresses the same request and says otherwise (`DecisionStandsExactly`).
- A loop-bound client handed to an operation on another loop is used there unnoticed; that is the only
  way in which loop affinity can fail (`AffinityBreaksExactly`).

## Model

| member | source | states |
|---|---|---|
| IdempotencySafety.AtMostOneHolder | backend/services/idempotency.py:55-117 | in every run in which nobody outlives the time to live of a claim, whatever crashes, is cancelled or is answered by a lossy Redis, at most one request per key is between its claim and its completion or release |
| IdempotencySafety.ExclusionBreaksExactly | backend/services/idempotency.py:64-117 | in every run, timely or not, no key ever has two holders if and only if Redis never grants a key that some request still holds |
| IdempotencySafety.OnlyOverdueHoldersLoseTheirKey | backend/services/idempotency.py:64-75 | after every run in which no key ever had two holders, whatever was late in it, an answered claim is granted a held key if and only if the key has run out and a holder of it has outlived its claim |
| IdempotencySafety.OverrunExecutesTwice | backend/services/idempotency.py:3-20 | a concrete run without the time bound in which two requests execute at once under one key and the key gets two ticket rows, nothing having failed |
| IdempotencySafety.ReclaimOnlyAfterRelease | backend/services/ticket.py:87-91 | two claims of one key less than a time to live apart mean that the earlier execution failed and was released |
| IdempotencySafety.NoReclaimAfterSuccess | backend/services/ticket.py:77-94 | once an execution under a key has succeeded, the key is not claimed again until a time to live after that execution's claim |
| IdempotencySafety.ReplayFidelity | backend/services/ticket.py:77-94 | in every run, timely or not, every replayed response is, in every field but the replay mark, the response that a successful execution under the same key produced, and no request ever ends with an invalid record |
| IdempotencySafety.ReplaysAreRecent | backend/services/ticket.py:77-94 | in a timely run a replay moreover repeats the claim that its source names, and is given less than two times to live after that claim |
| IdempotencySafety.ReplaysAgree | backend/services/ticket.py:77-85 | two replays under one key agree unless the executions behind them were claimed at least a time to live apart |
| IdempotencyReplays.RetryGetsTheResponse | backend/services/ticket.py:77-94 | if nobody outlived a claim up to a completion that took effect, a request on the same key whose read is answered less than a time to live later ends with the completed response, marked as a replay |
| IdempotencyReplays.CompletedKeyIsReplayed | backend/services/idempotency.py:64-106 | once a completion has taken effect while nobody else held the key, then for a time to live, whatever else happens, late or not, every answered claim of the key has to read it and every answered read is told the completed response |
| IdempotencyReplays.HeldKeyIsInProgress | backend/services/idempotency.py:64-95 | while a request that is in time holds a key, an answered claim of the key has to read it and an answered read is told that the creation is in progress |
| IdempotencyReplays.LostClaimBlocksItsKey | backend/services/idempotency.py:64-95 | a claim that takes effect while its caller sees an error or is cut off blocks the key for a full time to live, whatever else happens: answered claims have to read it, and answered reads are told that the creation is in progress |
| IdempotencyReplays.ReadsAreAnsweredExactly | backend/services/ticket.py:77-85 | in every run an answered read is told a stored response if one is live under the key, and otherwise, without a record or with the sentinel, that the creation is in progress |
| IdempotencyReplays.TableHoldsTheCommitted | backend/services/ticket.py:109-117 | in every run the table holds exactly the tickets whose commits took effect, with the fields they were given |
| TicketResponses.ReplayIsFaithful | backend/schemas/ticket.py:28-44 | no stored response can be taken for the in-progress sentinel, and storing and replaying a response changes only the replay mark |
| IdempotencySafety.TicketConservation | backend/services/ticket.py:104-139 | within one time to live a key gets at most one ticket row more than it had executions that failed after their commit |
| IdempotencySafety.SecondRowExactly | backend/services/ticket.py:87-94 | in a timely run a commit puts a second row under its key within a time to live if and only if an earlier execution there failed after its commit and was released |
| IdempotencySafety.AtMostOneRow | backend/services/ticket.py:104-139 | in a timely run in which no execution fails after its commit, a key gets at most one row per time to live |
| IdempotencySafety.LostCommitMakesTwoTickets | backend/services/ticket.py:87-117 | a concrete timely run in which no workflow raises, a commit takes effect, is reported as an error, and a retry makes a second ticket |
| IdempotencySafety.RaisingMakesTwoTickets | backend/services/ticket.py:87-139 | a concrete timely run in which every commit's answer arrives, the first workflow raises, and a retry makes a second ticket |
| IdempotencySafety.ExecutionsPairWithClaims | backend/services/ticket.py:77-94 | in every run, timely or not, no request claims twice, a keyed request executes, completes or releases only under a claim of its own, no request gets two rows, and no two rows share a claim |
| IdempotencySafety.NoKeyIsStuck | backend/services/idempotency.py:64-75 | in every run, timely or not, an in-progress mark expires a time to live after the claim that made it, and after waiting that long any request's answered claim on any key wins |
| IdempotencySafety.NextClaimAfterReleaseWins | backend/services/idempotency.py:108-117 | after a failed execution whose release took effect, in every timely continuation in which no claim on the key has taken effect yet, whoever asks for it and is answered wins |
| TicketService.IdempotencyStore.ClaimOrGetExisting | backend/services/idempotency.py:55-95 | wins exactly when Redis grants the key; otherwise gives exactly what was stored under the key when the read was answered, or the sentinel if nothing live and well-formed was, and an error or a cancellation exactly when a command went wrong; the request is finished with the outcome that calls for |
| TicketService.IdempotencyStore.Complete | backend/services/idempotency.py:97-106 | one write of the response under the key; an error or a cancellation is reported whether or not the write took effect |
| TicketService.IdempotencyStore.Release | backend/services/idempotency.py:108-117 | one delete of the key; an error is swallowed and the caller sees the failure that led here, unless it is cancelled at the delete |
| TicketService.Execute | backend/services/ticket.py:97-155 | what InsertTicket says, the committed row carrying the payload's customer, subject and description; the workflow runs only after the commit; an answered commit leads to the response due, to an error or to a cancellation, each exactly when the surroundings say so; and the call fails with its ticket in the table exactly when the commit's answer is lost or the workflow is not started or raises |
| TicketService.InsertTicket | backend/services/ticket.py:104-126 | every look at the customers is for the payload's customer; the ticket is committed only if that customer was there at both looks; and success, CustomerNotFound, a database error and a cancellation, before or at the commit, each occur exactly when the looks and the surroundings say so |
| TicketService.AnswerTicket | backend/services/ticket.py:128-155 | the response is the one due if the classifier answers and the agent can be built, with one review item attempted if it requires review, which reaches the queue if its transaction commits, and none otherwise; if not, it raises, and the supervisor's queue is as it was |
| TicketService.ExecuteUnderClaim | backend/services/ticket.py:87-94 | an error, before or after the commit, releases the claim and is raised again, cancellation leaves the claim, an answer is stored and returned; a created response is the one due; and the execution fails with its ticket in the table exactly when it commits in surroundings that make it fail then |
| TicketService.CreateTicket | backend/services/ticket.py:59-94 | in any surroundings, raising workflows included, a call's own events are exactly those of its story, the outcome it reports is the one recorded, all its looks are for the payload's customer, a committed row carries the payload, it fails with its ticket in the table exactly when it commits in surroundings that make it fail then, and a response it creates is the one due: of the payload's customer, served by the agent that bears the category's name, with exactly the rules of subject and description, and not marked as a replay |
| TicketService.TimelyWorldIsSafe | backend/services/ticket.py:59-155 | after any calls of create_ticket of which none outlived a claim, no key has two holders, and a key has a second ticket within a time to live only if some call failed with its ticket in the table |
| TicketService.QuietWorldNeedsALostCommit | backend/services/ticket.py:59-155 | if moreover no error is raised after an answered commit, a second ticket takes a commit that took effect with its answer lost |
| CacheKeys.NormalizeIdentifiesExactlySameWords | backend/core/cache.py:32-35 | two texts normalize alike if and only if they have the same whitespace-separated words up to case |
| CacheKeys.NormalizeIdempotent | backend/core/cache.py:32-35 | normalizing a normal form changes nothing |
| CacheKeys.NormalFormIsTidy | backend/core/cache.py:32-35 | a normal form has no leading, trailing or doubled whitespace, no whitespace but single spaces, and no capitals |
| Text.LowerByLetter | backend/core/cache.py:32-35 | lower-casing turns each ASCII capital into its own small letter and leaves other characters alone |
| CacheKeys.NormalFormsAreFixed | backend/core/cache.py:32-35 | a text is left as it is by normalization if and only if it has no capitals and no whitespace but single inner blanks |
| CacheKeys.NormalizeKeepsSegments | backend/core/cache.py:32-35 | no scanner blind to whitespace and case can tell a text from its normal form |
| CacheKeys.JoinIsInjective | backend/core/cache.py:49-50 | the colon-join of two parts can be taken apart when the first part has no colon |
| CacheKeys.JoinsCollideExactly | backend/core/cache.py:49-50 | for all first parts: no two joins starting with them collide if and only if neither, followed by a colon, is a prefix of the other |
| CacheKeys.LookupsCollideExactly | backend/core/cache.py:38-50 | for all categories: their lookups share a key only for one category and the same words, if and only if neither category is the other, a colon and a rest that followed by another colon is in normal form |
| CacheKeys.ColonsCollide | backend/core/cache.py:49-50 | a concrete pair of different parts with the same key, the first part containing a colon |
| CacheKeys.KeysAgreeExactly | backend/core/cache.py:38-50 | two lookups share a key if and only if they agree on prefix, category and words up to case |
| Regex.FindAllGivesSegments | backend/database/repositories/knowledge_article.py:20-26 | the backtracking matcher's findall over a character class lists exactly the maximal runs of the class |
| Text.MaximalRunIsSegment | backend/database/repositories/knowledge_article.py:20-26 | every maximal run of the class in a text is one of the segments that findall lists |
| Text.SegmentIsMaximalRun | backend/database/repositories/knowledge_article.py:20-26 | every segment that findall lists is a maximal run of the class in the text |
| KnowledgeArticles.KeywordsOfNormalForm | backend/database/repositories/knowledge_article.py:24-26 | the keywords of a normalized text are the keywords of the text, for every text |
| KnowledgeSearch.KeywordsAreTheWords | backend/database/repositories/knowledge_article.py:20-26 | the keywords of a text are exactly the maximal runs of letters and apostrophes, three characters or longer, in its lower-case form |
| KnowledgeSearch.OverlapCountsSharedWords | backend/database/repositories/knowledge_article.py:43-45 | an article's score is the number of the query's keywords that are keywords of its title or of its content |
| KnowledgeSearch.SearchFindsTheBest | backend/database/repositories/knowledge_article.py:29-70 | the results are rows of the table with the category asked for, as many as there are up to the limit; each comes before all later ones and all rows of the category left out, by overlap, then by later creation, then by place in the table |
| KnowledgeArticles.SharedKeySameSearch | backend/tools/knowledge_base.py:57-93 | two lookups that share a cache key get the same articles from the same table |
| KnowledgeArticles.RankingIsStableTopK | backend/database/repositories/knowledge_article.py:29-50 | an article is returned, at its place in the order by descending overlap with ties in incoming order, exactly when that place is within the limit, and every returned article beats or ties every omitted one |
| KnowledgeArticles.FallbackAgreesWithRanking | backend/database/repositories/knowledge_article.py:47-50 | the branch for no overlap returns what the general branch would have returned |
| KnowledgeArticles.NewArticleEvictsAtMostOne | backend/database/repositories/knowledge_article.py:29-50 | inserting one article anywhere removes at most the last result and keeps the order of the others |
| StableSort.SortPutsEachAtItsPosition | backend/database/repositories/knowledge_article.py:47-47 | the stable sort puts each element after all better ones and all earlier ties, and nowhere else |
| StableSort.PositionsAreOrdered | backend/database/repositories/knowledge_article.py:47-47 | those places are ordered by score and then by incoming order, so they never coincide |
| KnowledgeBase.BoundedStaleness | backend/tools/knowledge_base.py:57-86 | in every run with concurrent calls, table updates and cache failures, a call that does not raise answers with the unavailable message of a search that failed in this call, with what an uncached search answers on the table state this call searched, or with what it answers on the table state that the call which wrote the cache entry had searched, less than the time to live plus that call's search-to-set delay ago |
| KnowledgeBase.AnswerListsTheBestThree | backend/tools/knowledge_base.py:65-93 | an uncached answer is the message for no results exactly when the category has no row, and otherwise title and content of the best three rows or fewer, one paragraph each |
| KnowledgeBase.QueriesShareExactly | backend/tools/knowledge_base.py:57-60 | two queries share a cache entry if and only if they are in one category and have the same words up to case |
| KnowledgeBase.KnowledgeBaseSearchTool.Run | backend/tools/knowledge_base.py:57-86 | one lookup, a search exactly when that gives no text, a cache write exactly when the search succeeded, and the recorded answer returned; it raises exactly when the lookup or the write is cut off, never because the search failed |
| KnowledgeBase.KnowledgeBaseSearchTool.SearchAndCache | backend/tools/knowledge_base.py:65-86 | a failed search is reported and never cached; a result, empty or not, is rendered, cached and returned, unless the write is cut off |
| RedisCaches.RedisCache.Get | backend/core/cache.py:65-80 | gives exactly the entry that is live at that moment when Redis answers; a miss, an expired entry and a failed read all look like nothing; only a read that is cut off raises |
| RedisCaches.RedisCache.Set | backend/core/cache.py:82-91 | writes the computed value with the time to live, or leaves the store as it was; only a write that is cut off raises |
| CacheAside.StoredResultIsFoundAgain | backend/core/cache.py:65-91 | a result whose write took effect answers every answered lookup with the same key less than a time to live later, as long as nothing removes, spoils or rewrites the entry |
| Classifier.ClassificationProvenance | backend/graph/classifier.py:82-137 | in every run a category read from the cache is the parsed value of a successful model answer for a text with the same words up to case, cached less than a time to live ago, and nothing else of its kind is ever stored |
| Classifier.CachesAreApart | backend/core/cache.py:38-50 | the classification cache and the knowledge cache share no key |
| Classifier.ClassifyTicket | backend/graph/classifier.py:82-137 | a hit whose value parses returns that category without asking; otherwise the model's answer is returned and its value cached, or GENERAL is returned and nothing is cached; it raises exactly when the lookup is cut off, when after a miss no client can be built, or when the write of the model's answer is cut off |
| WorkflowStates.CategoryRoundTrip | backend/graph/classifier.py:93-101 | a stored category value reads back as that category, and no other string does |
| PolicyRules.DollarPatternMatches | backend/policy/rules.py:44-44 | the matcher accepts exactly where a dollar sign, at most one whitespace and a digit stand, and captures the longest amount there |
| PolicyRules.FindIterListsTheAmounts | backend/policy/rules.py:82-82 | left-to-right matching yields one match for each place where the pattern fits, in order and disjoint, and no others |
| PolicyRules.AmountIsNumeral | backend/policy/rules.py:83-83 | what is captured is, without its commas, a numeral that `float()` accepts |
| PolicyRules.HasAmountOverThreshold | backend/policy/rules.py:80-86 | true if and only if the rounded comma-stripped value of some dollar amount in the text exceeds the threshold |
| PolicyMeaning.DigitsRoundTrip | backend/policy/rules.py:83-83 | the decimal representation of a number is a numeral, and is read as that number |
| PolicyMeaning.PointRoundTrip | backend/policy/rules.py:83-83 | a numeral with a point is read as its whole part plus the number its further digits write over a power of ten |
| PolicyMeaning.OneAmountDecides | backend/policy/rules.py:80-86 | a text that announces one amount, commas and fraction included, is reported if and only if what `float()` makes of the amount's worth is more than 500 |
| PolicyMeaning.WholeDollarsDecide | backend/policy/rules.py:80-86 | with a `float()` exact on whole dollars, a text whose only amount is the decimal representation of n is reported if and only if n > 500 |
| PolicyRules.ThresholdUpToRounding | backend/policy/rules.py:83-85 | with a rounding exact at 500 and at some next value, a reported text mentions more than 500 and a text mentioning the next value or more is reported |
| PolicyRules.AmountGrows | backend/policy/rules.py:44-44 | text appended to a text can extend an amount in it but only raise its value |
| PolicyRules.MatchedKeywordRules | backend/policy/rules.py:67-77 | returns exactly the text rules that fire, in their fixed order |
| PolicyRules.EvaluatePolicy | backend/policy/rules.py:96-137 | reports exactly the rules that fire, in their fixed order, and requires review if and only if some rule fires |
| PolicyMeaning.RulesInPlainWords | backend/policy/rules.py:67-131 | the rules reported are those of the seven words that occur in the lower-case text, of an amount over the threshold beside the word refund, of a confidence below 0.7, and of an unresolved agent, and no others |
| PolicyMeaning.ReasonNamesTheRules | backend/policy/rules.py:89-93 | the reason names every rule that fired, or says that none did |
| PolicyRules.SurroundingTextNeverSuppresses | backend/policy/rules.py:67-86 | for every text before and every text after, each rule that fires on a text still fires |
| PolicyRules.JoinedTextKeepsBothPartsRules | backend/policy/rules.py:67-86 | the rules matched on a joined text include those matched on either part |
| BackgroundLoop.OneLoopForAll | backend/core/asyncio_utils.py:45-69 | for any number of threads interleaving at single reads and writes, at most one loop is started, no call returns None, and all calls return the same loop |
| BackgroundLoop.LazyBackgroundLoop.Get | backend/core/asyncio_utils.py:64-69 | returns the loop that is set from then on, the one set before if there was one; it fails only when it had to start a loop and could not |
| BackgroundLoop.RunSync | backend/core/asyncio_utils.py:75-101 | with the background loop in hand, submits there unless the caller runs on it, and then refuses; it has no loop only while another thread holds the lock or when starting one failed |
| LoopRegistry.LoopAffinity | backend/core/redis_client.py:47-70 | in every run in which operations resolve their resource themselves, no resource is registered under two loops, each is used only on the loop it was built on, and all operations of one loop, at whatever two moments, use one resource |
| LoopRegistry.AffinityBreaksExactly | backend/core/asyncio_utils.py:75-101 | in every run, whoever resolves resources, each is always used only on the loop it was built on if and only if no operation is ever handed one built on another loop |
| LoopRegistry.Registry.GetOrCreate | backend/database/session.py:60-76 | returns the loop's registered resource, building and registering one only if there was none |
| Agents.Respond | backend/agents/base.py:89-174 | it raises if and only if something cannot be built; resolved if and only if the generation was structured and says so itself; an error is reported if and only if the generation raised; the reply is the model's text or the fallback, with the retrieved context or none |
| Workflow.EvaluateConfidence | backend/graph/nodes.py:208-240 | review is required if and only if some rule fires on the ticket text and the agent's report, and nothing but score, flag and rules is written |
| Workflow.AgentBearsCategoryName | backend/graph/nodes.py:124-130 | each category is served by the agent that bears its name |
| Workflow.BuildWorkflow | backend/graph/workflow.py:40-63 | the compiled graph leads from START through the six nodes, each bound to its name and in its place, to END and no further |
| WorkflowSafety.CheckpointsNameCompletedStages | backend/graph/checkpoint.py:71-114 | at every moment of every run a stored checkpoint names a completed stage, holds that node's own update, agrees with the run's current state, and expires one time to live after its save |
| WorkflowSafety.CheckpointLagsByAtMostThePendingSave | backend/graph/nodes.py:86-113 | with no lost save and no expiry, reading the checkpoint gives the last completed stage, or the one before while its save is under way, at every moment and after every crash |
| WorkflowSafety.StagesOnlyAdvance | backend/graph/workflow.py:55-61 | between any two moments of a run a ticket's stored stage only moves forward in graph order |
| WorkflowSafety.CheckpointsDoNotInterfere | backend/graph/nodes.py:96-113 | replacing the fate of every save leaves the same steps possible and the same workflow states and review items |
| WorkflowSafety.EscalationEndToEnd | backend/graph/nodes.py:208-295 | every finished ticket's classifier answered and its agent could be built; the response names the agent of its category and is not marked as a replay; review is required iff its rule list is non-empty, a failed, malformed or unresolved generation always requires it, and exactly one review item is attempted if it is, none otherwise, with the draft, agent and rules of the response |
| WorkflowSafety.RaisingTicketsAreNeverEscalated | backend/graph/nodes.py:96-113 | in every run a ticket whose classifier raises or whose agent cannot be built is never completed, its review flag and rules are never set, and no review item is ever attempted for it |
| WorkflowSafety.RaisesExactlyAtItsReach | backend/graph/nodes.py:96-113 | at every moment of every run, a ticket about to begin a node raises there exactly when it has come as far as its classifier and its agent let it, and otherwise executes it |
| WorkflowSafety.NoItemBeforeTheEnd | backend/graph/nodes.py:243-256 | a ticket whose last node has not run has attempted no review item, whatever happened before |
| WorkflowSafety.LastNodes | backend/graph/nodes.py:142-256 | when no node raises, the six partial updates in graph order amount to the order-free outcome, with the defaults never needed |
| WorkflowSafety.SubjectAndDescriptionBothCount | backend/services/ticket.py:128-133 | every rule that the subject or the description fires on its own is among the ticket's rules |
| WorkflowExecution.WorkflowCheckpointStore.Save | backend/graph/checkpoint.py:71-86 | writes the stage's snapshot with its expiry, or leaves the store exactly as it was, and raises only if it is cut off |
| WorkflowExecution.WorkflowCheckpointStore.GetLatest | backend/graph/checkpoint.py:88-114 | returns nothing when Redis fails and otherwise exactly the live checkpoint, which names a stage the run has completed, with what its node returned |
| WorkflowExecution.RunCheckpointed | backend/graph/nodes.py:96-113 | raises exactly when the node does, with nothing saved; otherwise returns the node's own update, with the run advanced by that node, whatever becomes of the checkpoint |
| WorkflowExecution.PersistResults | backend/graph/nodes.py:243-295 | one attempt at a review item when review is required, none otherwise; the attempt adds exactly one pending request to the queue if its transaction commits, and silently nothing if not |
| WorkflowExecution.Invoke | backend/services/ticket.py:139-139 | following the graph's edges, in any surroundings, returns exactly when the classifier answers and the agent can be built, and then ends in the order-free outcome, served by the agent that bears the category's name, with the review attempts of the run, which reach the queue if their transaction commits; otherwise raises at the first node that cannot return, with the state of the nodes before it and no review item |
| ApprovalQueue.PendingIffUndecided | backend/database/repositories/approval_request.py:78-92 | after every sequence of creations, approvals, edits and rejections a request is pending iff it has no reviewer and iff it has no decision time |
| ApprovalQueue.RequestsCarryTheLastDecision | backend/database/repositories/approval_request.py:78-92 | after every sequence of operations a decided request carries the verdict, the reviewer, the comments and the time of the last approval or rejection that addressed it, and a pending one was never decided |
| ApprovalQueue.RequestsKeepWhatTheyWereCreatedWith | backend/database/repositories/approval_request.py:29-54 | a creation adds one pending request with the item given, and for ever after it keeps its ticket, context, agent, rules and time |
| ApprovalQueue.DecideStaysConsistentExactly | backend/database/repositories/approval_request.py:78-92 | `decide` keeps that invariant if and only if the status it is given is not PENDING |
| ApprovalQueue.DecidedStaysDecided | backend/api/supervisor.py:123-209 | between any two moments no request is lost, reordered or changed beyond draft and decision, and a decided one is never pending again |
| ApprovalQueue.DecisionChangesExactly | backend/api/supervisor.py:123-209 | an operation changes the decision of a decided request if and only if it is an approval or rejection that addresses this request and says otherwise |
| ApprovalQueue.DecisionStandsExactly | backend/api/supervisor.py:123-209 | over every sequence of operations a decision stands if and only if no later operation overturns it |
| ApprovalQueue.DecisionsCanBeOverturned | backend/api/supervisor.py:181-202 | a rejected request can still be approved |
| ApprovalQueue.EditsChangeOnlyTheDraft | backend/database/repositories/approval_request.py:94-105 | an edit changes the draft of the addressed request and nothing else in the table |
| ApprovalQueue.MostRecentIsNewest | backend/database/repositories/approval_request.py:67-76 | finds a request iff the ticket has one, and then one that none of the ticket's requests is newer than |
| ApprovalQueue.PendingListIsTheUndecided | backend/database/repositories/approval_request.py:56-65 | after every sequence of operations the listing holds exactly the requests without reviewer and decision time, each once, in the order of `requested_at` |
| ApprovalRepository.ApprovalRequestRepository.CreatePending | backend/database/repositories/approval_request.py:29-54 | appends one pending record with the given content |
| ApprovalRepository.ApprovalRequestRepository.ListPending | backend/database/repositories/approval_request.py:56-65 | returns the stored records selected by the listing, in its order |
| ApprovalRepository.ApprovalRequestRepository.GetByTicketId | backend/database/repositories/approval_request.py:67-76 | returns the stored record of the ticket's most recent request, if there is one |
| ApprovalRepository.ApprovalRequestRepository.Decide | backend/database/repositories/approval_request.py:78-92 | assigns the decision of one record and leaves every other row as it was |
| ApprovalRepository.ApprovalRequestRepository.UpdateDraft | backend/database/repositories/approval_request.py:94-105 | assigns the draft of one record and leaves everything else as it was |
| ApprovalRepository.SupervisorQueue.ApproveTicket | backend/api/supervisor.py:123-151 | approves the ticket's most recent request, or reports that there is none and changes nothing |
| ApprovalRepository.SupervisorQueue.RejectTicket | backend/api/supervisor.py:181-209 | rejects the ticket's most recent request, or reports that there is none and changes nothing |
| ApprovalRepository.SupervisorQueue.EditDraft | backend/api/supervisor.py:154-178 | edits the ticket's most recent request, or reports that there is none and changes nothing |
| ApprovalRepository.SupervisorQueue.ListQueue | backend/api/supervisor.py:92-101 | lists exactly the requests without a decision time |

## Left out

- FastAPI routes, dependencies, JWT, bcrypt, OAuth2, rate limiting, settings, logging, audit events, seed data and scripts: wrappers over libraries, or input and output only.
- CrewAI, OpenAI and LangGraph internals: their results are arbitrary choices, and a compiled graph is a map from each node to its successor.
- SQLAlchemy sessions, pools and migrations: a transaction is one atomic step and a select is ordered. Two transactions that change columns of the same approval row at once are not modelled.
- SHA-256 collisions, JSON text syntax and UUID formats: the digest is injective, JSON values are stored as values, and identifiers are strings; a ticket identifier is used for one run only.
- Client-side Redis retries that could apply one command twice, and eviction of unexpired idempotency keys: a command takes effect at most once and an idempotency key lives until it expires or is deleted. Cached entries may vanish at any time.
- Text.Lower: maps the ASCII letters only; Python's full case mapping, where a character may become several, is not modelled.
- Text.IsDigit: accepts the ASCII digits; `\d` in the source also accepts other Unicode digits.
- PolicyRules.HasAmountOverThreshold: `float()` is any rounding of the exact decimal value; numerals too large for a float, which Python turns into infinity, are rounded to some real number here.
- PolicyRules.EvaluatePolicy: the confidence score is a real number, so NaN, for which the source's comparison is false, is not modelled.
- KnowledgeArticles.Search: articles created at the same time keep the order of the table; the database leaves that order open. The limit is not negative.
- ApprovalQueue.MostRecent: of requests made at the same time the first in the table is taken; the database leaves that choice open. The same holds for ties in `list_pending`.
- IdempotencySafety.ReplaysAreRecent: holds for timely runs only; in others a late holder's write can prolong a record, and only `ReplayFidelity` is promised.
- IdempotencySafety.AtMostOneHolder: holds for runs in which nobody outlives a claim; without that hypothesis the source does not guarantee it, and `ExclusionBreaksExactly` gives the exact condition.
- IdempotencySafety.TicketConservation: rows are counted over a window of one time to live; across windows a key may create more, as the source intends.
- TicketService.Execute: `created_at` is supplied by the database; a rollback that fails after a refused commit is not modelled.
- WorkflowSafety.EscalationEndToEnd: whether the classifier raised is given with the ticket; `Classifier.ClassifyTicket` and `BackgroundLoop.RunSync` say when that happens, but the three are not put together in one run.
- LoopRegistry.LoopAffinity: assumes that callers resolve a resource inside the coroutine they hand to `run_sync`, as the source's callers do; handing one over is modelled and shown to be the only way to break it.
- LoopRegistry.Registry.GetOrCreate: covers the registry of both modules; the new session that `async_session_factory` makes from the factory on each call is not modelled.
- WorkflowExecution.PersistResults: the audit event written after the review item is not modelled.
- The ticket status flow of the database schema document: it is documented as not implemented.
