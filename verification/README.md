# Verified models of the outreach API

Dafny models of the parts of the API server whose correctness depends on several
requests, pods or deliveries acting at once, and of its exact string and batch loops.
A result below holds of all inputs, all runs or all reachable states, unless its row says
that it builds one run or input, as the counterexamples do.

How the models are built:

- A protocol is a step relation: a `State`, a `Label` for each database statement,
  transaction, callback or crash, `Enabled` and `Do`, and `Exec`, which gives the
  state a finite run of labels ends in. Requests interleave freely, one statement at
  a time; a statement that commits but reports failure is a step of its own.
- The objects and tables the source updates in place are classes. A method's contract
  and the step it stands for change a table by the same function (`Restatus`, `Claimed`,
  `RedisAfter`, `Stored`, `Revoke`, `Closed`, …), so the runs are runs of those updates.
  `JobCreation.Database.Commit` is proved equal to its whole step. Two methods stand for
  several steps: `ReplyStore.Claim`, for a transaction whose three statements
  `ReplySafety.TransactionIsClaim` runs one after the other, and
  `PodCache.RequireIngestKey`, which lets evictions in between its two halves.
- Where a promised property does not hold of the code, a lemma builds a concrete run or
  input that breaks it, and another says exactly when it holds.

| file | what it models |
|---|---|
| `ReplyRows`, `ReplyProtocol`, `ReplySafety`, `ReplyAnswers`, `ReplySteps`, `ReplyVerdicts`, `ReplyOverlap` | sending inbox replies at most once |
| `Billing`, `BillingWebhook` | applying Stripe events in any order, once each |
| `RateLimit`, `RateCounters` | fixed windows in Redis with a per-pod fallback |
| `TtlCache` | the single-flight cache |
| `IngestCache` | the per-pod key cache and its lossy invalidation |
| `RefreshTokens` | refresh-token rotation and reuse detection |
| `JobCreation`, `Closeout` | jobs from quotes and opportunities; frozen economics |
| `Csv`, `LeadExport` | the CSV printer and the paged export |
| `Slug` | workspace slugs and the search for a free one |
| `IngestBatch` | deduplicating and storing a batch of leads |
| `CampaignGate` | the preflight forecast against the send route |
| `Wrappers` | `Option`, runs and prefixes of runs |

## Where the code and its comments differ

The models follow the code. Each point has a lemma.

- Resolving a reply reads the row in one statement and writes in another that tests the
  status only, and its array transaction creates the contact event even when the guarded
  write matched nothing. Two overlapping resolutions of one row record a reply twice
  (`ReplyOverlap.OverlapRecordsTwice`) or let it be sent twice
  (`ReplyOverlap.OverlapSendsTwice`). `ReplyVerdicts.NotSentAcceptsTwiceIff`,
  `ReplyVerdicts.VerdictLoosensIff` and `ReplyVerdicts.SentMisrecordsIff` say which verdicts
  do harm, over every continuation, and `ReplyVerdicts.AttemptGuardSuffices` that testing
  the attempt time as well would prevent a second acceptance.
- Billing state does not converge under every delivery order: a deletion followed by
  an event that does not link the subscription again ends differently when the two
  are swapped (`Billing.OrdersDiverge`); `Billing.ConvergesIff` has the exact condition.
- `delete` and `clear` of the TTL cache drop the marker of a load that goes on
  running; a later get may then be answered from it (`TtlCache.DroppedLoadIsServed`,
  `TtlCache.StaleAfterDropIff`).
- The key routes evict before they update the table, so a request in between leaves
  the old key served (`IngestCache.EvictBeforeRemoveLeavesKeyServed`).
- A site's shifts can move to a second job when two requests count no job before
  either commits (`JobCreation.SecondJobTakesShifts`, `JobCreation.TakesFromLiveJobIff`).
- A closeout overtaken by another closeout and a reopen writes back the revenue it
  had read (`Closeout.SlowCloseoutForgetsRevenue`).
- A shift clocked on between a closeout's count and its recorded time, or an older shift
  moved onto the closed job, is neither in the figures nor counted late
  (`Closeout.ShiftMissedBeforeStamp`, `Closeout.OlderShiftMovedOn`,
  `Closeout.EveryShiftIsAccountedForIff`).
- The CSV printer does not look for carriage returns, which section 2 of RFC 4180 allows
  in quoted cells only, nor for characters its grammar has in no cell, such as tabs and
  letters outside ASCII (`Csv.OutsideGrammar`, `Csv.InGrammarIff`). Records end in a line
  feed where the grammar has CRLF; the grammar is read with that one change.
- Ingest deduplication asks for exact matches of normalised e-mails, so it misses a
  stored e-mail in mixed case (`IngestBatch.MixedCaseIsMissed`,
  `IngestBatch.NoEmailIsRepeatedIff`).

## Assumptions of the reply theorems

A failed `sendMail` means the message was not accepted. The theorems are about one
idempotency key and ask something of the verdicts on that key only; requests may be late,
resolutions overlap, and anything may happen to other keys. A run is
`ReplyProtocol.Harmless` for a key, and for what is to be kept (`ReplyProtocol.Care`), when
no "not sent" frees a claim that a request still acts on and, for one acceptance per key,
each is true; when no "sent" closes a claim that awaits the provider, for acceptances under
a standing claim; and when each "sent" adds the only event there will be, for one event per
reply. `ReplyProtocol.Careful` runs, in which requests end within the in-flight window,
answers are true and no second resolution is opened on a row while one is being decided,
are harmless for every key (`ReplyVerdicts.CarefulIsHarmless`).
`ReplySafety.OneOpenReplyPerThread`, `ReplySafety.SuccessMeansAccepted`,
`ReplySafety.SentIsAbsorbing` and, of `ReplyAnswers`, all but `SuccessIsRecorded` assume
none of this.

## Model

| member | source | states |
|---|---|---|
| ReplyRows.ReplyStore.ReclaimFailed | apps/api/src/routes/inbox.ts:288-293 | a FAILED row of the key goes back to SENDING with a new attempt time, any other row is left alone, and the count says which |
| ReplyRows.ReplyStore.Create | apps/api/src/routes/inbox.ts:294-306 | a new SENDING row, or the unique-key violation and no change |
| ReplyRows.ReplyStore.Claim | apps/api/src/routes/inbox.ts:279-311 | the claim is granted exactly when no row of the thread is SENDING and the key is free or FAILED; a refused claim changes nothing |
| ReplyRows.ReplyStore.Fail | apps/api/src/routes/inbox.ts:318-323 | only a SENDING row becomes FAILED |
| ReplyRows.ReplyStore.Finalise | apps/api/src/routes/inbox.ts:364-374 | the row becomes SENT whatever it was, together with one ledger event |
| ReplyRows.ReplyStore.MarkSent | apps/api/src/routes/inbox.ts:377-380 | the fallback marks a row only if it is SENDING, and says whether it did |
| ReplyRows.ReplyStore.Record | apps/api/src/routes/inbox.ts:381 | the ledger event that the next statement adds |
| ReplyRows.ReplyStore.ResolveSent | apps/api/src/routes/inbox.ts:592-612 | a SENDING row becomes SENT; the event is created whether or not it matched |
| ReplySafety.TransactionIsClaim | apps/api/src/routes/inbox.ts:280-307 | the lock, the open-send check and the guarded write, run one after the other, do what the claim method does |
| ReplySafety.ClaimTakesFreeKey | apps/api/src/routes/inbox.ts:288-306 | a claim that changes the table takes a key that no live request holds and that was absent or FAILED |
| ReplySafety.LockInvStep | apps/api/src/routes/inbox.ts:279-311 | every step keeps the lock invariant: a request past the open-send check holds the thread's lock and the thread has no SENDING row |
| ReplySafety.HoldInvStep | apps/api/src/routes/inbox.ts:279-383 | every step that frees no live claim of the key keeps: its live request holds its row, SENDING since the claim or SENT, and is the only one |
| ReplySafety.MailInvStep | apps/api/src/routes/inbox.ts:315-383 | every step with a harmless verdict keeps: the key is accepted at most once, and is SENDING or SENT once accepted |
| ReplySafety.StandInvStep | apps/api/src/routes/inbox.ts:279-345 | every step with a harmless verdict keeps: while a request waits for the provider, its row is as its claim left it |
| ReplySafety.LedgerInvStep | apps/api/src/routes/inbox.ts:355-383 | every step with a harmless verdict keeps: at most one event for the key, only for a SENT row, and one for a finalised or resolved row |
| ReplySafety.RunKeepsMail | apps/api/src/routes/inbox.ts:230-383 | the acceptance invariant in every state of a run whose "not sent" verdicts on the key are harmless |
| ReplySafety.RunKeepsStanding | apps/api/src/routes/inbox.ts:279-345 | the standing-claim invariant in every state of a run whose verdicts on the key close no claim under a waiting or acting request |
| ReplySafety.RunKeepsLedger | apps/api/src/routes/inbox.ts:355-383 | the ledger invariant in every state of a run whose verdicts on the key are harmless for it |
| ReplySafety.OneOpenReplyPerThread | apps/api/src/routes/inbox.ts:273-311 | in every reachable state a thread has at most one SENDING row, whatever keys are used; no assumption |
| ReplySafety.AtMostOneAcceptance | apps/api/src/routes/inbox.ts:230-239 | over any interleaving, crash, failed statement, late request, overlapping resolution and use of other keys, the provider accepts at most one message of a key as long as "not sent" verdicts on that key are true and free no live claim |
| ReplySafety.SuccessMeansAccepted | apps/api/src/routes/inbox.ts:347-395 | in every run, a request that sent and answered success had its message accepted; the other success answer is `ReplyAnswers.DuplicateMeansSent` |
| ReplySafety.AcceptanceIsExclusive | apps/api/src/routes/inbox.ts:347-383 | a message is accepted only while its row is as its claim left it and is the thread's one SENDING row, given harmless verdicts on its key alone; a reply accepted earlier on the thread is then SENT, so an unrecorded one blocks the thread |
| ReplySafety.OneContactEventPerReply | apps/api/src/routes/inbox.ts:355-383 | at most one SENT event per row, exactly one once it became SENT through finalise or a resolution |
| ReplySafety.SentIsAbsorbing | apps/api/src/routes/inbox.ts:233-239 | a SENT row stays SENT along every run |
| ReplyAnswers.DuplicateMeansSent | apps/api/src/routes/inbox.ts:230-239 | in every run, a request answered as a duplicate finds the row of its key SENT, on its own thread |
| ReplyAnswers.RetryAfterSent | apps/api/src/routes/inbox.ts:230-239 | once a key is SENT on a thread, every request for it on that thread that has not looked it up yet, or comes later, is answered as a duplicate or crashes, and never reaches the provider |
| ReplyAnswers.LookUpAfterSent | apps/api/src/routes/inbox.ts:230-239 | its lookup can always run, and answers duplicate |
| ReplyAnswers.AcceptedIsAnswered | apps/api/src/routes/inbox.ts:347-395 | in every run, once its message is accepted a request ends in success or a crash, whatever statements fail after it |
| ReplyAnswers.FinaliseRecords | apps/api/src/routes/inbox.ts:364-374 | from any reachable state, a finalise that commits leaves the row SENT with one more event, whatever verdicts were given meanwhile, and is answered with success when it reports back |
| ReplyAnswers.SuccessIsRecorded | apps/api/src/routes/inbox.ts:347-395 | a request that answered success left its row SENT and an event in the ledger, unless a statement of its fallback was lost, given verdicts on its key that are harmless for the ledger |
| ReplyAnswers.HistoryIsKept | apps/api/src/routes/inbox.ts:347-374 | the counts the theorems speak of are those of the run: acceptances of the key, and whether a finalise or a "sent" verdict on it committed |
| ReplyOverlap.OverlapRecordsTwice | apps/api/src/routes/inbox.ts:592-612 | for any key, a run with two overlapping "sent" resolutions and two events for one reply |
| ReplyOverlap.OverlapSendsTwice | apps/api/src/routes/inbox.ts:587-598 | for any key, a run with two overlapping true "not sent" resolutions and two accepted messages |
| ReplyVerdicts.NotSentAcceptsTwiceIff | apps/api/src/routes/inbox.ts:587-600 | after "not sent" commits, some continuation accepts two messages of the key exactly when the row was SENDING and a message was accepted already or a live request owned the claim |
| ReplyVerdicts.VerdictLoosensIff | apps/api/src/routes/inbox.ts:587-612 | after a verdict commits, some continuation can accept a message whose row is not as its claim left it exactly when "not sent" found the row SENDING and owned, or "sent" found a request waiting for the provider |
| ReplyVerdicts.SentMisrecordsIff | apps/api/src/routes/inbox.ts:593-612 | after "sent" commits, some continuation has a second event, or one without a SENT row, exactly when the row was neither SENDING nor SENT without its event, or a request may still record |
| ReplyVerdicts.AttemptGuardSuffices | apps/api/src/routes/inbox.ts:590-595 | in runs where requests are in time and each "not sent" on the key is true and finds the attempt time its resolution read, all of them are harmless and the key is accepted at most once, however many resolutions overlap |
| ReplyVerdicts.CarefulIsHarmless | apps/api/src/routes/inbox.ts:398-401 | requests within the window, true answers and one resolution at a time make every verdict on every key harmless |
| ReplyVerdicts.CarefulRunsAreSafe | apps/api/src/routes/inbox.ts:230-383 | so in those runs each key is accepted and recorded at most once, and recorded once when settled |
| ReplyVerdicts.ClaimAgain | apps/api/src/routes/inbox.ts:279-311 | a FAILED key on a thread with no open reply can be claimed by a new request from any reachable state |
| Billing.NewestWins | apps/api/src/routes/billing.ts:188-355 | before the newest event arrives it is still applicable, and once it has arrived its outcome stands, for every delivery order |
| Billing.EveryOrderConverges | apps/api/src/routes/billing.ts:188-355 | every order with any redeliveries ends with the newest event's status, subscription link and event time |
| Billing.NewestPlanWins | apps/api/src/routes/billing.ts:221-292 | every order ends on the plan and on the customer that the newest event names, when it names them |
| Billing.NothingIsGuessed | apps/api/src/routes/billing.ts:221-292 | in every reachable state the plan and the customer are the first ones or such that a delivered event named them |
| Billing.ConvergesIff | apps/api/src/routes/billing.ts:211-355 | the delivery order is irrelevant exactly when the newest event is the only deletion, or there is none, or it is a checkout that links the subscription |
| Billing.OrdersDiverge | apps/api/src/routes/billing.ts:283-299 | otherwise two orders of the same history that end apart |
| Billing.Frozen | apps/api/src/routes/billing.ts:194-202 | after the newest event is applied no delivery changes the outcome |
| Billing.Missed | apps/api/src/routes/billing.ts:261-265 | a newest event that found no workspace is never applied later, however often it is redelivered |
| Billing.ProcessedIds | apps/api/src/routes/billing.ts:150-158 | the processed ids are exactly those delivered, and the workspace keeps its identity and its ingest key |
| Billing.LastEventIsNewestApplied | apps/api/src/routes/billing.ts:188-202 | the recorded event time is the maximum of those applied, so it never decreases |
| Billing.GraceAlwaysFits | apps/api/src/routes/billing.ts:205-209 | in every reachable state active or trialing has no grace deadline and past_due has one |
| Billing.DeadlineStands | packages/backend-core/src/lib/billingEntitlements.ts:48-50 | a deadline is never moved, only cleared |
| Billing.GraceLastsSevenDays | packages/backend-core/src/lib/billingEntitlements.ts:36-50 | whatever failed payments follow, the plan is kept for exactly seven days from the event that opened the grace period |
| Billing.PlanIsPaidFor | packages/backend-core/src/lib/billingEntitlements.ts:36-45 | in every reachable state and at any time, the workspace's plan applies without a status, when it is active or trialing, or within a running grace period, and the free plan otherwise |
| BillingWebhook.WebhookDb.Commit | apps/api/src/routes/billing.ts:150-158 | the claim and the state change commit together, exactly when the event id has not committed before, so each id commits at most once |
| BillingWebhook.WebhookDb.Webhook | apps/api/src/routes/billing.ts:144-174 | a success answer means the event has committed exactly once; of the side effects that each attempt past the claim gathers, only the committing attempt's run, among them one payment mail, with the deadline that attempt left in the workspace, exactly when the event is a failed payment of its subscription in order and the owner can be mailed; two conflicts are ridden out and a third fails |
| BillingWebhook.PlanChangeEvicts | apps/api/src/routes/billing.ts:242-301 | a change of plan always evicts the workspace's cached key, and no other key is ever evicted, nor any by an event that names no plan |
| BillingWebhook.FailedPaymentMails | apps/api/src/routes/billing.ts:301-337 | a failed payment of the workspace's subscription that is no older than the last event applied mails an owner who can be mailed once, with the deadline then recorded; nothing else mails |
| BillingWebhook.ProcessedMeansCommitted | apps/api/src/routes/billing.ts:150-158 | an id is processed exactly when its transaction committed |
| BillingWebhook.CommittedHistoryConverges | apps/api/src/routes/billing.ts:144-202 | once each event of a history has committed, in whatever order, the workspace is in the newest event's state |
| RateLimit.Limiter.Handle | apps/api/src/middleware/rateLimit.ts:52-96 | the decision, the headers and both counters of one request, for each way Redis can fail |
| RateLimit.Limiter.Prune | apps/api/src/middleware/rateLimit.ts:33-36 | the pruner removes exactly the entries that are over |
| RateLimit.CounterIsLive | apps/api/src/middleware/rateLimit.ts:66-70 | key expiry never resets the counter of a window that is still running |
| RateLimit.RunKeepsInv | apps/api/src/lib/workspaceRateLimit.ts:57-84 | in every reachable state each Redis window and each fallback window has admitted at most its ceiling, and a pod's fallback windows of a key do not overlap |
| RateLimit.SameSideSameWindow | apps/api/src/middleware/rateLimit.ts:76-81 | an interval of one window's length meets at most two windows of each pod and two of Redis |
| RateLimit.SlidingBound | apps/api/src/middleware/rateLimit.ts:29-96 | over any run, outage pattern and spread over pods, a key is admitted at most 2·max + 2·pods·ceiling times in any half-open interval of length windowMs |
| RateLimit.PruningChangesNothing | apps/api/src/middleware/rateLimit.ts:33-37 | a run and the run without its pruning steps admit the same requests |
| RateCounters.CounterCountsIncrs | apps/api/src/middleware/rateLimit.ts:67-68 | in every reachable state the counter of any key and window is the number of requests of that key and window whose INCR Redis took |
| RateCounters.CountersExpire | apps/api/src/middleware/rateLimit.ts:68 | without an outage every counter has an expiry, after its window's end and at most a second later than one window's length after it |
| RateCounters.EntrySaysOpening | apps/api/src/middleware/rateLimit.ts:76-81 | a fallback window begins at the first request that falls back after the last one was over, and lasts windowMs |
| RateCounters.EntryCountsHits | apps/api/src/middleware/rateLimit.ts:77-83 | in every reachable state a fallback entry counts the requests of its key that the pod decided since its window began |
| RateCounters.RefusedIff | apps/api/src/middleware/rateLimit.ts:55-96 | after any run, a request is refused exactly when its ceiling was already counted in the window that decides it, and is otherwise admitted in that window |
| RateCounters.ServedBelowMax | apps/api/src/middleware/rateLimit.ts:66-96 | a request that Redis serves is admitted when fewer than max requests of its key came before it in its window, whatever outages there were |
| RateCounters.NoOutageRefusedIff | apps/api/src/middleware/rateLimit.ts:66-96 | without an outage it is refused exactly when max came before it |
| RateCounters.PrunerKeepsRunning | apps/api/src/middleware/rateLimit.ts:33-36 | on any pod the pruner leaves exactly the entries whose window is running |
| TtlCache.Cache.Get | apps/api/src/lib/ttlCache.ts:38-59 | a live entry is served, else the in-flight load is joined, else a load is started and marked |
| TtlCache.Cache.Loaded | apps/api/src/lib/ttlCache.ts:47-50 | a resolved value is stored for ttlMs, or not at all when ttlMs is 0 |
| TtlCache.Cache.Settled | apps/api/src/lib/ttlCache.ts:51-56 | settling clears the key's marker, whoever set it |
| TtlCache.Cache.Delete | apps/api/src/lib/ttlCache.ts:60-63 | the entry and the marker go |
| TtlCache.AnswersAreFresh | apps/api/src/lib/ttlCache.ts:38-59 | every answer comes from a load of that key, outstanding or resolved less than ttlMs ago; a failed load is never served |
| TtlCache.ServedIff | apps/api/src/lib/ttlCache.ts:38-50 | in every run, a get is served without a load exactly while the value resolved last for its key, since the key was last dropped, is less than ttlMs old, and then with that value |
| TtlCache.SettledLoadEnds | apps/api/src/lib/ttlCache.ts:46-56 | after a load settled its key is free for the next load; a failed one stores nothing and never will |
| TtlCache.SingleFlight | apps/api/src/lib/ttlCache.ts:43-58 | when no delete of the key, and no clear, meets a load of it, at most one load of it is outstanding and every miss joins it, whatever happens to other keys |
| TtlCache.DropKeepsSingleFlightIff | apps/api/src/lib/ttlCache.ts:60-67 | a delete or a clear followed by a get leaves one load of the key outstanding exactly when it met none |
| TtlCache.StaleAfterDropIff | apps/api/src/lib/ttlCache.ts:47-67 | a get after a delete or a clear can return a value loaded before it exactly when a load of the key was running and values are stored |
| TtlCache.DroppedLoadIsServed | apps/api/src/lib/ttlCache.ts:47-67 | a run of three steps in which that happens |
| IngestCache.PodCache.GetCachedWorkspace | apps/api/src/lib/ingestCache.ts:19-24 | an entry is served up to and including its expiry, and dropped after |
| IngestCache.PodCache.SetCachedWorkspace | apps/api/src/lib/ingestCache.ts:26-28 | the row is kept for five minutes |
| IngestCache.PodCache.Evict | apps/api/src/lib/ingestCache.ts:30-33 | the entry of the hash goes and no other |
| IngestCache.PodCache.RequireIngestKey | apps/api/src/routes/ingest.ts:45-58 | the cached workspace, else the table's, else the refusal; what the table gave is stored after the evictions that came in meanwhile, one of the same key included |
| IngestCache.CachedRowWasLookedUp | apps/api/src/lib/ingestCache.ts:19-28 | for any pods and lost broadcasts, a hash accepted from a cache was found in the database with that row and stored at most the TTL ago |
| IngestCache.ServedIff | apps/api/src/lib/ingestCache.ts:19-33 | in every run, a pod accepts a hash from its cache exactly while what it stored last, since it last dropped it, is no older than the TTL, and for the workspace found then |
| IngestCache.LooksUpOnMiss | apps/api/src/routes/ingest.ts:45-55 | in every run, a pod looks a hash up in the database exactly when what it stored last for it, if anything, is older than the TTL |
| IngestCache.EvictionReachesSubscribers | apps/api/src/lib/ingestCacheInvalidation.ts:26-46 | a delivered eviction removes the entry, and one is on its way to every subscribed pod |
| IngestCache.NeverHeldAgain | apps/api/src/routes/ingest.ts:45-55 | a removed key that nobody holds is never served again |
| IngestCache.RemovedKeyServesIff | apps/api/src/routes/ingest.ts:45-55 | a removed key can still authenticate exactly when a cache serves it or a request that looked it up has not stored it yet |
| IngestCache.EvictBeforeRemoveLeavesKeyServed | apps/api/src/routes/ingest.ts:191-196 | from any state, a lookup between the eviction and the update leaves the removed key served |
| IngestCache.RemovedKeyExpires | apps/api/src/lib/ingestCache.ts:14-24 | with no broadcast delivered, a removed key is served at most for the TTL and the time a lookup takes to be stored |
| RefreshTokens.TokenTable.Consume | apps/api/src/routes/auth.ts:268-274 | of concurrent presenters of a live token one counts 1 and revokes it |
| RefreshTokens.TokenTable.Persist | apps/api/src/routes/auth.ts:45-53 | the new token is stored live |
| RefreshTokens.TokenTable.RevokeUser | apps/api/src/routes/auth.ts:285-288 | every token of the user is revoked, and every other token is left as it is |
| RefreshTokens.TokenTable.Logout | apps/api/src/routes/auth.ts:323-329 | the presented token is revoked |
| RefreshTokens.TokensConsumedAtMostOnce | apps/api/src/routes/auth.ts:268-274 | over any interleaving each token is exchanged at most once |
| RefreshTokens.ConsumedCountsExchanges | apps/api/src/routes/auth.ts:268-274 | the consumed tokens are those that a refresh went on to rotate, each at most once |
| RefreshTokens.RotatesIff | apps/api/src/routes/auth.ts:266-304 | presenting a token rotates it exactly when it is live and has not expired |
| RefreshTokens.IssuedIsLive | apps/api/src/routes/auth.ts:45-53 | a login and a completed rotation leave a live token with their user, with its expiry, and no other user with one |
| RefreshTokens.RevocationIsPersonal | apps/api/src/routes/auth.ts:285-288 | revoking a user's set, after a replay or otherwise, leaves that user no live token and every other user's as they were |
| RefreshTokens.TakenIff | apps/api/src/routes/auth.ts:266-329 | a step ends a live token exactly when it is its own exchange or logout, its purge after expiry, or a revocation of its own user's set |
| RefreshTokens.LiveIffSpared | apps/api/src/routes/auth.ts:266-329 | along every continuation a live token is live, with its user and expiry, exactly while no such step took it |
| RefreshTokens.ReplayIsPunished | apps/api/src/routes/auth.ts:274-296 | from any reachable state, presenting an exchanged token leaves its user no live token, and every other user's as they were |
| RefreshTokens.NotAReplay | apps/api/src/routes/auth.ts:274-298 | presenting a token that only expired, or that is not in the table, changes nothing |
| RefreshTokens.LiveTokensWithinSessions | apps/api/src/routes/auth.ts:266-304 | a user's live tokens and half-done rotations never outnumber the logins |
| RefreshTokens.LockedOutStays | apps/api/src/routes/auth.ts:274-296 | with no live token and no rotation half done there is none until the next login |
| RefreshTokens.ReplayLocksOutIff | apps/api/src/routes/auth.ts:274-304 | after a replay revoked the set, a token can come alive before the next login exactly when a rotation was half done |
| JobCreation.QuoteHasOneJob | apps/api/src/routes/delivery.ts:230-283 | over any interleaving of both routes a quote has at most one job |
| JobCreation.LinksAreWrittenOnce | apps/api/src/routes/opportunities.ts:265-289 | an opportunity's site, a job's quote and a shift's job never change once set, nor a shift's hours and site |
| JobCreation.HoursAreConserved | apps/api/src/routes/delivery.ts:234-240 | the hours on all shifts always total those clocked: moving shifts loses and repeats none |
| JobCreation.RunKeepsLinksFit | apps/api/src/routes/delivery.ts:230-279 | in every reachable state a shift's job is at its site, a linked site has a job, and work from a quoted opportunity leaves it linked |
| JobCreation.LandedCommitDelivers | apps/api/src/routes/delivery.ts:242-283 | a landed transaction gives its quote its first job at the planned site, and the opportunity it links, if that has no site yet, the same site; any other changes no row |
| JobCreation.QuoteJobIsWhereAsked | apps/api/src/routes/delivery.ts:205-283 | however other requests interleave, a quote request that lands had an accepted quote, and its job is at the site chosen, else at the one its opportunity had, else at a new one |
| JobCreation.FirstJobTakesShifts | apps/api/src/routes/delivery.ts:234-240 | it moves every unattached shift of the site onto the new job when it read no live job there, and no shift otherwise |
| JobCreation.OwnSiteJobIsReused | apps/api/src/routes/delivery.ts:242-256 | it takes over a live job without a quote when it read one at the opportunity's own site, and makes one new ACTIVE job otherwise |
| JobCreation.OpportunityGetsJob | apps/api/src/routes/opportunities.ts:246-289 | the other route, when it lands, had a won opportunity, and gives it a new site with a new job carrying an accepted quote of it that had none, if it read one |
| JobCreation.FirstWasCounted | apps/api/src/routes/delivery.ts:236 | a plan that takes a site's shifts rests on a count, earlier in the run, that found no live job there |
| JobCreation.TakesFromLiveJobIff | apps/api/src/routes/delivery.ts:236-238 | the commit moves a shift although the site has another live job exactly when one was made since the count and a shift is unattached |
| JobCreation.SecondJobTakesShifts | apps/api/src/routes/ops/utils.ts:85-102 | a run in which a shift is attributed while the site has no job, logged after one request's job committed, and taken by a second request's job although the first is live |
| JobCreation.ShiftGoesTo | apps/api/src/routes/ops/utils.ts:85-102 | with no job given a shift goes to the site's one ACTIVE job, or with none ACTIVE to its one live job, or to none at a site without live jobs; with more it is refused |
| JobCreation.Database.Link | apps/api/src/routes/opportunities.ts:280-281 | an unlinked opportunity gets the site and counts 1, a linked one is left alone |
| JobCreation.Database.JobAtSite | apps/api/src/routes/delivery.ts:235-240 | the new job, and the site's unattached shifts moved onto it when no job was counted |
| JobCreation.Database.Commit | apps/api/src/routes/delivery.ts:232-279 | the whole transaction of either route lands with all its writes or leaves every table alone |
| Closeout.JobStore.Close | apps/api/src/routes/delivery.ts:655-662 | only an ACTIVE job is closed, with its snapshot, money, time and next version |
| Closeout.JobStore.Reopen | apps/api/src/routes/delivery.ts:690-694 | only a COMPLETE job is reopened, its snapshot and completion time cleared |
| Closeout.CompleteMeansClosedOut | apps/api/src/routes/delivery.ts:618-694 | in every reachable state COMPLETE, a snapshot and a completion time coincide, the version counts the closeouts, and no open shift is in the figures |
| Closeout.FiguresStayFrozen | apps/api/src/routes/delivery.ts:396-408 | until a reopen the reported figures do not change, whatever shifts, rates, contract or other requests do |
| Closeout.QuietCloseoutFreezesLiveFigures | apps/api/src/routes/delivery.ts:618-662 | a closeout that nothing disturbs freezes the live figures of the moment it lands, with the money and on-cost asked for |
| Closeout.QuietCloseoutReports | apps/api/src/routes/delivery.ts:396-408 | once such a closeout has landed the job reports the figures of the shifts, crew rates and contract of just before, with the money asked for or else recorded |
| Closeout.StampedRates | apps/api/src/routes/delivery.ts:625-646 | the snapshot's rates are the crew table's at the stamp for everybody in it who worked a counted shift, and it has nobody else's |
| Closeout.CountPassesIff | apps/api/src/routes/delivery.ts:625-632 | a closeout goes on past its count exactly when every shift has ended |
| Closeout.OpenJobReports | apps/api/src/routes/delivery.ts:351-408 | an open job reports the figures of the shifts on it now at the rates of whoever worked them, whatever other rates are fetched with them |
| Closeout.TablesHoldLastWritten | apps/api/src/routes/delivery.ts:351-368 | the shifts, rates and contract read are in every reachable state those last written |
| Closeout.LeftOutFieldsAreKeptIff | apps/api/src/routes/delivery.ts:639-641 | with no closeout landed since it loaded the job, a closeout keeps each field its request left out; in general exactly if the job records now what it recorded at that point of the run |
| Closeout.SlowCloseoutForgetsRevenue | apps/api/src/routes/delivery.ts:655-662 | a run in which a closeout erases the revenue another recorded |
| Closeout.EveryShiftIsAccountedForIff | apps/api/src/routes/delivery.ts:378-394 | every shift of a job closed on a closer's snapshot is in the figures or counted late exactly when no uncounted one came on between that closer's count and its stamp and stayed, and no older one was moved on after the stamp |
| Closeout.ShiftIsLeftOutIff | apps/api/src/routes/delivery.ts:378-394 | the same for each single shift |
| Closeout.ShiftMissedBeforeStamp | apps/api/src/routes/delivery.ts:625-642 | a run in which a shift comes on between the count and the stamp |
| Closeout.OlderShiftMovedOn | apps/api/src/routes/delivery.ts:390 | a run in which an older shift is moved onto the closed job |
| Closeout.LiveEconomics | apps/api/src/routes/delivery.ts:351-376 | one query for all listed jobs gives each open job the figures of exactly its own shifts, at the crew table's rates of whoever worked them, and a closed one none |
| Csv.PrintedTextReadsBack | apps/api/src/lib/csv.ts:2-7 | any table, whatever its cells hold, reads back cell for cell |
| Csv.InGrammarIff | apps/api/src/lib/csv.ts:2-6 | the text is in the grammar of section 2 of RFC 4180, with LF ending a record, exactly when every character is one the grammar allows in a cell and each cell with a carriage return is quoted for another reason |
| Csv.OutsideGrammar | apps/api/src/lib/csv.ts:2-6 | a lone carriage return and a tab print text outside that grammar, which still reads back |
| Csv.PrintingIsInjective | apps/api/src/lib/csv.ts:2-7 | two different tables never print the same text |
| Csv.CellReads | apps/api/src/lib/csv.ts:2-7 | a printed cell reads as one cell with its text, wherever it stands |
| Csv.HeadedTextReadsBack | apps/api/src/routes/leads.ts:318-351 | so does a header line with any number of rows after it |
| LeadExport.ListingIsOrdered | apps/api/src/routes/leads.ts:333-342 | the listing is in (createdAt, id) descending order with no row lost or repeated |
| LeadExport.PageContinues | apps/api/src/routes/leads.ts:333-343 | the page after a cursor goes on where the rows written stop |
| LeadExport.Export | apps/api/src/routes/leads.ts:318-355 | the paging loop ends and writes the header and exactly the first min(n, 50000) rows |
| LeadExport.HeadersPrintPlainly | apps/api/src/routes/leads.ts:318-323 | no column name would need quotes, so joining the header unescaped is sound |
| LeadExport.ExportReadsBack | apps/api/src/routes/leads.ts:318-355 | the exported text, read back, is the header and those rows in order |
| LeadExport.CellHoldsItsField | apps/api/src/routes/leads.ts:318-355 | read back, each cell holds the field its column is named after, of the lead its row stands for, or nothing |
| Slug.SanitizeJoinsWords | apps/api/src/lib/textNormalize.ts:50-58 | the five replacements give exactly the letter-and-digit runs of the lower-cased text joined by single dashes |
| Slug.SanitizeIsIdempotent | apps/api/src/lib/textNormalize.ts:50-58 | normalising twice is normalising once |
| Slug.TriedAreDistinct | apps/api/src/lib/textNormalize.ts:67-69 | the base and all numbered candidates differ |
| Slug.SeedIsSlug | apps/api/src/lib/textNormalize.ts:60-65 | the seed of a new workspace is a non-empty slug |
| Slug.NameGivesSeed | apps/api/src/lib/textNormalize.ts:60-65 | a name with more than white space gives the seed, its words joined by dashes, whatever the e-mail is |
| Slug.EmailGivesSeed | apps/api/src/lib/textNormalize.ts:60-65 | without such a name the part of the e-mail before its "@" does |
| Slug.Search | apps/api/src/lib/workspaces.ts:10-19 | the first free of base, base-1, …, base-20, and the fallback only when all are taken |
| Slug.SearchFindsFreeIff | apps/api/src/lib/workspaces.ts:10-19 | with at most 20 slugs taken the answer is free; in general it is free exactly when a candidate or the fallback is |
| Slug.ResolveUnique | apps/api/src/lib/workspaces.ts:7-20 | signing up gets the first free candidate of the seed |
| Slug.Ensure | apps/api/src/lib/workspaces.ts:22-42 | refused exactly when the text has no letter or digit, else the first free candidate among the other workspaces |
| Slug.KeepsOwnSlug | apps/api/src/lib/workspaces.ts:28-31 | a workspace renamed to its own slug keeps it |
| IngestBatch.Dedupe | apps/api/src/routes/ingest.ts:83-125 | the loop keeps, in order, exactly the named leads whose e-mail is absent or neither stored nor on an earlier named lead |
| IngestBatch.ExistingIsStored | apps/api/src/routes/ingest.ts:83-96 | asking only for the batch's e-mails, lower-cased again, answers the same as the whole table |
| IngestBatch.Enqueue | apps/api/src/routes/ingest.ts:148-165 | jobs are queued until the first refused quota, a queue failure losing only its own |
| IngestBatch.QueuedUntilRefused | apps/api/src/routes/ingest.ts:148-165 | the number queued is that of the leads before the first refused quota whose job the queue took |
| IngestBatch.LeadTable.Ingest | apps/api/src/routes/ingest.ts:82-173 | the first `allowed` kept rows are stored, created and skipped add up to the input, and a table with no e-mail twice, or with all e-mails in normal form, stays so |
| IngestBatch.BatchFits | apps/api/src/routes/ingest.ts:89-125 | any part of the kept rows goes with the stored ones without repeating an e-mail |
| IngestBatch.RowsAreKept | apps/api/src/routes/ingest.ts:98-125 | no kept row has a stored e-mail and no two share one |
| IngestBatch.NewEmailsAreKept | apps/api/src/routes/ingest.ts:98-125 | no new e-mail is lost: the kept e-mails are exactly the named leads' that are not stored |
| IngestBatch.RowIsALead | apps/api/src/routes/ingest.ts:98-125 | every row kept is a named lead's, under its trimmed name, cut to 200 characters, and with its normalised e-mail |
| IngestBatch.NameOnlyLeadsAreKept | apps/api/src/routes/ingest.ts:98-125 | the rows without an e-mail are exactly the leads that gave a name and no e-mail, in order, each under its name |
| IngestBatch.NoEmailIsRepeatedIff | apps/api/src/routes/ingest.ts:89-140 | of the rows stored within the capacity none repeats a stored e-mail up to case and spaces, exactly when no stored e-mail out of normal form, its normal form not stored too, is meant by a named lead reached before the capacity is used up |
| IngestBatch.MixedCaseIsMissed | apps/api/src/routes/ingest.ts:89-96 | for every stored e-mail that is not in normal form, a batch whose one lead repeats it and is kept |
| IngestBatch.SecondTimeKeepsNoEmail | apps/api/src/routes/ingest.ts:82-125 | a batch sent again keeps only leads without an e-mail |
| IngestBatch.Allowed | packages/backend-core/src/lib/limits.ts:230-242 | never more than asked or than the cap leaves, and all of that |
| CampaignGate.Preflight | apps/api/src/routes/campaigns.ts:330-412 | the blockers listed are those that hold, each once and in the order of the checks; ready exactly when there is none; and the capped number |
| CampaignGate.Send | apps/api/src/routes/campaigns.ts:462-539 | queued only when no refusal holds, for as many cleared leads as today's limit leaves and no fewer; a refusal holds and is the first that does |
| CampaignGate.ForecastIsTheSendIff | apps/api/src/routes/campaigns.ts:462-539 | a confirmed send of the whole campaign is queued exactly when the forecast is ready with a lead to send, for the same number |
| CampaignGate.ChosenLeadsSendIff | apps/api/src/routes/campaigns.ts:472-539 | with chosen leads it also takes the confirmation and a chosen sendable lead, and never queues more than forecast |
| CampaignGate.RefusalWasForecast | apps/api/src/routes/campaigns.ts:330-412 | a refusal that has a blocker makes the forecast not ready and is among its blockers |
| CampaignGate.ForecastNames | apps/api/src/routes/campaigns.ts:330-412 | each blocker is forecast exactly when the snapshot has its reason: no approved draft means that no lead with an e-mail in a stage before outreach has one |
| CampaignGate.SendQueuesIff | apps/api/src/routes/campaigns.ts:462-539 | a send is queued exactly when mail can be delivered, the mission has not stopped, the confirmation is there if required, some lead asked for goes out, and the day's limit is not used up |

## Left out

- Postgres, Redis, Stripe and SMTP are atomic steps: unique insert, guarded update
  with a count, row lock, INCR and EXPIRE, a broadcast that may be lost. Redis losing
  its data and the clocks of different pods differing are not modelled.
- Answer texts, status codes, audit rows, metrics, e-mail bodies and the authorisation
  checks in front of the routes; a refused check is one step that ends the request.
- Inbox: `threadingHeaders`, subject folding and HTML conversion, which do not touch
  the send rows. Failures while the answer is already being written are crashes.
- Billing: one workspace is modelled, so a checkout for an unknown workspace (an error
  that rolls back) and a subscription linked to two workspaces are not. A plan
  that only an older event names is not part of convergence: a stale price event is dropped.
- Retention: processed Stripe event ids are deleted after RETENTION_STRIPE_EVENT_DAYS
  (packages/backend-core/src/lib/retention.ts:121), after which a redelivered id could
  commit again; old OutreachSent rows and shifts are deleted too. No table here forgets
  rows except refresh tokens.
- Billing: price and checkout metadata come already resolved to a plan or to none.
- RateLimit: the two clock readings of one request are one instant; the disabled
  switch, a workspace ceiling of 0 (no limit) and requests without a key are not modelled.
- TtlCache: a loader that throws before returning a promise, and the registry of caches.
- RefreshTokens: JWTs, passwords, lockout, TOTP; hashes are injective ids. Password
  reset and the other sites that revoke all tokens are the one step `RevokeUser`.
- JobCreation: a transaction's reads are one step and its writes another, each atomic;
  site code collisions, quote transitions and operators' own edits of shifts are left out.
  A shift's hours are fixed when it is logged, not at clock-out.
- Closeout: `computeJobEconomics` is any function of its inputs, so rounding and the
  figures themselves are not modelled; one job is followed, and the transition table
  of variations is one step that replaces the contract.
- LeadExport: rows changing while the export runs, and `String()` of non-text cells:
  a lead's fields are text already and a missing one is empty.
- Slug: lower-casing is by character, any mapping that fixes letters, digits and the
  dash; context-dependent lower-casing is not modelled. A slug taken between the check and the
  insert meets the unique index, outside the model.
- IngestBatch: two batches at once, and the columns other than name and e-mail.
- CampaignGate: what the send worker does later, and how the effective limit and the
  approval mode are derived.
- Roles and permissions, request validation, list filters, dashboards, the web app,
  the worker's queue wiring: finite or one-branch facts.
