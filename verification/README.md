# Verified model of the trading platform's state machines

This project models the parts of a trading SaaS backend whose correctness is more than plumbing,
and proves what they keep over whole runs: the two hash-chained audit logs and the artifact
lifecycle built on one of them, the billing engine with its webhook processor, the LRU cache and
the two-level cache on top of it, the circuit breaker, the backtest simulation, the token codec,
walk-forward window construction, response migration, and the websocket registry.

Each `.dfy` file is one module for one source file (`HashChain`, `IdempotencyKeys`, `Text` and
`Options` are shared;
`BillingLaws` and `BacktestLaws` say in other terms what the operations of those two do). Code that updates fields in place is a class whose methods are proved
against functions on the class's value; code that only computes is a function. The theorems are
lemmas about those functions, most of them over arbitrary runs. `dafny verify dfyconfig.toml`
checks everything.

## What the code does and does not promise

- **Audit chains.** The keyed hash is a free constructor, so distinct messages have distinct
  digests and the genesis digest is nobody's digest. The v21 log reports exactly the rewritten
  records, because detection moves on with the stored digest; the artifact log reports everything
  from the first rewritten record to the end, because it does not. Eviction makes a later
  verification of the v21 log fail unless nothing at all is left, and truncation at the end is
  never seen.
- **Billing.** Activations match successes throughout a run exactly when no checkout files a new
  invoice under the id of a paid one; a paid id that comes back as pending is enough to activate it
  twice. The pairing of keys and invoices needs that no id is repeated at all. EXPIRED is never
  entered. The refund of a paid invoice is ignored, because SUCCEEDED is absorbing.
- **Webhooks.** A delivery that comes again, however much later, is recognised exactly when it has
  an event id and the store of seen ids had room for it; otherwise an active payer's one failure is
  counted twice.
- **Circuit breaker.** There is a reachable dead end: HALF_OPEN with the budget spent and every
  admitted call reported. `AdmitsIffNotStuck` says exactly which states can admit again, and
  `StuckReachable` constructs a run into a dead end under the default configuration. The window and
  budget results hold whoever reports, as long as the clock does not go back. The dead ends assume
  in addition that only admitted calls report, once each. The breaker does not enforce that: reports
  that no call owes can close a stuck breaker.
- **Two-level cache.** A promoted value can be served later than its L2 end plus the L1 default: by
  as much as the write to L1 comes after the reading of L2, and no more. With an L1 default of 0 it
  is served for ever. Two namespaces collide exactly when one with its colon is a prefix of the
  other with its colon.
- **Migration.** `migrate` recurses for ever exactly when neither a direct rule nor all the
  adjacent rules exist. A direct rule that skips versions takes precedence; `RoundTripIff` says
  exactly when the round trip holds with or without such rules.
- **Windows.** Adding months is additive exactly from days up to the 28th. From those days rolling
  windows always tile; from later ones it depends on the lengths, and `ConfigurationTilesIff` says
  on what. The default lengths tile from every day but 29 February. With a step of 0 or less a loop
  stops only if it makes no window at all.
- **Bulk revocation.** An artifact listed twice is revoked and yet reported as a failure.

## Model

| member | source | states |
|---|---|---|
| HashChain.DepthIsPosition | backend/core/audit_log_v21.py:242-245 | in an intact chain the digest stored before a position has absorbed exactly as many records as the position says |
| HashChain.NoCycle | backend/core/audit_log_v21.py:284-296 | no digest occurs at two positions of an intact chain |
| HashChain.LastDigestBinds | backend/core/audit_log_v21.py:284-296 | two intact chains that end in the same digest are the same chain |
| AuditLog.ChainBinding | backend/core/audit_log_v21.py:233-245 | two record sequences that verify and end in the same chain hash have equal length and agree everywhere on id, event, ts, user, tenant, reason, serialised detail and both hashes |
| AuditLog.TamperLocalised | backend/core/audit_log_v21.py:298-309 | after rewriting the contents of any set of records of an intact chain, the reported numbers are exactly those of the records whose hashed fields changed |
| AuditLog.SingleTamperLocalised | backend/core/audit_log_v21.py:298-309 | rewriting one record is reported as that record's number alone |
| AuditLog.RemovalLocalised | backend/core/audit_log_v21.py:298-309 | cutting one record out of the middle is reported at exactly the record that followed it |
| AuditLog.TruncationUnseen | backend/core/audit_log_v21.py:284-309 | cutting records off the end is seen by neither verification nor detection |
| AuditLog.DetectionAgreesWithVerification | backend/core/audit_log_v21.py:284-309 | detection reports nothing if and only if verification succeeds |
| AuditLog.SuffixVerdict | backend/core/audit_log_v21.py:277-296 | a suffix of a verified history verifies if and only if it is empty or the whole history |
| AuditLog.LeadingStale | backend/core/audit_log_v21.py:277-280 | the count of leading records before the cutoff: all of them are older and the next one is not |
| AuditLog.Dropped | backend/core/audit_log_v21.py:277-282 | eviction drops at least the stale front, leaves at most MAX_RECORDS, and beyond the stale front drops no more than the size limit forces |
| AuditLog.AuditChain.constructor | backend/core/audit_log_v21.py:222-228 | a new chain is valid and empty |
| AuditLog.AuditChain.Record | backend/core/audit_log_v21.py:247-275 | keeps: verified history, consecutive numbers, a reason on every record that needs one, retained records a suffix of at most 50,000; appends exactly one record with the given fields, or refuses exactly for a blank reason on an event that needs one and then changes nothing; what is dropped is older than 30 days or beyond the limit |
| AuditLog.AuditChain.Evict | backend/core/audit_log_v21.py:277-282 | drops exactly the specified front; the first record left is at most 30 days old unless 50,000 are left, and below that number everything dropped was older |
| AuditLog.AuditChain.VerifyChain | backend/core/audit_log_v21.py:284-296 | true exactly when every retained record fits; in any reachable state, exactly when nothing is retained or nothing was ever evicted |
| AuditLog.AuditChain.DetectTamper | backend/core/audit_log_v21.py:298-309 | returns exactly the numbers of the records that do not fit, in order; none if and only if verification succeeds |
| ArtifactGovernance.ArtifactAuditChain.Record | backend/core/artifact_governance.py:268-289 | keeps: verified numbered history, a reason on every revocation, deprecation and refusal, and the last MAX_RECORDS retained; appends exactly the given content, or refuses exactly when one of those three comes without a reason |
| ArtifactGovernance.ArtifactAuditChain.VerifyChain | backend/core/artifact_governance.py:291-303 | true exactly when every retained entry fits; in any reachable state, exactly when the history never outgrew MAX_RECORDS |
| ArtifactGovernance.ArtifactAuditChain.DetectTampered | backend/core/artifact_governance.py:310-322 | returns the numbers of the entries that do not follow the last fitting digest; none if and only if verification succeeds |
| ArtifactGovernance.StoredDigestsDiffer | backend/core/artifact_governance.py:268-303 | positions of a verified chain store different digests |
| ArtifactGovernance.DetectionAgreesWithVerification | backend/core/artifact_governance.py:291-322 | detection reports nothing if and only if verification succeeds, although the two walk differently |
| ArtifactGovernance.StuckAfterEdit | backend/core/artifact_governance.py:310-322 | from the first rewritten entry on, detection stays at the digest before it and reports every entry |
| ArtifactGovernance.TamperReportedToTheEnd | backend/core/artifact_governance.py:310-322 | rewriting any set of entries is reported as exactly every number from the first rewritten one to the end, and verification fails |
| ArtifactGovernance.ReplayCountsDownloads | backend/core/artifact_governance.py:522-539 | a legal replay of the history counts exactly the DOWNLOADED entries |
| ArtifactGovernance.LegalPrefix | backend/core/artifact_governance.py:80-97 | every prefix of a legal history is legal |
| ArtifactGovernance.StatusPath | backend/core/artifact_governance.py:85-91 | entry by entry, a legal history walks a VALID_TRANSITIONS path that starts in DRAFT |
| ArtifactGovernance.DownloadedAfterSigned | backend/core/artifact_governance.py:483-539 | in a legal history every DOWNLOADED entry comes after a SIGNED entry of the same artifact |
| ArtifactGovernance.TransitionIff | backend/core/artifact_governance.py:85-91 | a transition is allowed if and only if it goes exactly one stage forward or revokes what is not revoked |
| ArtifactGovernance.SignatureBinds | backend/core/artifact_governance.py:365-390 | a signature is accepted for exactly the identity it was made for, and a missing one never |
| ArtifactGovernance.RevokedIsFinal | backend/core/artifact_governance.py:80-91 | after a REVOKED entry a legal history holds nothing about that artifact but refused downloads |
| ArtifactGovernance.StillExplains | backend/core/artifact_governance.py:474-539 | an entry that accounts for the change of one artifact keeps this: the history replays to the status and download count of every artifact, and live artifacts carry valid signatures |
| ArtifactGovernance.Governance.constructor | backend/core/artifact_governance.py:461-472 | starts with no artifact, an empty history and the invariant |
| ArtifactGovernance.Governance.CreateArtifact | backend/core/artifact_governance.py:400-416 | adds one unsigned DRAFT with the checksum of its data, appends CREATED, and the history still explains every artifact |
| ArtifactGovernance.Governance.SignArtifact | backend/core/artifact_governance.py:483-491 | succeeds exactly on DRAFT; the signature covers the artifact's identity; a refusal changes neither store nor history |
| ArtifactGovernance.Governance.PublishArtifact | backend/core/artifact_governance.py:493-500 | succeeds exactly on SIGNED: every SIGNED artifact of a reachable state passes the signature check, a draft never does, and the others may not move to PUBLISHED; otherwise nothing changes |
| ArtifactGovernance.Governance.DeprecateArtifact | backend/core/artifact_governance.py:502-509 | succeeds exactly on PUBLISHED with a reason; otherwise nothing changes |
| ArtifactGovernance.Governance.RevokeArtifact | backend/core/artifact_governance.py:511-518 | succeeds exactly from every status but REVOKED with a reason; otherwise nothing changes |
| ArtifactGovernance.Governance.DownloadArtifact | backend/core/artifact_governance.py:522-539 | access is denied exactly to DRAFT and REVOKED artifacts and logged as REJECTED with actor, tenant and reason; a download counts and is logged exactly otherwise with matching data, and then the artifact passes its signature check |
| ArtifactGovernance.ReportOneMore | backend/core/artifact_governance.py:572-587 | how one more listed id changes what a bulk revocation reports: success needs an artifact not yet revoked and listed once |
| ArtifactGovernance.Governance.BulkRevoke | backend/core/artifact_governance.py:572-587 | revokes exactly the listed artifacts, appends for each in the order of first mention exactly one REVOKED entry with actor, tenant and reason, and reports success exactly for those that existed, were not revoked before and are listed once; a missing reason changes neither store nor history |
| IdempotencyKeys.DecimalReads | backend/billing/engine.py:394-396 | the decimal text of an hour number reads as that number |
| IdempotencyKeys.LastColonUnique | backend/billing/engine.py:394-396 | a text splits at its last colon in one way only |
| IdempotencyKeys.IdemKeyInjective | backend/billing/engine.py:394-396 | equal keys name the same user, plan and hour, even when user ids contain colons |
| Billing.TransitKeepsPath | backend/billing/engine.py:64-76 | an allowed transition extends the recorded path to a path of the state machine ending in the new status |
| Billing.StepKeepsSubs | backend/billing/engine.py:184-298 | every operation keeps: ACTIVE has no failure counted, PAST_DUE one or two, nothing is EXPIRED, and every recorded transition list is a path of the state machine to the current status |
| Billing.FsmOverRuns | backend/billing/engine.py:25-43 | the same over every run of operations in any order |
| Billing.StepKeepsInv | backend/billing/engine.py:184-382 | every operation with a fresh provider id also keeps: the idempotency map pairs keys and invoices one to one, every key names its invoice's user and plan, and an invoice is activated once if it has succeeded and never otherwise |
| Billing.InvOverRuns | backend/billing/engine.py:184-298 | over every run in which the provider repeats no invoice id the whole invariant holds |
| Billing.ExactlyOnce | backend/billing/engine.py:194-273 | over every interleaving of checkouts, webhook and admin confirmations and status changes: every invoice is activated once if it has succeeded and never otherwise, throughout the run, if and only if no checkout files a new invoice under the id of a paid one; then no invoice is activated twice |
| Billing.FromEmpty | backend/billing/engine.py:170-298 | from a new engine: the subscription invariant over every run, and both conditions on the provider exactly |
| Billing.OneInvoicePerHour | backend/billing/engine.py:194-213 | two invoices filed for the same user, plan and hour are one invoice, and it is that user's and plan's |
| Billing.CheckoutIdempotent | backend/billing/engine.py:194-199 | after a checkout and any run of other operations, a second checkout in the same hour changes nothing at all |
| Billing.SucceededAbsorbing | backend/billing/engine.py:243-267 | an invoice that has succeeded is never changed again by any run in which no checkout files a new invoice under the id of a paid one |
| Billing.RevokedAbsorbing | backend/billing/engine.py:25-43 | a REVOKED subscription stays REVOKED with the same recorded path over every run, whatever is paid or refunded |
| Billing.RevokeAllOrNothing | backend/billing/engine.py:282-290 | revocation ends in REVOKED exactly from ACTIVE, PAST_DUE and SUSPENDED, and otherwise changes nothing |
| Billing.ConsecutiveFailures | backend/billing/engine.py:354-371 | from ACTIVE, k failures in a row give PAST_DUE for k = 1, 2 and SUSPENDED for every k from 3 on, with k counted |
| Billing.RefundSuspendsIff | backend/billing/engine.py:238-258 | a reported refund suspends the payer if and only if the invoice has not succeeded and the payer is ACTIVE |
| Billing.KeepsInvIffFresh | backend/billing/engine.py:184-298 | an operation from a state with the invariant keeps it if and only if the provider repeats no invoice id in it |
| Billing.FreshIffInvThroughout | backend/billing/engine.py:184-298 | a run keeps the invariant after every operation if and only if the provider repeats no invoice id in it |
| Billing.OnceEachIff | backend/billing/engine.py:184-298 | an operation keeps activations and successes in step if and only if it does not file a new invoice under the id of a paid one, whatever status the provider reports |
| Billing.ActivatesTwiceIff | backend/billing/engine.py:213-273 | a checkout that files a new invoice, followed by a confirmation of it, activates some invoice twice if and only if the provider repeated the id of a paid one, reported as paid or as pending |
| Billing.TwiceReachable | backend/billing/engine.py:194-260 | from an empty engine: a basic plan is paid, a pro plan gets the same id as pending, a confirmation comes, and the invoice has been activated twice |
| BillingLaws.ConfirmationPays | backend/billing/engine.py:238-352 | a confirmed payment of an unpaid invoice, by webhook or administrator, settles it and makes the payer ACTIVE (REVOKED stays, a first trial plan gives TRIAL) on the invoice's plan until its days have passed, with no failure counted, the move recorded and nobody else affected |
| BillingLaws.CheckoutFiles | backend/billing/engine.py:184-236 | a checkout under a new key files exactly one invoice, for the plan's rial price in rials and its dollar price otherwise, and pays up exactly when the provider reports success at once |
| BillingLaws.PaymentRestores | backend/billing/engine.py:314-371 | after any number of failures from ACTIVE, one confirmed payment ends ACTIVE with count 0 and a recorded path |
| BillingLaws.FailureMeans | backend/billing/engine.py:354-371 | a reported failure counts one, moves ACTIVE to PAST_DUE and PAST_DUE at the third to SUSPENDED, and changes nothing else about anybody |
| BillingLaws.RefundMeans | backend/billing/engine.py:373-382 | a reported refund of an unpaid invoice suspends an ACTIVE payer and changes nothing else about anybody |
| BillingLaws.OtherReports | backend/billing/engine.py:238-273 | every other report only notes the status; on a paid or unknown invoice nothing happens |
| BillingLaws.SuspendIff | backend/billing/engine.py:275-280 | suspension takes exactly ACTIVE and PAST_DUE payers to SUSPENDED |
| BillingLaws.CancelIff | backend/billing/engine.py:292-298 | cancellation is refused exactly to CANCELLED, EXPIRED and REVOKED payers |
| BillingLaws.RevokeRecords | backend/billing/engine.py:282-290 | revocation goes by way of SUSPENDED and records both moves |
| BillingLaws.EnteredFrom | backend/billing/engine.py:25-43 | from exactly which statuses each status can be entered |
| Billing.BillingEngine.CheckoutPlan | backend/billing/engine.py:184-236 | performs exactly the specified checkout; an accepted call returns the invoice filed under its key; refused exactly for unknown plans |
| Billing.BillingEngine.ConfirmFromWebhook | backend/billing/engine.py:238-260 | performs exactly the specified confirmation on all four dictionaries |
| Billing.BillingEngine.AdminConfirmInvoice | backend/billing/engine.py:262-273 | performs exactly the specified manual confirmation |
| Billing.BillingEngine.SuspendUser | backend/billing/engine.py:275-280 | performs exactly the specified suspension, or reports why not and changes nothing |
| Billing.BillingEngine.RevokeUser | backend/billing/engine.py:282-290 | performs exactly the specified two-step revocation |
| Billing.BillingEngine.CancelUser | backend/billing/engine.py:292-298 | performs exactly the specified cancellation, or reports why not and changes nothing |
| Billing.BillingEngine.ActivateInvoice | backend/billing/engine.py:314-352 | creates or renews exactly the payer's subscription and records one activation |
| Billing.BillingEngine.HandlePaymentFailure | backend/billing/engine.py:354-371 | counts the failure and moves exactly the payer's subscription; an unknown payer changes nothing |
| Billing.BillingEngine.HandleRefund | backend/billing/engine.py:373-382 | suspends exactly an ACTIVE payer; an unknown payer changes nothing |
| Webhook.FirstsStable | backend/billing/webhook.py:88-103 | keeping the first accepted delivery of each id is stable: filtering again removes nothing |
| Webhook.VerdictMeans | backend/billing/webhook.py:60-103 | in the delivery's own fields: refused exactly for more than 1 MiB, then a timestamp more than 300 s off, then a signature that does not verify; then skipped exactly for a known id; handed on exactly otherwise if it parses |
| Webhook.RefusedChangesNothing | backend/billing/webhook.py:67-94 | a refused, repeated or unreadable delivery leaves the engine and the seen ids alone and is logged as what it is |
| Webhook.OthersAreHandedOn | backend/billing/webhook.py:96-112 | every other delivery is dispatched and remembered under its id, its invoice or the clock while fewer than 100,000 are, and raises exactly when the engine refuses the transition |
| Webhook.DispatchMeans | backend/billing/webhook.py:114-132 | payment events ask for a confirmation of their invoice; a cancellation cancels the user it names, if any |
| Webhook.UnacceptableInvisible | backend/billing/webhook.py:60-86 | without its oversized, stale and forged deliveries any sequence of deliveries and operations leaves the engine and the seen ids the same |
| Webhook.EngineAppliesFirsts | backend/billing/webhook.py:88-132 | over any sequence of named deliveries and other operations, the engine does exactly what the first accepted delivery of each id and the operations would do without any processor |
| Webhook.ReplaysAreHarmless | backend/billing/webhook.py:88-132 | hence a sequence with replays leaves the engine as the sequence without them would, also when a dispatch failed or raised after its id was recorded |
| Webhook.RepeatRecognisedIff | backend/billing/webhook.py:88-103 | after an accepted delivery and whatever comes in between, a later delivery with the same event id is skipped as a duplicate if and only if the id is not empty and the store of seen ids had room for it |
| Webhook.SeenGrowsAll | backend/billing/webhook.py:88-103 | no run makes the processor forget an id, and a full store learns no new one |
| Webhook.FailureCountedAgainIff | backend/billing/webhook.py:88-132 | a failure report that comes again at any later time leaves the count of failures alone exactly under that condition, and adds one otherwise |
| Webhook.CountedTwiceReachable | backend/billing/webhook.py:88-132 | from an empty engine: an active payer's single failure, reported twice without an event id, is counted twice |
| Webhook.FullStoreReplays | backend/billing/webhook.py:88-103 | once the store of seen ids is full, an id that is not in it is dispatched at every later delivery, whatever comes in between |
| Webhook.DeliveryKeepsInv | backend/billing/webhook.py:60-132 | every billing invariant survives any delivery, forged, stale, replayed or valid |
| Webhook.WebhookProcessor.Process | backend/billing/webhook.py:60-112 | performs exactly the specified gates, replay filter, dispatch and log, with the engine updated in place; a delivery that is too large, stale or not signed leaves engine and seen ids unchanged |
| Webhook.WebhookProcessor.DispatchEvent | backend/billing/webhook.py:114-132 | calls the engine as specified for each kind of event |
| CircuitBreaker.PruningInvisible | backend/circuit_breaker.py:129-138 | pruning at an earlier time loses nothing a later window would count, and windows only shrink with time |
| CircuitBreaker.WindowCounts | backend/circuit_breaker.py:129-138 | the window counts exactly the recorded times less than its length ago |
| CircuitBreaker.WindowHolds | backend/circuit_breaker.py:129-138 | it holds each of those times as often as it was recorded |
| CircuitBreaker.StepKeepsWindow | backend/circuit_breaker.py:124-138 | every operation keeps, whoever reports: at every later time the pruned list shows exactly the failures recorded inside the window since the last success recorded while CLOSED |
| CircuitBreaker.StepKeepsBudget | backend/circuit_breaker.py:159-213 | every operation keeps: a HALF_OPEN episode has admitted the counted calls and the one that opened it, and successes stay below the threshold |
| CircuitBreaker.InvOverRuns | backend/circuit_breaker.py:155-213 | over every run with a non-decreasing clock, whoever reports, both hold, so an episode admits at most half_open_max_calls + 1 calls |
| CircuitBreaker.InvFromStart | backend/circuit_breaker.py:115-138 | the same from a new breaker, with the counted failures equal to those recorded in the window |
| CircuitBreaker.OpensOnlyAtThreshold | backend/circuit_breaker.py:166-173 | OPEN is entered only by a failure that brings the failures ever recorded in the window to the threshold |
| CircuitBreaker.OpensIff | backend/circuit_breaker.py:166-173 | OPEN is entered if and only if a failure makes the failures ever recorded less than the window ago as many as the threshold |
| CircuitBreaker.AdmittedIff | backend/circuit_breaker.py:175-189 | a call is admitted if and only if the breaker is CLOSED, or OPEN with the recovery timeout passed, or HALF_OPEN with an episode that has admitted no more than its budget |
| CircuitBreaker.SuccessMeans | backend/circuit_breaker.py:124-127 | a success forgets the failures exactly while CLOSED |
| CircuitBreaker.ClosesIff | backend/circuit_breaker.py:159-164 | from the start of a HALF_OPEN episode the breaker closes exactly at success_threshold successes in a row |
| CircuitBreaker.NoAdmissionWhileOpen | backend/circuit_breaker.py:175-189 | in OPEN no call at all is admitted before opened_at + recovery_timeout_s, whoever reports whatever meanwhile |
| CircuitBreaker.StuckStays | backend/circuit_breaker.py:159-189 | a stuck breaker refuses the call and stays stuck under every legal operation |
| CircuitBreaker.StuckNeverAdmits | backend/circuit_breaker.py:159-189 | no legal continuation of a stuck state ends with an admitted call |
| CircuitBreaker.FreeAdmits | backend/circuit_breaker.py:159-189 | every state that is not stuck has a legal continuation that admits a call |
| CircuitBreaker.AdmitsIffNotStuck | backend/circuit_breaker.py:159-189 | as long as only admitted calls report, once each, a breaker can ever admit again if and only if it is not stuck |
| CircuitBreaker.StrayReportsClose | backend/circuit_breaker.py:159-164 | the breaker does not enforce that discipline: enough successes that no call owes close any HALF_OPEN breaker, a stuck one included |
| CircuitBreaker.StuckReachable | backend/circuit_breaker.py:105-111 | the default configuration reaches a stuck state with every admitted call reported |
| CircuitBreaker.Breaker.CanExecute | backend/circuit_breaker.py:155-189 | admits and moves to HALF_OPEN exactly as specified |
| CircuitBreaker.Breaker.RecordSuccess | backend/circuit_breaker.py:159-164 | closes exactly when the successes reach the threshold in HALF_OPEN |
| CircuitBreaker.Breaker.RecordFailure | backend/circuit_breaker.py:166-173 | opens exactly when the count reaches the threshold and the breaker is not OPEN |
| LruCache.ByLastTouchFacts | backend/core/cache.py:41-68 | the recency order has no duplicates, holds exactly the touched keys, and ends with the latest touch |
| LruCache.TouchNewest | backend/core/cache.py:41-68 | touching a key commutes with forgetting all but the newest entries |
| LruCache.HoldsMostRecent | backend/core/cache.py:41-68 | without deletion, clearing or expiry the keys held are exactly the last max_size distinct touched keys in touch order, for every size |
| LruCache.StepWellFormed | backend/core/cache.py:41-81 | every operation keeps keys unique and the size at most max_size |
| LruCache.RunWellFormed | backend/core/cache.py:41-81 | the same over every run |
| LruCache.SpareRun | backend/core/cache.py:41-81 | over any run that leaves a key alone and touches fewer than max_size others, the key's entry stays and only keys touched since follow it |
| LruCache.RecentKeyServed | backend/core/cache.py:41-81 | in any run from the empty cache: after the last operation that touches a key, if nothing removes it and fewer than max_size other keys are touched, it is still served with the value and until the end it had then |
| LruCache.LRUCache.GetValue | backend/core/cache.py:41-50 | a hit moves the entry to the end, an expired one is dropped and missed |
| LruCache.LRUCache.SetValue | backend/core/cache.py:52-68 | the eviction loop leaves exactly the newest max_size entries with the new one last |
| LruCache.LRUCache.DeleteKey | backend/core/cache.py:70-75 | removes the key and reports whether it was there |
| TwoLevelCache.NsKeyInjective | backend/core/cache.py:171-172 | within a namespace different keys stay different |
| TwoLevelCache.StepBacked | backend/core/cache.py:174-204 | every operation keeps: L2 holds exactly the plain map, and L1 holds nothing but values of it, with ends that are as set or at most the L2 end plus the write delay and the L1 default |
| TwoLevelCache.RunBacked | backend/core/cache.py:174-204 | the same over every run from empty levels |
| TwoLevelCache.Transparent | backend/core/cache.py:174-198 | without an L2 time to live, a get after any run answers as a plain map would, whatever L1 evicts or expires |
| TwoLevelCache.PromotedOnTime | backend/core/cache.py:174-198 | after a get that misses L1 and finds the key in L2, over any run that neither sets nor deletes the key, every answer is that value and is found no later than its L2 end plus the L1 default plus the longest delay between reading L2 and writing L1, whatever end L1 was given before |
| TwoLevelCache.RunStaysBounded | backend/core/cache.py:174-204 | the run invariant behind it: L2 keeps the entry, and L1 holds the key, if at all, with that value and a non-zero end within the bound |
| TwoLevelCache.OnTimeIff | backend/core/cache.py:160-186 | over runs whose clock does not go back and whose L1 writes come at most a gap after the L2 reading: what is promoted is always served within a slack of its L2 end plus the L1 default if and only if the L1 size is 0, or the L1 default is positive and the slack covers the gap |
| TwoLevelCache.LateAnswer | backend/core/cache.py:55-60 | the run that shows it: a value read from L2 at its end and written to L1 a gap later is served a gap later than the L2 end plus the L1 default |
| TwoLevelCache.PromotedServed | backend/core/cache.py:174-186 | a promoted value is served from L1 until the L1 default has passed since L1 was written, and for ever if the default is 0 |
| TwoLevelCache.StalenessBounded | backend/core/cache.py:174-198 | with an L1 default, over any run, a value is served only while it is the current one, and within the end L1 was given for it or the end L2 was given plus the write delay and the L1 default |
| TwoLevelCache.NamespacesCollideIff | backend/core/cache.py:171-172 | two namespaces can produce one stored key if and only if one of them, with its colon, is a prefix of the other with its colon |
| TwoLevelCache.TwoLevelStore.GetValue | backend/core/cache.py:174-186 | reads L1, then L2, and promotes as specified, each at its own clock reading, with both levels updated in place |
| TwoLevelCache.TwoLevelStore.SetValue | backend/core/cache.py:188-198 | writes both levels with their own expiries |
| TwoLevelCache.TwoLevelStore.DeleteKey | backend/core/cache.py:200-204 | removes the key from both levels |
| Jwt.GroupBits | backend/core/auth.py:45-50 | the four sextets of a group carry its three bytes |
| Jwt.DecodeEncode | backend/core/auth.py:45-50 | padded base64 decoding undoes encoding on every byte string |
| Jwt.UrlRoundTrip | backend/core/auth.py:45-64 | decoding the unpadded base64url text of any byte string gives the byte string back |
| Jwt.PaddedRoundTrip | backend/core/auth.py:45-50 | padded texts and the standard alphabet decode to the same bytes |
| Jwt.SplitAtDot | backend/core/auth.py:71-74 | splitting a text at its dots peels off a first part that has none |
| Jwt.ThreeParts | backend/core/auth.py:71-74 | three parts without dots, joined by dots, are split into exactly those parts |
| Jwt.TokenRoundTrip | backend/core/auth.py:59-85 | verifying a made token with the same secret returns its payload, for every payload, secret and hash |
| Jwt.TokenParts | backend/core/auth.py:59-65 | the parts of a made token decode to the fixed header, the payload's text and the signature over the first two |
| Jwt.AcceptedIff | backend/core/auth.py:68-85 | a token is accepted with a payload if and only if it is three dotless parts whose header asks for HS256, whose signature is the secret's over the first two, and whose middle part decodes to that payload |
| Jwt.ForeignSignatureRefused | backend/core/auth.py:78-81 | a token signed for other content or with another secret is refused unless the hashes agree |
| WalkForward.StrictlyIncreasing | backend/backtest_engine/walk_forward_advanced.py:50-53 | adding at least a month goes forward in time from any day |
| WalkForward.AddMonthsMeans | backend/backtest_engine/walk_forward_advanced.py:50-53 | the result is exactly so many months on, on the same day or on the last day of a shorter month |
| WalkForward.EarlyDayAdds | backend/backtest_engine/walk_forward_advanced.py:50-53 | from a day up to the 28th adding months is additive and keeps the day |
| WalkForward.AdditiveIff | backend/backtest_engine/walk_forward_advanced.py:50-53 | adding months is additive from a date of the calendar, 29 February included, if and only if its day is at most 28 |
| WalkForward.RollingMeetIff | backend/backtest_engine/walk_forward_advanced.py:64-69 | from a day up to the 28th consecutive test windows meet, leave a gap or overlap according to whether the step equals, exceeds or falls short of their length |
| WalkForward.RollingMeans | backend/backtest_engine/walk_forward_advanced.py:64-69 | counted in months from the start: when each rolling window trains and is tested, that each test begins where its training ends, and that the next window would not fit |
| WalkForward.AnchoredMeans | backend/backtest_engine/walk_forward_advanced.py:57-62 | the same for anchored windows, which all train from the start |
| WalkForward.RollingTiles | backend/backtest_engine/walk_forward_advanced.py:64-69 | with a step of one test window, rolling test windows follow one another with no gap and no overlap |
| WalkForward.LateStartLeavesGap | backend/backtest_engine/walk_forward_advanced.py:64-69 | from every later day of the calendar there are rolling windows, a step of one test period apart, of which the first test ends before the second begins |
| WalkForward.RollingTilesIff | backend/backtest_engine/walk_forward_advanced.py:64-69 | with a step of one test period, rolling windows tile for every end and every choice of lengths if and only if the start day is at most 28 |
| WalkForward.ConfigurationTilesIff | backend/backtest_engine/walk_forward_advanced.py:64-69 | for a given start and given lengths they tile for every end if and only if the lengths of the months agree, or suffice for the day, at the first 24 windows |
| WalkForward.CommutesIff | backend/backtest_engine/walk_forward_advanced.py:50-53 | going a and then b months on reaches the same date as b and then a if and only if the months in between are equally long, or long enough for the day that the last month leaves |
| WalkForward.DaySettles | backend/backtest_engine/walk_forward_advanced.py:50-53 | after twelve steps the day of the month does not change any more |
| WalkForward.WholeYearsTile | backend/backtest_engine/walk_forward_advanced.py:46-69 | training over whole years tiles from every day that its month has every year, the default configuration included |
| WalkForward.LeapDayTilesIff | backend/backtest_engine/walk_forward_advanced.py:64-69 | from 29 February, training over whole years tiles if and only if the test periods are whole years too |
| WalkForward.RollingStopsIff | backend/backtest_engine/walk_forward_advanced.py:64-69 | some rolling window does not fit, so the loop stops, if and only if the step is at least 1 or the first window does not fit |
| WalkForward.AnchoredStopsIff | backend/backtest_engine/walk_forward_advanced.py:57-62 | some anchored test starts too late, so the loop stops, if and only if the step is at least 1 or the first one does |
| WalkForward.AnchoredTiles | backend/backtest_engine/walk_forward_advanced.py:57-62 | anchored test windows tile exactly from the first test start to `end`, from any start day |
| WalkForward.TiledCoversOnce | backend/backtest_engine/walk_forward_advanced.py:55-70 | every instant of the tiled span lies in exactly one test window |
| WalkForward.WalkForwardAdvanced.BuildWindows | backend/backtest_engine/walk_forward_advanced.py:55-70 | builds the windows of the chosen mode and terminates |
| WalkForward.WalkForwardAdvanced.BuildAnchored | backend/backtest_engine/walk_forward_advanced.py:57-62 | the loop terminates with all anchored windows whose test starts before `end`, the last one cut there |
| WalkForward.WalkForwardAdvanced.BuildRolling | backend/backtest_engine/walk_forward_advanced.py:64-69 | the loop terminates with all rolling windows that fit before `end`, and no more fit |
| Migration.TerminatesIffRoutable | backend/core/api_versioning.py:408-428 | the mutual recursion ends if and only if the versions are equal, directly linked, or linked step by step, and then its result is the specified one |
| Migration.EarlierRuleWins | backend/core/api_versioning.py:404-416 | a rule registered later is taken only for a pair that has none yet |
| Migration.RenameMeans | backend/core/api_versioning.py:441-444 | with a map of different names, each old name is gone and its value stands under the new one |
| Migration.RenameOthers | backend/core/api_versioning.py:441-444 | every member that the map does not name is as before |
| Migration.RenameOne | backend/core/api_versioning.py:441-444 | one rename moves the value over any value under the new name and leaves the rest alone |
| Migration.ApplyMeans | backend/core/api_versioning.py:430-448 | passing through changes nothing, adding keeps what is there, removing removes exactly the listed members, a transformation is applied |
| Migration.UpAdds | backend/core/api_versioning.py:408-448 | where going up only adds, by a direct rule or step by step, it keeps every member and adds exactly the missing ones of what the rules add |
| Migration.DownRemoves | backend/core/api_versioning.py:408-448 | where going down only removes, it removes exactly what the rules taken remove |
| Migration.LadderCovered | backend/core/api_versioning.py:418-448 | where each step down removes what the step up adds and no direct rule is taken instead, going down removes everything going up adds |
| Migration.DownAfterUp | backend/core/api_versioning.py:418-448 | then down after up returns the document without the removed members, so the document itself if and only if it has none of them; rules for other pairs do not matter |
| Migration.RoundTripIff | backend/core/api_versioning.py:408-448 | where going up only adds and going down only removes, by direct rules that skip versions or step by step, down after up holds for every document if and only if everything added is among the removed |
| Migration.DefaultRulesLadder | backend/core/api_versioning.py:377-402 | the V1, V2, V3 rules are an instance, between any two versions |
| Migration.DefaultAdded | backend/core/api_versioning.py:377-389 | the members a V1 document gains on the way to V3 |
| Migration.DefaultRemoved | backend/core/api_versioning.py:377-402 | the members a V1 document can lose on the way to V3 and back |
| Migration.ResponseMigrator.MigrateDoc | backend/core/api_versioning.py:408-416 | for routable pairs, terminates with the specified document |
| Migration.ResponseMigrator.StepMigrate | backend/core/api_versioning.py:418-428 | walks the adjacent versions as specified; the recursion ends by distance |
| Migration.ResponseMigrator.ApplyRule | backend/core/api_versioning.py:430-448 | the loops over defaults, removals and renames give the specified document |
| Registry.EvictConsistent | backend/api/websocket_manager.py:136-142 | eviction removes exactly one connection and keeps both indexes telling the same story within the caps |
| Registry.ConnectBelowCap | backend/api/websocket_manager.py:54-68 | below the user's cap the only refusal is a full registry, nothing is lost, and the registry stays consistent |
| Registry.ConnectAtCap | backend/api/websocket_manager.py:54-68 | a user at the cap is always accepted by losing an oldest connection of the same user, even in a full registry |
| Registry.OwnerKeeps | backend/api/websocket_manager.py:54-68 | an accepted connection joins its user's latest five and costs exactly the earliest of them |
| Registry.OthersKeep | backend/api/websocket_manager.py:54-68 | a connection of one user leaves every other user's alone |
| Registry.ConnectDetermined | backend/api/websocket_manager.py:58-61 | with strictly increasing connect times there is one oldest connection, so the choice among the set's members cannot matter |
| Registry.LatestFiveSurvive | backend/api/websocket_manager.py:54-68 | over any run of connections with strictly increasing times, each user's connections are exactly that user's latest five accepted ones |
| Registry.LatestFiveFromEmpty | backend/api/websocket_manager.py:48-68 | the same from an empty registry |
| Registry.StepConsistent | backend/api/websocket_manager.py:54-145 | every locked section keeps the indexes in agreement and the caps, and changes no connection but the one it draws, evicts or notes a pong for |
| Registry.ConsistentFromEmpty | backend/api/websocket_manager.py:48-145 | over every run of connects, disconnects, evictions and pongs in any order from an empty registry the indexes agree and the caps hold |
| Registry.RoundClears | backend/api/websocket_manager.py:117-122 | with anything between the separately locked evictions of a ping round, no connection that was evicted is left at its end |
| Registry.NotEvictedStays | backend/api/websocket_manager.py:117-145 | a connection that nobody evicts by name or to make room outlives every ping round up to 40 s after a time since which all its pings are good, and keeps all but its ping time |
| Registry.SilentGoes | backend/api/websocket_manager.py:117-122 | a connection without a further pong does not outlive a round more than 40 s after its last one |
| Registry.FortySeconds | backend/api/websocket_manager.py:36-45 | both for a connection accepted or ponged at t: it outlives every uninterrupted round up to t + 40 and, without a later pong, none after |
| Registry.HeardIsNoted | backend/api/websocket_manager.py:54-68 | accepting a connection notes its socket, user, topics and the time as connect and ping time; a pong notes its time |
| Registry.RemainingStep | backend/api/websocket_manager.py:136-142 | evicting one more connection gives what remains without it, so the order of evictions does not matter |
| Registry.WebSocketManager.ConnectSocket | backend/api/websocket_manager.py:54-68 | connects by evicting an oldest connection at the cap and none below it, notes the new connection in full, refuses exactly a user below the cap in a registry of 500, and keeps the registry consistent |
| Registry.WebSocketManager.Disconnect | backend/api/websocket_manager.py:70-73 | evicts exactly one connection of the socket, or changes nothing when it has none |
| Registry.WebSocketManager.EvictConn | backend/api/websocket_manager.py:136-142 | removes the connection from both indexes, and the user's set with its last connection |
| Registry.WebSocketManager.HandleBroken | backend/api/websocket_manager.py:144-145 | evicts exactly the broken connection and keeps consistency |
| Registry.WebSocketManager.EvictStale | backend/api/websocket_manager.py:117-122 | a round of stale eviction that nothing interrupts leaves exactly the connections with at most 40 s since their last good ping, unchanged, in both indexes |
| Backtest.FirstTouch | backend/backtest_engine/multi_symbol_engine.py:329-342 | the first bar that touches stop or target, and no earlier one does |
| Backtest.SignalExtends | backend/backtest_engine/multi_symbol_engine.py:236-241 | no look-ahead: the signal at a bar does not depend on later candles |
| Backtest.SimulatedExtends | backend/backtest_engine/multi_symbol_engine.py:308-353 | with more candles and any other balance, the same signal opens the same trade, and a resolved one keeps its exit |
| Backtest.CommonBarsStable | backend/backtest_engine/multi_symbol_engine.py:232-247 | two runs, on a series and on an extension of it, open corresponding trades on their common bars |
| Backtest.LaterBarsAppend | backend/backtest_engine/multi_symbol_engine.py:232-247 | later bars only append trades, opened at those bars |
| Backtest.ExtensionStable | backend/backtest_engine/multi_symbol_engine.py:232-247 | appending candles never changes entry bar, price, stop, target or direction of a trade, nor exit bar, price, pips and outcome of one resolved WIN or LOSS; an open one can only resolve at a new bar; new trades come from new bars |
| Backtest.TradesInOrder | backend/backtest_engine/multi_symbol_engine.py:232-247 | at most one trade a bar, in order of entry, closed no earlier than opened and within the series |
| Backtest.ExitsExplained | backend/backtest_engine/multi_symbol_engine.py:317-342 | every trade comes from the valid signal at its bar and ends at the first later touch, at the stop if one bar touches both, or at the last close |
| Backtest.StoppedOutLoses | backend/backtest_engine/multi_symbol_engine.py:295-353 | with costs that are not negative, a valid trade that is stopped out never gains, and without slippage one that reaches its target never loses pips |
| BacktestLaws.RoundNear | backend/backtest_engine/multi_symbol_engine.py:327-353 | rounding moves a number by half a unit at most, and one half way to the even neighbour |
| BacktestLaws.SizedMeans | backend/backtest_engine/multi_symbol_engine.py:326-327 | the lot is between 0.01 and 10; within the bounds lot times cost per lot is the amount to risk up to half a hundredth of a lot, and at a bound the wanted lot is beyond it |
| BacktestLaws.TradeMeans | backend/backtest_engine/multi_symbol_engine.py:308-353 | every simulated trade is sized so for the balance, and is booked at the slipped entry and its exit, paying for the move between them less commission, up to half a unit of rounding |
| BacktestLaws.StopLosesTheRisk | backend/backtest_engine/multi_symbol_engine.py:323-346 | a valid trade stopped out loses the percentage of the balance put at risk and the commission, up to the rounding, unless its lot is at a bound |
| BacktestLaws.ValidIff | backend/backtest_engine/multi_symbol_engine.py:295-305 | a signal is valid if and only if its prices are positive and on the right sides of the entry and its reward is at least the ratio times its risk |
| BacktestLaws.TradedIff | backend/backtest_engine/multi_symbol_engine.py:232-246 | a run trades at exactly the bars after the first whose signal, from the bar and the fifty candles before it, is valid and leaves the entry off the stop |
| BacktestLaws.RiskLaw | backend/backtest_engine/multi_symbol_engine.py:232-247 | every trade of a run was worth taking, is sized for the initial balance plus the results of all earlier trades, and is paid for its move |
| Backtest.BalanceConserved | backend/backtest_engine/multi_symbol_engine.py:232-246 | the balance is the initial balance plus the rounded profits and losses of all trades |
| Backtest.Simulate | backend/backtest_engine/multi_symbol_engine.py:308-353 | the candle loop computes exactly the trade that ends at the first touch |
| Backtest.RunSymbol | backend/backtest_engine/multi_symbol_engine.py:224-247 | the bar loop computes exactly the specified trades, with the balance conserved |

## Left out

- Records held in dictionaries (artifacts, subscriptions, invoices, connections) are values that a method replaces, so a caller that keeps a returned record does not see later changes, as it would in the original; the shared mutable `{}` and `[]` defaults of the migration rules are values for the same reason.
- Cryptography, JSON and msgpack: the keyed hash of the audit chains, the checksum and the artifact signature are free constructors; the token codec takes hash, JSON writer and JSON reader as parameters, and the base64 decoder is the lenient one of the Python library.
- Floating point: prices and breaker times are exact reals, cache and log times are integers. Python's `round` is half-to-even on the exact value. A billing operation reads the clock once.
- Identifiers drawn at random are parameters assumed fresh where the source relies on it. The mock provider, which cuts ids to eight characters, does not meet that assumption.
- Severity and category tables, license keys, callbacks, hooks, alerts, log and audit detail texts, notification and export code.
- Interleaving inside a locked section; `TwoLevelCache` is sequential, since its levels have separate locks, and store change and audit entry of `ArtifactGovernance` are one step.
- `TwoLevelCache` without Redis (plain `LRUCache`), Redis failures, `None` values, and negative sizes or times to live. The second level serves an entry up to and including its expiry time.
- `WalkForward`: Python's limit on years, the fitness and stability scores and `run`.
- WalkForward.WalkForwardAdvanced.BuildWindows: needs a step of at least 1 or a range in which no window fits, because otherwise the original does not return: with 0 it loops for ever, with less it goes back in time until the calendar ends.
- Migration.ResponseMigrator.MigrateDoc: needs a routable pair, because without one the original recurses until Python stops it.
- Migration.RoundTripIff: is about rules that add on the way up and remove on the way down; renaming and transforming rules have no inverse in general.
- Backtest.RunSymbol: with a pip value of 0 needs every valid signal to be without risk, because otherwise the original divides by zero and raises. Symbol and timeframe are constants of the run, times are texts, and ratios, drawdown, per-symbol aggregation and `run_multi` are not modelled.
- CircuitBreaker.AdmitsIffNotStuck: assumes that only admitted calls report, once each, which is up to the callers.
- Registry.WebSocketManager.Disconnect: a socket is its name; broadcasting, subscriptions and the sending of pings are not modelled.
- Billing.BillingEngine.CheckoutPlan: the provider's answer is a parameter; currencies other than the three accepted ones and the provider's URLs are not modelled.
- Webhook.WebhookProcessor.Process: an error other than a missing key or a refused transition during dispatch is not modelled.
- Artifact queries, listing, revocation by type, compatibility rules, the compliance reports; version negotiation, deprecation notices and schemas; token settings and scopes.
