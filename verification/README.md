# Billing and quota model of the AI gateway

The gateway forwards chat requests to upstream providers and charges them to prepaid credits, to a
pay-as-you-go balance or to a subscription quota. Requests reserve what they may cost, settle what
they used, and give back the rest, while sync jobs, sweeps and a pruning job rewrite the same rows
and counters. The model states what stays true of those rows and counters in every interleaving,
what a response stream may look like to a client, and which debits reach the billing application.

Each SQL statement, transaction or Redis command is one atomic step. A step that is not enabled
changes nothing, so a property of all sequences of steps is a property of all interleavings. Code
that changes a row, a counter or a buffer step by step is a class or a method with loops, proved
equal to the function the properties are about.

| file | what it models |
|---|---|
| `UsageRollup.dfy` | the usage ledger, its daily rollup with pruning, and the dashboards that read both |
| `CreditLedger.dfy`, `CreditPricing.dfy` | a balance row with reservations, and the 20,000-token price buckets |
| `QuotaCounter.dfy`, `QuotaPeriod.dfy` | token quota rows keyed by period and the migration of a period's end, and the limit over all ends of a period |
| `RpmWindow.dfy`, `SlotCounters.dfy` | the per-minute window script, and counters that increment first and undo on rejection |
| `Entitlements.dfy`, `EntitlementOrder.dfy` | the entitlement table, its constraints and the sync of purchases, and what an order of purchases leaves stored |
| `PriorityBilling.dfy` | the reservation chain of a request and its settlement |
| `BillingRuns.dfy`, `BillingSettled.dfy`, `BillingUpkeep.dfy`, `BillingAlone.dfy` | many requests in any interleaving of their statements, what they leave behind, the same beside sweeps, syncs and repeated releases, and one request alone |
| `RequestSlots.dfy`, `RequestLifecycle.dfy` | the slots taken before a request, and every path through the two chat handlers |
| `CallbackRetry.dfy`, `DebitReplay.dfy`, `Amounts.dfy`, `Decimal.dfy` | the debit queue and its worker, and the replay of debits from the ledger |
| `SseBuffer.dfy`, `SseMarkers.dfy`, `SseStreams.dfy`, `Heartbeats.dfy` | cutting, stripping and rewriting of server-sent event streams |
| `ToolHistory.dfy` | the validator of tool calls and results |
| `Sums.dfy`, `Text.dfy` | sums over rows; trimming, searching and splitting text |

`dafny verify dfyconfig.toml` checks the whole project.

## Units and inputs

Credits count ten-thousandths and credit prices millionths of a credit, tokens are whole numbers,
and PAYG amounts are exact, but for the six decimals to which `DebitReplay` rounds what the ledger
holds and `CallbackRetry` what the queue holds (`Amounts.Micro`). Times are
seconds or milliseconds since the epoch. The clock, the answers of upstream servers, the success of
each store write, JSON decoding of tool arguments and the completion state of a response body are
inputs. The constraints of the entitlement table are facts of the database: its primary key, the
foreign key on the plan code and the unique index on user and plan
(`internal/database/migrations/00001_init_ai_gateway.sql:24-40`), the balance checks and the index on
active unlimited rows (`internal/database/migrations/00005_credit_balance.sql:32-61`), and the indexes
on active credit and pay-as-you-go rows
(`internal/database/migrations/00018_consolidate_credit_package_rows.sql`).

## Where the code and its comments disagree

The model follows the code.

- A unique-index race in the entitlement upsert is said to be retried on the update path; the
  insertion just fails (`internal/service/postgres_store.go:530-673`, `Entitlements.LateInsertFails`).
- When a subscription changes its plan, a row is meant to be inserted for the new plan and the old one
  demoted; sent under the id of the old row the purchase is refused
  (`EntitlementOrder.SameIdOtherPlanIff`).
- All provider-started markers are meant to be removed from a stream; two of the four leave a part
  behind (`SseMarkers.WrappedLeavesPrefix`, `SseMarkers.ClaudeLeavesEventLine`).
- A user who repays a debt is meant to keep a quarter of the cap; with a cap of one or two the
  effective cap can be zero, which does not limit at all (`RequestSlots.UncountedIff`).
- When no candidate was reached the slots are released so that the user is not penalised, but the
  durable request count goes up (`RequestLifecycle.KeptIffCounted`).
- The deferred release is meant for exits before settlement; it also follows a settlement that failed
  half way, and then releases counters a second time (`RequestLifecycle.ReleasedTwiceIff`).
- Dashboards are meant to be exact for any window; they are for midnights and for windows above the
  floor (`UsageRollup.DashboardsAgreeIff`).

## Model

| member | source | states |
|---|---|---|
| `UsageRollup.DashboardsAgree` | internal/service/postgres_store.go:1713-1971 | after every run of appends (today or yesterday), clock advances, dry and real rollups with any retention, overlapping or stopped between any two days, every dashboard group shows exactly what the never-pruned ledger would, without a lower bound or from a UTC midnight on |
| `UsageRollup.DashboardsAgreeIff` | internal/service/postgres_store.go:1727-1768 | for any other lower bound a metric is right if and only if every pruned request of the group that lies on its day before it weighs nothing in that metric, where none weighs less than nothing; so the request count is right if and only if there is none |
| `UsageRollup.DashboardsAgreeAboveFloor` | internal/service/postgres_store.go:1727-1768 | a lower bound on or after the oldest raw day is always answered exactly |
| `UsageRollup.MidDayOvercounts` | internal/service/postgres_store.go:1727-1768 | a concrete run in which a mid-day lower bound inside a pruned day overcounts |
| `UsageRollup.RunKeepsInv` | internal/service/postgres_store.go:1840-1971 | in every run the ledger is the history without the pruned days, pruned days lie below all raw rows, and every rollup row of a pruned day is the aggregate of its history |
| `UsageRollup.RawColumnsAgree` | internal/service/postgres_store.go:1719-1793 | grouping by the raw columns selects the same requests as grouping by the key of their rollup row |
| `UsageRollup.EligibleDays` | internal/service/postgres_store.go:1840-1871 | the days to roll up are the distinct days older than the cutoff that have raw rows, oldest first |
| `UsageRollup.FloorDay` | internal/service/postgres_store.go:1728-1732 | a day is below the floor exactly when every raw row is younger |
| `UsageRollup.UsageStore.RollupOneDay` | internal/service/postgres_store.go:1893-1971 | one transaction upserts the groups of a day, overwriting, and deletes its raw rows unless dry; the counts it reports are the rows of the day and the rows deleted |
| `UsageRollup.UsageStore.RollupAndPrune` | internal/service/postgres_store.go:1840-1891 | the job processes the eligible days in order up to the first that fails, and keeps the days before it |
| `UsageRollup.JobIsARun` | internal/service/postgres_store.go:1840-1891 | the job stopped after any number of days is a run of the transition system |
| `CreditLedger.RunKeepsSound` | internal/service/postgres_store.go:1182-1295 | in every interleaving of reserves, finalizes (also repeated), sweeps and balance syncs: balance >= 0 and 0 <= reserved <= sum of the outstanding reservations |
| `CreditLedger.RunKeepsExact` | internal/service/postgres_store.go:1182-1295 | with each reservation finalized at most once, and sweeps only while none is outstanding, exactly the outstanding reservations are held back |
| `CreditLedger.RunConserves` | internal/service/postgres_store.go:1182-1234 | when moreover no sync lowers the balance and no settlement exceeds its reservation: reserved <= balance always, no debit is clamped, and the balance lost is exactly the sum settled |
| `CreditLedger.PricedRunsConserve` | internal/handler/gateway_handler.go:1561-1589 | 20,000-token bucket pricing meets that hypothesis whenever a request is billed for at most the estimated tokens |
| `CreditLedger.SecondReleaseHarmlessIff` | internal/service/postgres_store.go:1209-1235 | finalizing a reservation twice changes nothing if and only if no other reservation is outstanding |
| `CreditLedger.SweepHarmlessIff` | internal/service/postgres_store.go:1429-1454 | a sweep leaves the row exact, indeed unchanged, if and only if no reservation is outstanding |
| `CreditLedger.SweepOvercommits` | internal/service/postgres_store.go:1429-1454 | what it costs otherwise, on one run: 20 is settled with 10 debited |
| `CreditLedger.BalanceRow.Reserve` | internal/service/postgres_store.go:1182-1207 | the guarded reserve: granted exactly when the free balance covers it |
| `CreditLedger.BalanceRow.Finalize` | internal/service/postgres_store.go:1209-1235 | release and debit, both clamped at zero |
| `CreditLedger.BalanceRow.ReleaseStale` | internal/service/postgres_store.go:1429-1454 | the sweep clears the reservations of a stale row |
| `CreditLedger.BalanceRow.SyncBalance` | internal/service/postgres_store.go:908-960 | the absolute balance pushed by the billing application replaces the balance and leaves the reservations |
| `CreditPricing.ActualWithinReservation` | internal/handler/gateway_handler.go:1561-1589 | a request billed for no more tokens than estimated costs no more than it reserved |
| `CreditPricing.ActualWithinReservationIff` | internal/handler/gateway_handler.go:1565-1589 | from a ten-thousandth of a credit per bucket on, it does so exactly when its buckets do not exceed the estimate's |
| `QuotaCounter.RunConserves` | internal/service/postgres_store.go:1059-1101 | in every interleaving of reserve, finalize, increment, sweep and period-end migration, also with a finalize on an end already folded away, the rows of a period hold exactly the tokens and requests settled in it |
| `QuotaCounter.MigrationConsolidates` | internal/service/postgres_store.go:1499-1564 | a migration leaves the rows of a period only at the new end, touches no other period, and repeating it changes nothing |
| `QuotaCounter.MigrationCarriesEverything` | internal/service/postgres_store.go:1499-1564 | after a migration to a period's new end, the row there holds every token and request ever settled in the period |
| `QuotaCounter.QuotaStore.CarryQuotaCounterOnExtension` | internal/service/sync_service.go:101-126 | an active entitlement with a token quota and both dates migrates its period to its end; any other leaves the counters alone |
| `QuotaCounter.CallsStayWithin` | internal/service/postgres_store.go:1059-1101 | for one key, without sweeps or migrations and with each reservation finalized once, every interleaving keeps used + reserved <= limit + what settlements used beyond their reservations, first-row creation included |
| `QuotaPeriod.RunStaysWithin` | internal/service/postgres_store.go:1059-1564 | in every run over all ends of a period, with sweeps, migrations, counted increments and settlements repeated or made on a folded end: used + outstanding <= limit + what settlements overshot + what other ends held when a reservation was granted + the reservations that were dropped |
| `QuotaPeriod.TidyRunsStayWithin` | internal/service/postgres_store.go:1059-1564 | so with any number of migrations and sweeps that meet nothing reserved where they clear, settlements that are not repeated, and grants only while no other end holds anything, only overshooting settlements pass the limit |
| `QuotaCounter.MigrationKeepsReservationsIff` | internal/service/postgres_store.go:1499-1564 | a migration keeps what a period holds back if and only if no other end has a reservation |
| `QuotaCounter.MigrationForgetsReservations` | internal/service/postgres_store.go:1499-1564 | what it costs otherwise, on one run: a limit of 100 lets 200 through |
| `QuotaCounter.SumColumn` | internal/service/postgres_store.go:1510-1530 | the totals over the other ends of a period are their column sums |
| `QuotaCounter.QuotaStore.ReserveTokens` | internal/service/postgres_store.go:1059-1081 | the upsert that reserves tokens only while used + reserved + tokens stays within the limit |
| `QuotaCounter.QuotaStore.FinalizeTokens` | internal/service/postgres_store.go:1083-1101 | the upsert that releases a reservation, clamped, and adds used tokens and a request |
| `QuotaCounter.QuotaStore.MigratePeriodEnd` | internal/service/postgres_store.go:1499-1564 | folds the other ends of a period into the target and deletes them, and reports a move exactly when one of them had tokens or requests |
| `RpmWindow.AnyMinuteAdmits` | internal/service/rate_limit_service.go:30-49 | from every stored key whose number is at least one, as the script leaves it, and from none, every timed run admits at most 2 * limit - 1 calls in any 60 seconds |
| `RpmWindow.BoundIsReached` | internal/service/rate_limit_service.go:30-49 | for every limit a run reaches that bound |
| `RpmWindow.WindowAdmitsLimit` | internal/service/rate_limit_service.go:30-49 | from the call that opens a window at most limit calls are admitted in it |
| `RpmWindow.RpmCounter.CheckRPM` | internal/service/rate_limit_service.go:97-110 | a rejected call leaves the key as it was; a key without an expiry admits and is healed |
| `SlotCounters.HoldersWithinLimit` | internal/service/rate_limit_service.go:270-291 | with increment, compare and undo as separate steps of any number of requests, the counter is the holders plus those still to compare or undo, and at most limit requests hold a slot |
| `SlotCounters.SpentWithinLimit` | internal/service/rate_limit_service.go:498-527 | settled plus in-flight plan credits never exceed the limit by more than the settlements overshot |
| `SlotCounters.CounterDoesNotDrift` | internal/service/rate_limit_service.go:270-291 | once every rejected request has undone its increment the counter is exactly what the admitted ones hold |
| `SlotCounters.RejectedIff` | internal/service/rate_limit_service.go:270-291 | a request of any amount is rejected exactly when, at its increment, what is granted (held, settled or already won) and what the doomed have not undone together leave no room for it |
| `SlotCounters.LoweredCounterAdmitsMore` | internal/service/rate_limit_service.go:465-496 | a counter lowered below what is spent, as a second release lowers it, lets that much more past the limit without any settlement overshooting |
| `SlotCounters.SpuriousRejection` | internal/service/rate_limit_service.go:270-291 | one such interleaving, in which nobody holds the slot |
| `SlotCounters.Counter.Check` | internal/service/rate_limit_service.go:465-483 | increment, compare, undo: admitted exactly when the amount fits, unchanged otherwise |
| `SlotCounters.Counter.Finalize` | internal/service/rate_limit_service.go:485-496 | replaces a reservation by what was used |
| `Entitlements.SyncKeepsInv` | internal/service/postgres_store.go:496-814 | every sequence of upserts, failed ones included, keeps (user, plan code) unique, every plan code known, no balance negative, and at most one active row per user for credits, for pay-as-you-go and for the two spellings of unlimited together |
| `Entitlements.PlanPathCommitsIff` | internal/service/postgres_store.go:675-814 | the plan-keyed path never collides with a unique index: it fails exactly when the plan code has no snapshot, a balance is negative, or a row would be inserted under an id that is taken |
| `Entitlements.SinglePathCommitsIff` | internal/service/postgres_store.go:538-673 | the single-row path commits exactly when no active row of another group holds the plan code, the plan code has a snapshot, the balances it writes are not negative, and an inserted row has a free id |
| `Entitlements.LateInsertFails` | internal/service/postgres_store.go:530-613 | an insertion that another transaction's active row of the group has overtaken is refused |
| `Entitlements.ActiveSubscriptionWins` | internal/service/postgres_store.go:675-732 | after an active unlimited upsert the user's one active unlimited row is that purchase, if it can be stored; otherwise nothing has changed, no demotion either |
| `EntitlementOrder.UpsertKeepsStoredIff` | internal/service/postgres_store.go:675-814 | an upsert leaves a stored active plan purchase stored if and only if it cannot be stored itself or does not displace it, that is unless it is of the same plan and not known to be an older, ended one, or an active subscription of another plan where the stored one is a subscription |
| `EntitlementOrder.EndedPurchaseKeepsIff` | internal/service/postgres_store.go:734-760 | an ended purchase of the plan leaves it stored if and only if it is refused for a negative balance, or both starts are known and its own is strictly earlier |
| `EntitlementOrder.SyncOrderIsIrrelevant` | internal/service/postgres_store.go:734-814 | from every stored state in which its id is its own, syncing any purchases of a pool in any order and with any repetition ends with an active purchase stored whose values fit and which nothing in the pool displaces or robs of its id |
| `EntitlementOrder.EveryOrderStoresIff` | internal/service/postgres_store.go:675-814 | where a purchase comes under one id, every order of a batch stores it from every such state if and only if its values fit and nothing in the batch that fits displaces it or takes its id |
| `EntitlementOrder.EveryBatchStoresIff` | internal/service/postgres_store.go:675-814 | the same for every batch made of a pool of purchases, with any repetition, and without a condition on ids |
| `EntitlementOrder.SameIdOtherPlanIff` | internal/service/postgres_store.go:675-814 | a purchase that keeps the id of a stored row and changes its plan is refused, unless the new plan has a row already |
| `EntitlementOrder.BalanceSyncOrderIsIrrelevant` | internal/service/postgres_store.go:538-673 | a balance purchase whose values fit and whose id is its own is stored with the balance it was sent with, whatever the order, unless an active row of another group already holds its plan code |
| `EntitlementOrder.BalanceUpserted` | internal/service/postgres_store.go:538-673 | a balance that was not sent is left as it was, and so are the reservations of the row |
| `EntitlementOrder.UnknownStartOverwrites` | internal/service/postgres_store.go:734-760 | from every stored state, an ended purchase with an unknown start, or with the same one, overwrites the active purchase when it is synced after it |
| `Entitlements.EntitlementStore.Upsert` | internal/service/postgres_store.go:496-529 | one upsert commits exactly when the unique indexes, the primary key, the foreign key and the balance checks allow its result, and changes nothing otherwise |
| `Entitlements.EntitlementStore.SyncCustomerEntitlements` | internal/service/sync_service.go:67-92 | exactly the items that cannot be stored in their turn are reported, in order, and the batch goes on; a complete plan-keyed item without an id fails only on its values |
| `SseBuffer.EmissionIsLossless` | internal/handler/error_sanitize.go:377-399 | for every split of a stream into chunks, the released pieces followed by the pending bytes are the input, every piece ends an event, and no complete event is held back |
| `SseBuffer.StartedIsSplitIndependent` | internal/handler/error_sanitize.go:401-415 | whether the provider counts as started depends on the stream alone |
| `SseBuffer.CutIsSplitIndependentIff` | internal/handler/error_sanitize.go:480-491 | what is pending in the end is what follows the cut of the whole stream for every split of it, if and only if no event boundary ends inside the last one |
| `SseBuffer.CutDependsOnSplit` | internal/handler/error_sanitize.go:480-491 | one such stream, with a run of three line breaks |
| `SseBuffer.CutPoint` | internal/handler/error_sanitize.go:480-491 | the cut ends on an event boundary and leaves none behind it |
| `SseBuffer.SseRewriteBuffer.Append` | internal/handler/error_sanitize.go:377-390 | appending keeps the buffer state and releases the stripped, rewritten piece |
| `SseBuffer.SseRewriteBuffer.Flush` | internal/handler/error_sanitize.go:392-399 | flushing releases what is pending |
| `SseBuffer.SseRewriteBuffer.StripProviderStartedMarker` | internal/handler/error_sanitize.go:401-415 | removes the markers in list order and remembers that one was seen |
| `SseMarkers.StripsOpenAi` | internal/handler/error_sanitize.go:371-374 | the OpenAI marker between clean events is removed exactly |
| `SseMarkers.StripsLegacy` | internal/handler/error_sanitize.go:371-374 | so is the plain legacy comment |
| `SseMarkers.WrappedLeavesPrefix` | internal/handler/error_sanitize.go:401-415 | of the wrapped comment the prefix always stays behind, because its suffix is removed first |
| `SseMarkers.ClaudeLeavesEventLine` | internal/handler/error_sanitize.go:401-415 | of the Claude marker the event line always stays behind, for the same reason |
| `SseStreams.StripsEveryMarker` | internal/handler/error_sanitize.go:401-415 | of a stream with any number of OpenAI and plain legacy markers among lines without a token, stripping leaves exactly the lines |
| `SseStreams.StrippingIsSplitIndependent` | internal/handler/error_sanitize.go:377-415 | however such a stream is split into chunks, the pieces released and the rest flushed, each stripped by itself, make up exactly its lines |
| `Heartbeats.ReplaceCommentHeartbeats` | internal/handler/error_sanitize.go:429-478 | the loop over split events computes the rewriting of the blocks that empty lines delimit |
| `Heartbeats.SplitFindsBlocks` | internal/handler/error_sanitize.go:433-437 | splitting at double line breaks finds the same events as delimiting at empty lines (WHATWG HTML, section 9.2) |
| `Heartbeats.PrintReadsBack` | internal/handler/error_sanitize.go:467-470 | reading the printed output gives back exactly the printed events |
| `Heartbeats.OutputReadsBack` | internal/handler/error_sanitize.go:429-478 | when something was replaced, the output reads back as the rewritten events in order |
| `Heartbeats.PayloadsStayInOrder` | internal/handler/error_sanitize.go:441-471 | position by position, a payload event keeps its non-comment lines and a comment-only event becomes exactly one no-op event, also where a payload event equals the no-op |
| `Heartbeats.NoCommentLeft` | internal/handler/error_sanitize.go:429-478 | no comment line is left, whatever came in, and text without one is unchanged |
| `Heartbeats.ReplacingIsIdempotent` | internal/handler/error_sanitize.go:429-478 | replacing twice is replacing once |
| `Heartbeats.NoOpIsGood` | internal/handler/error_sanitize.go:454-466 | the no-op events of both protocols hold no comment and no stray line break |
| `ToolHistory.ValidateToolHistory` | internal/handler/tool_validation.go:58-148 | accepts a history if and only if declarations are well formed and unique, call ids are non-empty and distinct with a name and valid arguments, and results correspond one to one to calls of strictly earlier messages; every reported issue is a real one |
| `ToolHistory.CollectDeclaredTools` | internal/handler/tool_validation.go:150-191 | accepts exactly well-formed, uniquely named declarations, nameless hosted tools excepted, and tabulates their schemas |
| `ToolHistory.DeclareTool` | internal/handler/tool_validation.go:153-190 | one declaration is refused, passed over or entered, with the code of the first check that fails |
| `ToolHistory.PassDecides` | internal/handler/tool_validation.go:66-98 | the one-pass map goes on exactly while the history read so far is consistent in the declarative sense |
| `ToolHistory.RegisterEntry` | internal/handler/tool_validation.go:66-98 | registering one call or result checks id, duplicate, name and arguments, or match, order and duplicate, in that order |
| `ToolHistory.EntriesInOrder` | internal/handler/tool_validation.go:100-139 | the calls and results are taken in the order of their messages |
| `ToolHistory.PrefixConsistent` | internal/handler/tool_validation.go:84-98 | a consistent history is consistent up to every point, so a failure in the middle is final |
| `ToolHistory.CompleteIffAnswered` | internal/handler/tool_validation.go:141-146 | every call has a result exactly when every entry of the map is marked |
| `CallbackRetry.AtMost24Posts` | internal/service/callback_retry.go:82-171 | in every run whose queue writes succeed no row is posted more than 24 times |
| `CallbackRetry.RunKeepsInv` | internal/service/callback_retry.go:93-171 | in every run the posts of a row are its attempts plus the outcomes that were not stored, a pending row has fewer than 24 attempts, an abandoned one exactly 24, and the receiver debits no key twice |
| `CallbackRetry.FailingRowIsAbandoned` | internal/service/callback_retry.go:144-171 | a row whose deliveries fail in any retriable ways, each made at any time after it is due, is posted exactly 24 times and then abandoned |
| `CallbackRetry.TerminalRowsStay` | internal/service/postgres_store.go:2665-2744 | an abandoned or permanently failed row is never posted, changed or removed again |
| `CallbackRetry.RunLosesNone` | internal/service/genfity_callback.go:137-188 | when insertions succeed, every requested debit was made or is still in the queue |
| `CallbackRetry.DebitsHaveTheirAmount` | internal/service/genfity_callback.go:137-188 | whichever post lands first, in process or from the queue, the debit is the settled amount up to half a millionth of a dollar, and exactly the settled amount if that is credits or whole millionths |
| `CallbackRetry.QueuedDebitIsExactIff` | internal/service/genfity_callback.go:166-178 | a debit that the queue delivers is the settled amount if and only if that is credits or whole millionths |
| `Amounts.StoredExactIff` | internal/service/genfity_callback.go:166-178 | a positive amount is queued as it is if and only if it is credits or whole millionths of a dollar |
| `Amounts.StoredIsNear` | internal/service/genfity_callback.go:166-178 | otherwise it is off by at most half a millionth, and queued as nothing exactly below that |
| `CallbackRetry.BackoffIsExact` | internal/service/callback_retry.go:156-163 | for every attempt the worker retries after, the wait is min(2^(n+1) s, 600 s), between 2 s and 600 s, without 64-bit overflow |
| `CallbackRetry.BackoffNeverShrinks` | internal/service/callback_retry.go:156-163 | the waits are non-decreasing |
| `CallbackRetry.BackoffOverflows` | internal/service/callback_retry.go:156-163 | without the limit on attempts the doubling would overflow into a negative wait |
| `CallbackRetry.Worker.EnqueuePendingCallback` | internal/service/postgres_store.go:2665-2681 | an insertion leaves an existing row of the same request and mode alone |
| `CallbackRetry.Worker.PostUsageDebitAsync` | internal/service/genfity_callback.go:137-188 | up to three posts in process, then one insertion |
| `CallbackRetry.Worker.ListDuePendingCallbacks` | internal/service/postgres_store.go:2683-2714 | the due rows by time, as many as the limit allows, none passed over for a later one |
| `CallbackRetry.Worker.Deliver` | internal/service/callback_retry.go:93-171 | success deletes the row, a permanent refusal or the 24th failure ends it, any other failure reschedules it |
| `CallbackRetry.Worker.ProcessBatch` | internal/service/callback_retry.go:82-91 | one batch delivers the listed rows in order |
| `PriorityBilling.Gateway.TryPriorityBilling` | internal/handler/gateway_handler.go:1641-1817 | all or nothing for a known model: exactly the requests whose source has room are let through, with a reservation that names its source and records exactly what was taken; a refusal has its code and leaves every counter as it was, also when a reserve statement fails |
| `PriorityBilling.SettlementIsAllThatStays` | internal/handler/gateway_handler.go:2037-2096 | reserving and then settling has exactly the effect of the settlement on every counter |
| `PriorityBilling.EmptySettlementRestores` | internal/handler/gateway_handler.go:2037-2096 | settling with nothing restores every counter |
| `PriorityBilling.RefusesUnlessAdmitted` | internal/handler/gateway_handler.go:1641-1817 | the checks in their order refuse exactly what is not admitted |
| `PriorityBilling.OneSourceOnly` | internal/handler/gateway_handler.go:1651-1656 | a request draws only on the source its key is pinned to |
| `PriorityBilling.GrantedWithinLimits` | internal/handler/gateway_handler.go:1671-1815 | no reservation passes the limit or balance it was checked against |
| `PriorityBilling.Gateway.FinalizeRuntimeReservation` | internal/handler/gateway_handler.go:2037-2096 | the counters of the reservation are settled one after the other up to the first write that fails; the writes before it stay |
| `PriorityBilling.AllWritesSettle` | internal/handler/gateway_handler.go:2037-2096 | with every write stored that is the settlement of the whole reservation |
| `PriorityBilling.ReleaseChangesNothingIff` | internal/handler/gateway_handler.go:2037-2096 | what a release, also a second one, takes from each counter: nothing exactly where a quota or balance row holds nothing back any more, and always the whole reservation from a day or period counter |
| `PriorityBilling.Gateway.TrySubscription` | internal/handler/gateway_handler.go:1658-1733 | the quota, day and period reserves of a plan, given back in reverse when a later one fails |
| `PriorityBilling.Gateway.TryCredit` | internal/handler/gateway_handler.go:1735-1776 | the credit reserve; a free model still needs a positive balance |
| `PriorityBilling.Gateway.TryPayg` | internal/handler/gateway_handler.go:1778-1809 | the PAYG reserve at the estimated price |
| `PriorityBilling.EstimateTokens` | internal/handler/gateway_handler.go:1591-1623 | the estimate is at least one token, and bounded exactly when its completion part is positive |
| `BillingRuns.EveryRunKeepsAccounts` | internal/handler/gateway_handler.go:1641-2096 | with every statement of every request as a step that may fail, in every interleaving of any number of a user's requests and after every statement, every quota row and day and period counter holds exactly what the requests hold of it at that moment plus what settlements added, and every balance row what they hold and what settlements took |
| `BillingRuns.AllOrNothing` | internal/handler/gateway_handler.go:1641-1817 | in every interleaving a refused request whose undo and give-back statements took effect ends holding and having spent nothing, an admitted one holds its whole reservation, and a settled one holds nothing and has spent of each counter exactly what its settlement owes |
| `BillingSettled.BalancesLoseCharges` | internal/handler/gateway_handler.go:2062-2096 | at every moment of every interleaving the balances have lost at most what settlements charged, and exactly that, still covering what is reserved, if they covered it at the start and no settlement charges more than its request reserved |
| `BillingSettled.QuiescentCounters` | internal/handler/gateway_handler.go:2037-2096 | when every request is refused or settled and its statements took effect, nothing is held back, the quota and credit counters have grown by exactly what the settlements owe, and the balances have lost at most that, or exactly that under the same condition |
| `BillingAlone.AloneIsTheChain` | internal/handler/gateway_handler.go:1641-1817 | a request that no other interrupts is admitted, refused and charged to the counters by these statements exactly as the reservation chain decides |
| `BillingUpkeep.EveryHistoryKeepsBounds` | internal/service/postgres_store.go:1059-1454 | beside sweeps, balance syncs and repeated releases, in every interleaving and after every statement: no row holds back more than before and what requests hold, no credit counter counts more than that and what settlements added, used tokens and requests are exactly what settlements added, and balances lose, but for syncs, exactly what was debited |
| `RequestSlots.Tracker.ApplyPreRequestLimits` | internal/handler/gateway_handler.go:1072-1198 | a request passes exactly when every limit that applies has room, and has then taken one slot of each; a refusal gives the earlier ones back, but for an increment that was marked and never made |
| `RequestSlots.Tracker.Rollback` | internal/handler/gateway_handler.go:1019-1039 | undoes every marked increment once, and nothing after a commit |
| `RequestSlots.Tracker.Commit` | internal/handler/gateway_handler.go:1050-1058 | a cancelled context does not commit |
| `RequestSlots.EffectiveCapIsPositiveIff` | internal/handler/gateway_handler.go:1135-1157 | debt repayment leaves usable requests unless the cap is one or two and the debt takes the whole window |
| `RequestSlots.UncountedIff` | internal/handler/gateway_handler.go:1135-1168 | exactly then a marked request is not counted at all, since a cap of zero does not limit |
| `RequestSlots.UndoRestoresIff` | internal/handler/gateway_handler.go:1019-1039 | taking and undoing restores the counters if and only if that is not the case |
| `RequestLifecycle.Exchange.Serve` | internal/handler/gateway_handler.go:2814-3136 | on every path the counters of the reservation see exactly the stored writes of the attempts of its path, each attempt up to its first failing write, and the slots are kept or given back, never both |
| `RequestLifecycle.FinalizedExactlyOnce` | internal/handler/gateway_handler.go:2098-2110 | with successful writes every counter that a reservation holds is finalized exactly once on every path, and a request without a reservation writes nothing |
| `RequestLifecycle.ReleasedTwiceIff` | internal/handler/gateway_handler.go:2916-2926 | no counter is written more than twice, and one twice exactly when the deferred release follows an attempt that failed after writing it and gets as far as it again: in Messages for a rejected request whose ledger row or any write failed, in both handlers when no candidate was reached and a write failed |
| `RequestLifecycle.QuotaReleasedTwiceIff` | internal/handler/gateway_handler.go:2916-2926 | the quota tokens, written first, are then released twice as soon as one write of each attempt is stored, also when the ledger row was |
| `RequestLifecycle.KeptIffCounted` | internal/handler/gateway_handler.go:2881-3136 | slots are kept exactly when the durable settlement counts the request, but for three ways that are named: no candidate was reached, the upstream itself answered 499, or a complete body came with a status below 400 that is no success |
| `RequestLifecycle.SuccessResponsesAgree` | internal/handler/gateway_handler.go:3389-3456 | for every streaming or non-streaming response with a success status the two agree |
| `RequestLifecycle.ChargedIsCounted` | internal/handler/gateway_handler.go:1512-1540 | nothing is charged that is not counted |
| `RequestLifecycle.Exchange.Forward` | internal/handler/gateway_handler.go:3282-3515 | the candidate loop ends on the path its candidates determine |
| `RequestLifecycle.Exchange.RecordAndFinalizeRuntime` | internal/handler/gateway_handler.go:2098-2110 | a failed ledger write releases the reservation, and a failure of it or of any write of the finalization is reported |
| `RequestLifecycle.Exchange.RecordAndFinalizeClientDisconnect` | internal/handler/gateway_handler.go:2211-2218 | a disconnect settles even when its ledger row could not be written |
| `RequestLifecycle.Exchange.AnswerStream` | internal/handler/gateway_handler.go:3389-3432 | after a stream its settlement decides about the slots |
| `RequestLifecycle.Exchange.AnswerWhole` | internal/handler/gateway_handler.go:3433-3456 | a whole response decides about the slots first and settles after the answer |
| `RequestLifecycle.Exchange.AnswerRejected` | internal/handler/gateway_handler.go:3071-3101 | Messages settles a rejected request before it answers and reports a failure, ChatCompletions does not wait |
| `RequestLifecycle.Exchange.RecordUsage` | internal/handler/gateway_handler.go:3569-3608 | an error status, a provider error in the body or an incomplete body is no success |
| `DebitReplay.ReplayRepeatsLiveDebit` | internal/service/sync_service.go:255-317 | for every mode, status, token count and started flag, the ledger row replays to a debit exactly when the settlement posted one whose amount can be repeated, and then to the same user, request, mode and amount, rounded to six decimals for USD |
| `Amounts.MicroFacts` | internal/handler/gateway_handler.go:919-921 | an amount rounds to nothing exactly below half a millionth of a dollar, and otherwise is off by at most that |
| `DebitReplay.TinyCostIsNotReplayed` | internal/handler/gateway_handler.go:2130-2141 | a debit below that is posted live and never replayed |
| `DebitReplay.BillableIffCharged` | internal/handler/gateway_handler.go:1512-1540 | every charge is billable in the ledger, and what is billable without a charge is an unlimited request |
| `DebitReplay.ReplayDebitsOnce` | internal/service/sync_service.go:255-290 | however often the rows of any requests are replayed, the receiver debits none twice and only those that owe a debit, all of them if the posts succeed and none anew if it had them all |
| `DebitReplay.AmountReadsBack` | internal/service/sync_service.go:302-317 | a printed amount between zero and 1,000,000 is read back exactly, any other is refused |
| `DebitReplay.ReplayUsageDebits` | internal/service/sync_service.go:200-243 | the job posts the debits of the first entries of the window up to the limit, counts every one of them once, and posts nothing in a dry run |
| `Decimal.FormatReadsBack` | internal/service/sync_service.go:302-317 | an amount printed with a fixed number of decimals is read back exactly |

## Left out

- HTTP plumbing, routing, authentication, logging, admin and customer handlers, image and embedding endpoints: no hard state, or only easier variants of what is modelled.
- JSON decoding and encoding, completion-body classification, token estimation from payload shapes and the thinking-tag strip: inputs or opaque predicates.
- Rewriting of model names and error texts inside complete events: `SseBuffer` takes it as a function; it adds line breaks to some chunks and so keeps event framing, not bytes.
- The in-memory store, the cache, key hashing and database drivers.
- Latency percentiles, last activity, hourly buckets and error-code breakdowns of the dashboards: not additive, or read from raw rows only.
- Seeding a counter from the ledger by SET, the one-time reset of a period counter, and the two-command release of a concurrency slot: not atomic, so outside the interleaving theorems.
- Expiry of the day and period counters: `SlotCounters`, `RequestSlots` and `PriorityBilling` fix one UTC day and one running period; a rollback after midnight would touch the next day's key.
- The tokens-per-minute and free-model token increments, which are not undone when billing then refuses a request, and the legacy credit path behind the reservation chain, which no known model reaches.
- Period-end migrations are no step beside the requests of `BillingRuns` and `BillingUpkeep`; they are the subject of `QuotaCounter` and `QuotaPeriod`.
- Statements that take effect and report an error all the same: a failing statement changes nothing.
- Whether a plan's allowed models cover a model, and its live pricing group: inputs of `PriorityBilling`.
- Interleavings inside one entitlement upsert under READ COMMITTED, but for an insertion that comes too late: an upsert is one step.
- Plan snapshots that arrive during a batch of purchases, and balances that are no decimal numbers, which no transaction accepts.
- Streams are sequences of characters, where the code works on bytes; all separators and markers are ASCII.
- Negative token counts, and panics between reservation and settlement.
- Waiting times in the debit queue beyond the scheduled backoff, and the 15-second and 30-second timeouts.
- Entitlements.EntitlementStore.SyncCustomerEntitlements: after each saved item the code also resets a daily counter and carries the quota counter, which are other tables; the carry is `QuotaCounter.QuotaStore.CarryQuotaCounterOnExtension`, the reset is left out.
- EntitlementOrder.BalanceSyncOrderIsIrrelevant: holds for stored states in which no active row of another group holds the plan code; in the others the upsert fails, as `Entitlements.SinglePathCommitsIff` says.
- DebitReplay.ReplayRepeatsLiveDebit: supposes that the reservation was finalized; when finalizing fails nothing is posted live and the replay makes up for it.
- RequestLifecycle.Exchange.Serve: the detached settlement of a whole response is performed before the handler returns; it touches neither the slots nor the answer.
