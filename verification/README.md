# A verified model of the payment gateway

The gateway takes merchant payments on EVM chains. A watcher follows each chain behind a
durable cursor and submits every transfer to a watched address; ingestion stores it once;
interpretation judges it; matching claims it for the payment its address was assigned to;
confirmation, a scheduler sweep and reorg resolution move the payment on; every change is
audited in a hash chain and announced through an outbox. Any number of workers of each kind
run at once, on values they read earlier, and may stop or crash anywhere.

This project models that behaviour in Dafny 4.11 and proves what holds in every
interleaving. Services that change state step by step are classes and methods with loops;
each is proved against a specification function, and the theorems are about runs of those
functions. A run is the sequence of committed states. What a worker read before its
transaction is the value of an earlier state of the same run, so stale reads, lost races,
redelivery, and crashes between a read and a commit all are runs; an abort or a lost
version check leaves the state as it was. `dafny verify dfyconfig.toml` checks everything.

| files | what they model |
|---|---|
| `Common`, `BaseUnit` | small datatypes; base-unit money strings, decimal and hexadecimal numerals |
| `StateMachine`, `Outbox`, `Ledger`, `Commits` | the transition table, the webhook outbox, payments, events and audit rows, and what each transaction commits |
| `LedgerRuns`, `LedgerInvariants`, `LedgerSteps`, `LedgerTheorems`, `LedgerHistories`, `LedgerWitnesses` | runs of the ledger, its invariant, the theorems about totals, claims, histories and notifications, and short runs that reach the exceptions |
| `LedgerLaws` | what each claim, sweep, confirmation call and notification of a run comes to, told by the rows before and after it |
| `LedgerReorgs`, `BalanceDeltas` | resolutions as pieces of ledger runs, what confirmed payments rest on, and tokens claimed at balance deltas |
| `LedgerServices`, `LedgerWorkers` | matching, the sweep, confirmation and the payment half of reorg resolution as methods over collections |
| `CursorStorage`, `ChainFollower`, `LinkedHistory` | the durable cursor, several watcher instances, and one instance's hash-linked history |
| `StaleResolvers`, `ChainWitnesses`, `CanonicalRows` | what late rewinds and stale orphanings leave behind, runs that do so, and event rows of blocks the chain dropped |
| `ForkSearch`, `ReorgResolution`, `ChainLoop` | the bounded fork search, resolution end to end, the per-chain loop |
| `Transfers`, `Ingestion`, `Interpretation`, `WatcherBatch`, `Delivery` | the twin decoders, first write wins, judging, one batch, and nothing skipped or doubled over runs |
| `JsonText`, `CanonicalJson`, `CanonicalTheorems`, `AuditChain` | unique readability of JSON text, the two canonical serializers, the audit hash chain |
| `SnapshotStore`, `Registry`, `RegistryRuns`, `RegistryLaws`, `Allocation`, `AllocationWitnesses` | snapshot isolation, deactivation against payment creation, address allocation, idempotency |
| `Failover` | the provider pool under interleaved calls and probes |

Assumptions are parameters: the digest is any function without collisions where a statement
needs that, a block's hash determines its parent and its contents, `localeCompare` is an
arbitrary comparison, provider answers, clocks, screening verdicts and review decisions are
inputs of the step that uses them.

## Model

| member | source | states |
|---|---|---|
| BaseUnit.AmountRoundTrip | src/domain/money/base-unit.ts:4-31 | a string is a canonical amount exactly if it is the print of some amount; parsing and formatting undo each other; everything else is refused |
| BaseUnit.DecimalLength | src/domain/money/base-unit.ts:26-31 | a number prints to at most k digits exactly if it is below 10^k |
| BaseUnit.WordDigits | src/interfaces/http/internal-events-router.ts:49-52 | every 256-bit amount prints to at most 78 digits and the largest needs all 78, so the 80-character limit never refuses one |
| StateMachine.EvaluatesTheTable | src/domain/payments/payment-state-machine.ts:72-154 | a transition is legal exactly if it is an edge of the table and its guard holds; terminal statuses have no way out; the duplicate-claim reason is never produced |
| StateMachine.RejectsForFirstMissing | src/domain/payments/payment-state-machine.ts:117-154 | along an edge the evaluator rejects for the first part of the guard that is missing, in the table's order, and for nothing else |
| StateMachine.ExitsExclude | src/domain/payments/payment-state-machine.ts:72-154 | for one reading of a payment, matching and expiring are never both legal, nor confirming with failing or deepening |
| StateMachine.HistoryShape | src/domain/payments/payment-state-machine.ts:72-154 | any path through the table: terminals absorb, confirmation is preceded by matching and confirming |
| Outbox.KeyInjective | src/application/webhooks/webhook-outbox.ts:55-61 | two outbox keys are equal exactly if payment, event type and version are, although colons replace dots inside the key |
| LedgerTheorems.RunInvariant | src/application/processing/payment-matching-service.ts:251-444 | every state of every interleaving is in order, and rows only change under a higher version and along the table, captures and owners never |
| LedgerTheorems.Conservation | src/application/processing/payment-matching-service.ts:657-677 | without reorgs, the stored total is the sum of the effective amounts of exactly the events claimed, for any order, repetition and interleaving |
| LedgerTheorems.AmountsInEveryRun | src/application/processing/payment-matching-service.ts:335-375 | over whole runs, reorgs included: a matched payment received at least its price, the flag holds exactly when more, the excess is the difference, and with tolerance off there is no difference |
| LedgerTheorems.NeverExpiresFullyPaid | src/application/processing/payment-matching-service.ts:446-492 | no pending or expired payment ever holds canonical claims worth its price |
| LedgerTheorems.ClaimStoresCanonicalTotal | src/application/processing/payment-matching-service.ts:294-334 | each committed claim stores the canonical claims of that commit, counting its own event even if it was orphaned after being read |
| LedgerTheorems.ClaimsStoreCanonicalTotal | src/application/processing/payment-matching-service.ts:251-444 | so in every run, for every claim on an event read at any earlier state: what commits is the claim function, and its stored total is the canonical total of that commit |
| LedgerTheorems.ClaimsArePermanent | src/application/processing/payment-matching-service.ts:685-701 | an owner never changes once set, and a terminal payment keeps exactly the claims it had |
| LedgerTheorems.ClaimsMatchTheirPayment | src/application/processing/payment-matching-service.ts:173-212 | every claimed event was accepted and was sent to its payment's own address, chain and token |
| LedgerTheorems.StepFollowsTable | src/application/processing/payment-confirmation-service.ts:380-455 | every single step moves a payment along at most one edge, and then an audit row says so |
| LedgerLaws.ClaimStep | src/application/processing/payment-matching-service.ts:251-444 | in every run a claim does one of three things, told by the rows: it finds the payment overdue and expires it; or, exactly if the payment is open, the event free or its own and its worth admissible, it takes the event, with owner, amounts, flags, status, link, confirmations and audit row as the new total calls for; or it changes nothing |
| LedgerLaws.ClaimRelinksIff | src/application/processing/payment-matching-service.ts:563-592 | a committed claim on a matched or confirming payment moves the link to the new event and the confirmations to none exactly if no canonical row of the event it was matched on exists at that commit; otherwise both stay |
| LedgerLaws.ClaimReports | src/application/processing/payment-matching-service.ts:251-444 | which action a claim reports, which abort, and which annotations it asks for, in every case |
| LedgerLaws.SweepStep | src/application/scheduler/scheduler-service.ts:162-246 | in every run a sweep expires its payment exactly if that is still as read, overdue, and below its price by the total read |
| LedgerLaws.AdvanceIsWarranted | src/application/processing/payment-confirmation-service.ts:173-378 | in every run a step into confirming, confirmed or failed is a call that read the payment as it still is and its matched event, saw what that move demands, and set exactly the fields it may |
| LedgerLaws.FailsOnlyAfterGrace | src/application/processing/payment-confirmation-service.ts:177-210 | in every run a payment fails only by a call that saw its transaction or its event off the canonical chain, after expiry and grace |
| LedgerLaws.CallFailsIff | src/application/processing/payment-confirmation-service.ts:179-210 | an uninterrupted call fails the payment exactly off the canonical chain and after the grace, which is when the table's guard admits it |
| LedgerLaws.CallEntersIff | src/application/processing/payment-confirmation-service.ts:212-243 | a matched payment enters confirmation exactly if the table's guard admits it, and with none |
| LedgerLaws.CallDeepensIff | src/application/processing/payment-confirmation-service.ts:246-280 | a confirming one deepens exactly to more than it has and fewer than it needs, under the table's guard |
| LedgerLaws.CallLeaves | src/application/processing/payment-confirmation-service.ts:121-378 | the payment's whole row after an uninterrupted call, in every case |
| LedgerLaws.CallReports | src/application/processing/payment-confirmation-service.ts:121-378 | which outcome a call reports and what it annotates, in every case |
| LedgerLaws.CallDeclines | src/application/processing/payment-confirmation-service.ts:131-171 | on hold, pending, terminal, unmatched or unseen: nothing is written or annotated, and the outcome says why |
| LedgerLaws.NotificationsTell | src/application/webhooks/webhook-outbox.ts:102-142 | in every run a step leaves the outbox alone or adds the one notification its payment's move calls for, with that payment's own merchant, chain, token, price, amounts and transaction |
| LedgerLaws.EveryNoticeTells | src/application/webhooks/webhook-outbox.ts:67-142 | so every outbox row of every run was written by a step that moved its payment, and tells that move |
| LedgerSteps.SweepReads | src/application/scheduler/scheduler-service.ts:162-211 | if the version a sweep read still stands at its commit, the total it read lies between the canonical and the full claim total of that commit |
| LedgerSteps.StepKeeps | src/application/scheduler/scheduler-service.ts:197-211 | no step of any service, on values read arbitrarily long before it, breaks the ledger invariant |
| LedgerInvariants.LateDepositExpires | src/application/processing/payment-matching-service.ts:294-309 | an overdue pending payment met by a late deposit always expires: it never holds a qualifying claim set |
| LedgerHistories.StatusesFollowTable | src/domain/payments/payment-state-machine.ts:72-154 | the status history of a payment in any run is a path of the table starting at pending |
| LedgerHistories.OutboxExactlyOnce | src/application/webhooks/webhook-outbox.ts:67-99 | with a dispatcher there is one outbox row for a payment and type if it ever was in that status and none otherwise, over all four writers |
| LedgerHistories.ConfirmedIffAtSnapshot | src/application/processing/payment-confirmation-service.ts:235-280 | confirmations equal the required number exactly when confirmed and are below it otherwise, stale workers and resets included |
| LedgerHistories.ConfirmsIff | src/application/processing/payment-confirmation-service.ts:282-378 | a call at the threshold confirms exactly if its read is current, no block decision stands and the verdict is clear; a release over any other verdict never does but reports it |
| LedgerHistories.AuditRowWithoutTransition | src/application/processing/payment-confirmation-service.ts:396-423 | the audit row is written in every case, the payment moves exactly if the version check passed |
| LedgerHistories.ExcessIsCurrentIff | src/application/processing/payment-matching-service.ts:573-599 | after a re-link the stored excess is right exactly if there is excess now or there never was any; the flag is always right |
| LedgerHistories.RecomputeIsRightIff | src/application/watcher/reorg-resolution-service.ts:284-306 | reorg recomputation is off by exactly received minus logged amounts; with fees on transfer it is right exactly if every surviving claim is verbatim |
| LedgerServices.PaymentMatchingService.ApplyClaim | src/application/processing/payment-matching-service.ts:251-444 | the claim transaction over the collections performs exactly the commit function the run theorems are about, or changes nothing |
| LedgerServices.PaymentMatchingService.CumulativeIncluding | src/application/processing/payment-matching-service.ts:657-677 | the loop totals the canonical claims and this event once |
| LedgerServices.PaymentMatchingService.ClaimEvent | src/application/processing/payment-matching-service.ts:685-701 | the owner is set exactly if the event was unowned or already this payment's |
| LedgerServices.PaymentMatchingService.MatchInTransaction | src/application/processing/payment-matching-service.ts:335-444 | the matching branch changes payment, audit and outbox exactly as the commit function says |
| LedgerServices.PaymentMatchingService.LinkInTransaction | src/application/processing/payment-matching-service.ts:556-656 | the link branch performs the link function, of which `LedgerLaws.ClaimRelinksIff` says what it does to the link; it never touches a terminal payment |
| LedgerServices.PaymentMatchingService.ExpireInTransaction | src/application/processing/payment-matching-service.ts:446-555 | the late-deposit branch does |
| LedgerServices.PaymentMatchingService.MatchEvent | src/application/processing/payment-matching-service.ts:159-244 | the whole outcome of handling an event: only an accepted canonical one is claimed, by the payment its address, chain and token route to or else an orphan annotation; rejections go on record, and every follow-up is annotated |
| LedgerServices.ClaimLeavesTrace | src/application/processing/payment-matching-service.ts:251-444 | a committed claim owns its event or leaves a late annotation |
| LedgerWorkers.SchedulerService.ExpireDuePayments | src/application/scheduler/scheduler-service.ts:162-250 | whatever the sweep changes was pending, overdue and below its price and is now expired with its canonical claims on record; it counts them right, and if the limit allows no payment is left pending, overdue and below its price |
| LedgerWorkers.SchedulerService.ExpireOne | src/application/scheduler/scheduler-service.ts:173-250 | one payment of the sweep: read, guard, version-conditional write, and the annotation of a partial one whether or not the write applied |
| LedgerWorkers.PaymentConfirmationService.AdvancePayment | src/application/processing/payment-confirmation-service.ts:121-378 | one confirmation call performs exactly the decided conditional writes, in order; `LedgerLaws.CallLeaves` says what those come to |
| LedgerWorkers.PaymentConfirmationService.ApplyTransition | src/application/processing/payment-confirmation-service.ts:380-455 | the conditional write, its audit row and its notification, applied exactly if status and version still stand |
| LedgerWorkers.ResolvePaymentEffects | src/application/watcher/reorg-resolution-service.ts:231-316 | the payment half of reorg resolution, one affected payment after the other on what was read of it earlier, up to any number of writes before a crash |
| LedgerWorkers.TouchPayment | src/application/watcher/reorg-resolution-service.ts:237-306 | one affected payment as read earlier: a confirmed one is held and a pending one recomputed if the version read still stands (the pending one if it still is), the incident audited in any case |
| LedgerWorkers.EffectsAdjust | src/application/watcher/reorg-resolution-service.ts:231-316 | over the whole list: the hold or the recomputed total is placed exactly if the version read still stands at the write (for the total, still pending); audit row and annotation are written either way |
| LedgerWorkers.EffectsUpToAdjust | src/application/watcher/reorg-resolution-service.ts:231-316 | with a crash on the way: the i-th listed payment is adjusted exactly if more than 2i writes came before it, and annotated exactly if one more did |
| LedgerWorkers.UnlistedUntouched | src/application/watcher/reorg-resolution-service.ts:231-316 | a payment not on the list is not touched |
| LedgerReorgs.HoldPlacedIff | src/application/watcher/reorg-resolution-service.ts:249-274 | in every run: the incident is audited, and the hold is placed exactly if the payment is as it was read |
| LedgerReorgs.TotalPlacedIff | src/application/watcher/reorg-resolution-service.ts:284-304 | in every run: the recomputed total is stored exactly if the payment, read pending, is as it was read |
| LedgerReorgs.TouchExtendsRun | src/application/watcher/reorg-resolution-service.ts:237-306 | a payment's first write, however long after its reads and whatever was committed between, is at most one step of the ledger's runs; the claims a recomputation needs come from the orphaning, not from an assumption |
| LedgerReorgs.EffectsUpToExtendRun | src/application/watcher/reorg-resolution-service.ts:231-316 | so are all writes of a resolution, as far as a crash lets them get |
| LedgerReorgs.ResolutionExtendsRun | src/application/watcher/reorg-resolution-service.ts:152-316 | a whole resolution, capturing events in any earlier state, is a piece of a run: orphaning, adjustments, annotations |
| LedgerReorgs.CanonicalUntilOrphaned | src/application/watcher/reorg-resolution-service.ts:175-184 | over any run an event stays canonical exactly until its block is orphaned |
| LedgerReorgs.OnlyCallsAdvance | src/application/processing/payment-confirmation-service.ts:121-378 | no step but a confirmation call's own write takes a payment to confirming, confirmed or failed |
| LedgerReorgs.OnlyCallsConfirm | src/application/processing/payment-confirmation-service.ts:282-378 | no step but a confirmation call's own write takes a payment to confirmed |
| LedgerReorgs.ConfirmedOnCanonicalIff | src/application/processing/payment-confirmation-service.ts:147-178 | in every later state the event a payment was confirmed on is canonical exactly if no orphaning of its block came since the call read it |
| LedgerWitnesses.IncidentMisses | src/application/watcher/reorg-resolution-service.ts:249-274 | a run: a block decision between the resolver's read and its write; the incident is audited and no hold placed |
| LedgerWitnesses.RecomputeMisses | src/application/watcher/reorg-resolution-service.ts:284-304 | a run: the same for a pending payment, whose total stays above its canonical claims |
| LedgerWitnesses.ConfirmsOnOrphaned | src/application/watcher/reorg-resolution-service.ts:237-316 | a run: the resolver meets the payment confirming and only annotates it; a call that read earlier confirms it on the orphaned event |
| CursorStorage.MongoChainCursorStorage.Bootstrap | src/infrastructure/chain/mongo-cursor-storage.ts:57-83 | a cursor and anchor are created together, only where there was none |
| CursorStorage.MongoChainCursorStorage.ClassifyObservedBlocks | src/infrastructure/chain/mongo-cursor-storage.ts:154-174 | an error exactly if some header contradicts a canonical block at its height; otherwise exactly the unrecorded headers, in order |
| CursorStorage.MongoChainCursorStorage.CommitAdvance | src/infrastructure/chain/mongo-cursor-storage.ts:85-114 | blocks and cursor move together, or neither if the version moved |
| CursorStorage.MongoChainCursorStorage.InsertObservedBlocks | src/infrastructure/chain/mongo-cursor-storage.ts:186-218 | the upsert loop adds missing rows and leaves existing ones, orphaned or not, as they are |
| CursorStorage.MongoChainCursorStorage.Rewind | src/infrastructure/chain/mongo-cursor-storage.ts:121-143 | the cursor moves exactly if the version stands |
| CursorStorage.UpsertAllRows | src/infrastructure/chain/mongo-cursor-storage.ts:186-218 | what is on record after upserting a batch: every old row unchanged, a canonical row for each new identity, nothing else |
| ChainFollower.RunKeepsStore | src/infrastructure/chain/mongo-cursor-storage.ts:57-143 | however many instances interleave on stale reads: at most one canonical block a height, none above the cursor, the cursor's own block on record |
| ChainFollower.EachVersionCommittedOnce | src/infrastructure/chain/mongo-cursor-storage.ts:85-143 | every version up to the current one was committed by exactly one step |
| ChainFollower.OrphansStayOrphaned | src/infrastructure/chain/mongo-cursor-storage.ts:204-217 | no run deletes a recorded block or makes an orphaned one canonical again |
| StaleResolvers.RewindCompletesIff | src/application/watcher/reorg-resolution-service.ts:165-228 | whatever other instances commit between an orphaning and its rewind: the cursor ends on a canonical block exactly if the rewind found its version and no one orphaned above a lower fork, or it lost and the cursor's block was recorded anew; a hole stays above the fork exactly if it lost and some height up to the cursor was not |
| StaleResolvers.HeightTakenIff | src/application/watcher/reorg-resolution-service.ts:165-184 | in every state of every run a height has a canonical block exactly if some step recorded one there as new and none orphaned above a lower fork since |
| StaleResolvers.CanonicalUntilOrphaned | src/application/watcher/reorg-resolution-service.ts:165-174 | a block stays canonical exactly until some resolver orphans above a lower fork |
| StaleResolvers.RewindStandsIff | src/infrastructure/chain/mongo-cursor-storage.ts:121-143 | a rewind that finds its version puts the cursor on a canonical block exactly if no other resolver orphaned above a lower fork meanwhile |
| StaleResolvers.LostRewindTakenIff | src/application/watcher/reorg-resolution-service.ts:213-222 | a rewind that lost changes nothing, and a height above the fork has a canonical block exactly if a batch since the orphaning recorded a new one |
| ChainWitnesses.TwoResolversOrphanTheForkPoint | src/application/watcher/reorg-resolution-service.ts:165-228 | a run: two resolvers with forks 1 and 0; the first rewind finds its version and ends on an orphaned block |
| ChainWitnesses.BatchOverOrphanedHistory | src/application/watcher/reorg-resolution-service.ts:165-228 | a run: a batch commits between orphaning and rewind; the rewind loses and two heights stay without a canonical block |
| ChainWitnesses.CrashLeavesHole | src/application/watcher/reorg-resolution-service.ts:204-217 | a run of one instance: a crash between the two commits, a restart and one more batch leave a hole |
| ChainWitnesses.ReadoptionLeavesHole | src/infrastructure/chain/mongo-cursor-storage.ts:186-218 | a run of one instance: resolution completes, the chain flips back to the orphaned block, and its height stays without a canonical one |
| CanonicalRows.StepPlacedIff | src/application/watcher/reorg-resolution-service.ts:175-184 | a step keeps every canonical event row in a canonical block or above the cursor exactly if it submits for no block passed and unrecorded, and passes no height holding a row of a block it does not record |
| CanonicalRows.AlwaysPlacedIff | src/application/watcher/watcher-service.ts:543-628 | so for whole histories of batches, resolvers and uncommitted submissions: every state is in order exactly if every step is |
| CanonicalRows.CountedTwice | src/application/watcher/watcher-service.ts:543-628 | a history without any resolver in which a re-included transaction ends with two canonical rows, one of a block not on record |
| LinkedHistory.LinkedUnlessHoled | src/application/watcher/watcher-service.ts:515-531 | with one instance, canonical history is one unbroken parent-hash chain ending at the cursor exactly if no batch went over an interrupted resolution or re-observed an orphaned block |
| LinkedHistory.LinkedToForkWhileResolving | src/application/watcher/reorg-resolution-service.ts:165-217 | between resolution's two commits the chain ends at the fork point |
| LinkedHistory.HolesArePermanent | src/infrastructure/chain/mongo-cursor-storage.ts:204-217 | a height left without canonical block never gets one again |
| LinkedHistory.InterruptedNeverScans | src/application/watcher/reorg-resolution-service.ts:85-101 | after a crash between the two commits no fork search can succeed |
| LinkedHistory.BatchTakesHeightIff | src/infrastructure/chain/mongo-cursor-storage.ts:186-218 | a batch makes its height canonical exactly if that block was not on record before |
| ForkSearch.FindFork | src/application/watcher/reorg-resolution-service.ts:80-126 | the bounded scan returns the highest compared agreement, or says which height ended it and why |
| ForkSearch.ScanIsUnique | src/application/watcher/reorg-resolution-service.ts:80-126 | that description has only one result |
| ForkSearch.ForkPointIsExact | src/application/watcher/reorg-resolution-service.ts:80-126 | against one fixed hash-linked live chain a fork point is found exactly if some block within the bound is shared; then what is kept is on the live chain and what is orphaned is not |
| ForkSearch.SharedBelow | src/application/watcher/reorg-resolution-service.ts:80-116 | hash-linked chains that share a block share everything below it |
| ForkSearch.HoleAtCursorHalts | src/application/watcher/reorg-resolution-service.ts:92-101 | with no canonical block at the cursor, no live chain lets the search succeed |
| ForkSearch.ScannableIffFound | src/application/watcher/reorg-resolution-service.ts:80-116 | the fork points the run models admit are exactly those some live view makes the search report |
| ReorgResolution.ReorgResolutionService.Resolve | src/application/watcher/reorg-resolution-service.ts:73-229 | with everything read at its own time and a failure possible before the orphaning commit, after it, after any payment write and at the rewind: nothing is written unless a fork point below the cursor was found; then blocks and events above it are flagged, the payments captured with them are adjusted in turn on their own reads up to the failure, and the cursor is put back if there was none |
| ReorgResolution.RecordExactIff | src/application/watcher/reorg-resolution-service.ts:152-204 | the events are captured before they are flagged: the record names the flagged transactions exactly if every event ingested between shares its transaction with a captured one and every one another resolver flagged between with one still flagged here; the payments likewise, for events claimed and events flagged between |
| ReorgResolution.FlaggedElsewhereIsListed | src/application/watcher/reorg-resolution-service.ts:152-204 | two resolvers capture one event and one flags it first: the other's record names a transaction and lists a payment it flags nothing of |
| ReorgResolution.LateClaimIsMissed | src/application/watcher/reorg-resolution-service.ts:152-211 | a payment whose orphaned claims all came after the capture gets neither a finality hold nor a recomputed total |
| ReorgResolution.AffectedPayments | src/application/watcher/reorg-resolution-service.ts:154-162 | each payment owning an orphaned event, once |
| ReorgResolution.HighestAbove | src/application/watcher/reorg-resolution-service.ts:139-151 | the highest canonical block above the fork point, if any |
| WatcherBatch.FetchHeaders | src/application/watcher/watcher-service.ts:515-531 | headers are returned exactly if each continues the one before; a discontinuity exactly at the first that does not |
| WatcherBatch.OrderedSorts | src/application/watcher/watcher-service.ts:551-554 | the same logs, by block number and within a block by log index |
| WatcherBatch.SubmitLogs | src/application/watcher/watcher-service.ts:543-574 | log by log, what is acknowledged, queued and stored are prefixes of what the watchlist calls for, apart by at most the one submission in flight; the loop ends at the first stop or failure among the logs, or with all of it |
| WatcherBatch.SubmitLog | src/application/watcher/watcher-service.ts:556-572 | one log is submitted exactly if it is a transfer to a watched address |
| WatcherBatch.LogMatchesIff | src/application/watcher/watcher-service.ts:557-559 | a log matches exactly if it is the log of some transfer whose recipient is watched |
| WatcherBatch.LogsFinishIff | src/application/watcher/watcher-service.ts:555-573 | the loop over the logs runs to its end exactly if nothing stops it and every matching log is acknowledged |
| WatcherBatch.SubmitNextLog | src/application/watcher/watcher-service.ts:555-573 | one turn of the loop: stopped or failed exactly by what befalls that log |
| WatcherBatch.WatcherService.SubmitRange | src/application/watcher/watcher-service.ts:544-574 | the range's logs in chain order, ending where the first stop or failure is |
| WatcherBatch.SubmitNative | src/application/watcher/watcher-service.ts:576-609 | the same for native transfers, block by block; a block the provider does not answer for fails the batch there |
| WatcherBatch.WatcherService.ReadOrBootstrap | src/application/watcher/watcher-service.ts:494-508 | bootstrap happens only at the look-back height and only if corroborated |
| WatcherBatch.WatcherService.ProcessFrom | src/application/watcher/watcher-service.ts:510-628 | whatever stops, throws or is lost: the store changes only by one version-checked commit of corroborated linked headers, after everything their range holds was acknowledged. Four exact conditions: a discontinuity exactly if a height breaks with all before it following, or all was submitted and a header contradicts history; a commit exactly if every height follows and is corroborated, all was acknowledged, nothing contradicts and the version stands; sleep and failure exactly in the remaining cases |
| WatcherBatch.CommittedIsQueued | src/application/watcher/watcher-service.ts:484-489 | once a batch committed, every transfer its range holds has been handed to interpretation |
| ChainLoop.ChainWatch.Iterate | src/application/watcher/watcher-service.ts:408-455 | a turn meets a discontinuity exactly if the provider's headers break or contradict history as `WatcherBatch.WatcherService.ProcessFrom` says; the chain then halts exactly if no fork point was found or resolution failed at any point; blocks, cursor and ledger are as resolution met them exactly if it had not yet flagged anything |
| ChainLoop.HaltsIff | src/application/watcher/watcher-service.ts:417-446 | in terms of the scan: a discontinuity halts exactly without a fork point, or below the cursor with a failure on the way |
| ChainLoop.FaultIsInterruption | src/application/watcher/watcher-service.ts:421-428 | a failure after the orphaning commit is the interrupted phase of the linked history: from there no search finds a fork point, whatever chain is live |
| ChainLoop.ResolutionCompletes | src/application/watcher/reorg-resolution-service.ts:206-229 | without a failure the same search leads to the linked history's two steps, orphaning and rewind, and ends following from the fork point under the next version |
| ChainLoop.ChainWatch.Loop | src/application/watcher/watcher-service.ts:408-455 | between any two moments of the loop lies exactly one turn, with store, ledger and endpoint as it leaves them; every store in between is in order, and the loop ends early only halted |
| Delivery.NothingSkipped | src/application/watcher/watcher-service.ts:484-489 | over any interleaving, each watched transfer of each block recorded above the anchor was acknowledged before the cursor passed it |
| Delivery.OneRowPerTransfer | src/application/ingestion/event-ingestion-service.ts:41-54 | and has one row, holding the first payload stored for its identity, whether or not that submission was acknowledged |
| Delivery.TransferIsStored | src/application/watcher/watcher-service.ts:543-573 | from the chain to the collection: a token transfer to a watched address in a block the cursor passed has a row under its event id, with its own contract, sender, recipient and value wherever nothing else was submitted under that id |
| Delivery.NativeIsStored | src/application/watcher/watcher-service.ts:576-609 | and a native transfer of a positive value under its transaction's hash |
| Delivery.BatchExtendsRun | src/application/watcher/watcher-service.ts:510-628 | what one batch does, committed or broken off anywhere, extends a run of deliveries by its submissions and its commit; nothing about acknowledgement is assumed of it |
| Delivery.CommitStaysEnabled | src/application/watcher/watcher-service.ts:612-625 | whatever other instances do between its last submission and its commit, the commit stays a step of the run |
| Delivery.RowsFollowRun | src/application/ingestion/event-ingestion-service.ts:81-135 | and the rows stay those of the submissions stored in the run |
| Delivery.BatchIsAdvance | src/application/watcher/watcher-service.ts:612-625 | a batch that commits is exactly one advance of the run of the chain store, for a cursor read at any earlier state; one that does not is no step |
| Delivery.PinnedSees | src/application/watcher/watcher-service.ts:543-582 | answers read from the headers' own blocks are what the run theorems call for |
| Delivery.LogsSufficeIffPinned | src/application/watcher/watcher-service.ts:543-550 | logs asked for by height cover the headers' blocks, whatever those hold, exactly if the chain they were read from had the headers' hashes |
| Delivery.NativeIffPinned | src/application/watcher/watcher-service.ts:576-609 | native transactions asked for by height cover the headers' blocks, whatever those hold, exactly if they were read from those blocks; and exactly then is none submitted under the hash of a block that never held it |
| Delivery.ReincludedKeepsFirstBlock | src/application/ingestion/event-ingestion-service.ts:112-127 | a transaction re-included with the same log index keeps the row, and the orphaned block, of its first inclusion |
| Ingestion.IdentityIff | src/application/ingestion/event-ingestion-service.ts:41-54 | two transfers share an identity exactly if they are the same log of the same chain, or native transfers with hashes equal up to case, on any chains |
| Ingestion.FirstWriteWins | src/application/ingestion/event-ingestion-service.ts:81-135 | for any order and repetition of submissions the row of an identity is the first accepted payload |
| Ingestion.RowIffDelivered | src/application/ingestion/event-ingestion-service.ts:81-135 | a row exists exactly for the identities some accepted submission carried |
| Ingestion.RowsComplete | src/infrastructure/mongodb/models.ts:412-437 | every stored token transfer names its contract and its log index, and every stored amount is canonical |
| Ingestion.EventIngestionService.Ingest | src/application/ingestion/event-ingestion-service.ts:81-135 | one submission: each of the four errors exactly in its case, otherwise insert or replay and an enqueue; a failed insert leaves nothing, a failed enqueue leaves the row without acknowledgement |
| Ingestion.NativeTransferLostAcrossChains | src/application/ingestion/event-ingestion-service.ts:46-49 | the same native transaction hash on a second chain is reported as replay and not stored |
| Transfers.DecodersAgree | src/application/ingestion/event-interpretation-service.ts:57-89 | interpretation decodes the payload of any log to what the watcher decoded, refusals included; what that is, `Transfers.TransferDecodes` and `Transfers.OnlyTransfersDecode` say |
| Transfers.TransferDecodes | src/infrastructure/chain/evm-chain-adapter.ts:100-130 | the log of a transfer decodes to its own sender, from the first indexed topic, its own recipient, from the second, and its own value |
| Transfers.OnlyTransfersDecode | src/infrastructure/chain/evm-chain-adapter.ts:100-130 | nothing but the log of a transfer decodes |
| Transfers.EncodedDecodes | src/infrastructure/chain/evm-chain-adapter.ts:100-130 | the 64-digit word of any value below 2^256 decodes to that value in decimal |
| Transfers.DecodedFields | src/infrastructure/chain/evm-chain-adapter.ts:100-130 | a decoded log has well-formed addresses and a canonical amount of at most 78 digits that is the integer of its data word |
| Transfers.NativeDecodes | src/application/ingestion/event-interpretation-service.ts:97-119 | a stored native transaction decodes to its own sender, recipient and value |
| Interpretation.WatchedLogIsNeverMalformed | src/application/ingestion/event-interpretation-service.ts:176-185 | what the watcher submits passes the endpoint's amount limit and ingestion and is never rejected as malformed |
| Interpretation.WatchedNativeIsNeverMalformed | src/application/ingestion/event-interpretation-service.ts:262-297 | the same for native transfers |
| Interpretation.NativeAmountIff | src/application/ingestion/event-interpretation-service.ts:97-119 | a native row matches its payload's amount exactly if JavaScript's BigInt reads the payload text as that number |
| Interpretation.AcceptedIff | src/application/ingestion/event-interpretation-service.ts:142-344 | an event is accepted exactly if its chain is enabled, its fields are those of the transfer its payload holds, a token is registered for its chain and contract (its chain's native one for a native event), its recipient is known and, where the first such token needs it, a positive corroborated balance was read |
| Interpretation.AcceptedNames | src/application/ingestion/event-interpretation-service.ts:186-262 | the acceptance names the first token registered for the event's chain and contract, and the balance where one was needed |
| Interpretation.ReasonIff | src/application/ingestion/event-interpretation-service.ts:157-195 | each rejection that precedes the recipient check is given exactly when its own check is the first to fail |
| Interpretation.HeldBackIff | src/application/ingestion/event-interpretation-service.ts:197-262 | for a sound event with a token: unknown recipient, disagreeing, missing or non-positive balance, or a throw, each exactly in its case |
| Interpretation.TransferRow | src/application/watcher/watcher-service.ts:560-572 | the row of a transfer's log holds its own chain, place, block, contract, sender, recipient and value |
| Interpretation.NativeRow | src/application/watcher/watcher-service.ts:588-605 | and that of a native transfer its own |
| Interpretation.TransferAcceptedIff | src/application/ingestion/event-interpretation-service.ts:142-262 | from log to judgment: a watched transfer is accepted exactly by registry, recipient and balance |
| Interpretation.BlockSharesDelta | src/infrastructure/chain/evm-balance-delta-reader.ts:44-117 | two transfers to one holder in one block, accepted on one read, carry the same verified amount, the block's |
| BalanceDeltas.ClaimedAtMostReceivedIff | src/infrastructure/chain/evm-balance-delta-reader.ts:72-84 | in every state of every run over a delta-verified token, a payment's canonical claims come to at most what its address received over their blocks exactly if no two share token, address and block |
| BalanceDeltas.AcceptedAtDelta | src/application/ingestion/event-interpretation-service.ts:186-262 | every accepted event of such a token stands at its block's delta |
| BalanceDeltas.BlockTotalCountsTwice | src/infrastructure/chain/evm-balance-delta-reader.ts:72-84 | a run: two deposits of one block are each claimed at the block's total, and the payment stores double what came in |
| Interpretation.OneOutcomePerEvent | src/application/ingestion/event-interpretation-service.ts:376-421 | duplicate deliveries: the first judgment written stands, every call returns it, exactly one applied it |
| Interpretation.EventInterpretationService.Interpret | src/application/ingestion/event-interpretation-service.ts:142-260 | one interpretation writes the judgment only where there was none |
| JsonText.PrintUnique | src/infrastructure/queue/webhook-delivery-queue.ts:35-44 | unique readability: equal texts are texts of equal values, escapes, numbers, empty slots and nesting included |
| CanonicalJson.StableText | src/infrastructure/queue/webhook-delivery-queue.ts:35-44 | the webhook serializer prints the readable form of its value |
| CanonicalJson.NormalizeIsForm | src/infrastructure/mongodb/audit-service.ts:52-76 | the audit serializer normalizes to the readable form, own-property order of index keys included |
| CanonicalTheorems.TextDeterminesMeaning | src/infrastructure/mongodb/audit-service.ts:52-76 | for each serializer and any key comparison, equal text means equal values up to key order and undefined fields |
| CanonicalTheorems.IgnoresKeyOrderIff | src/infrastructure/queue/webhook-delivery-queue.ts:35-44 | values equal up to key order always print alike exactly if the comparison ties no two different keys it is asked to order |
| CanonicalTheorems.FingerprintIdentifiesRequest | src/application/payments/payment-service.ts:78-80 | two requests have one fingerprint exactly if they are the same request |
| AuditChain.AuditHashIdentifies | src/infrastructure/mongodb/audit-service.ts:52-80 | with a collision-free digest the entry hash stands for one body at one place in the chain |
| AuditChain.VerifyAuditChain | src/infrastructure/mongodb/audit-service.ts:160-240 | verification accepts exactly the chains in order, throws exactly at a first faulty entry that is in place and cannot be hashed, and otherwise names the first fault of the first faulty entry, or the head |
| AuditChain.AcceptedEntriesAreTheSame | src/infrastructure/mongodb/audit-service.ts:160-240 | two retained lists accepted against one head are the same list |
| AuditChain.EveryRunVerifies | src/infrastructure/mongodb/audit-service.ts:82-143 | every interleaving of appends leaves a chain that verification accepts |
| AuditChain.HeadCounts | src/infrastructure/mongodb/audit-service.ts:126-136 | in every run the head names the last entry, and its sequence and version count the entries |
| AuditChain.AppendRecords | src/infrastructure/mongodb/audit-service.ts:96-139 | in every run an append adds an entry exactly if the head it read is still the head and its own body can be hashed in the next place; the entry is its own body, there, under the hash of that body after the previous entry's |
| AuditChain.LogHoldsLanded | src/infrastructure/mongodb/audit-service.ts:82-143 | so the log of every run holds exactly the bodies of the appends that committed, each once and in order |
| AuditChain.AcceptsAcrossReadsIff | src/infrastructure/mongodb/audit-service.ts:160-225 | verification, which reads entries and head apart, accepts a healthy log exactly if no append committed in between |
| AuditChain.AuditLog.Append | src/infrastructure/mongodb/audit-service.ts:82-143 | an append commits exactly if the head it read still stands and its body can be hashed, and then adds one entry of that body; otherwise the chain is as it was |
| SnapshotStore.CommittedSawCurrent | src/infrastructure/mongodb/transactions.ts:60-110 | first committer wins: what a committing transaction writes is still what it read |
| Registry.RegistryService.DeactivateIn | src/application/registry/registry-service.ts:795-860 | deactivation on one snapshot: the count, the force override and the version check |
| Registry.RegistryService.ReservePaymentConfiguration | src/application/registry/registry-service.ts:909-931 | reservation bumps the allocation sequence of chain and token, or names the one not open |
| Registry.PaymentService.CreatePaymentIn | src/application/payments/payment-service.ts:192-398 | the creation transaction succeeds or fails as the creation function does; which checks that makes, in which order, and what it leaves is `RegistryLaws.RefusedByFirst` and `RegistryLaws.CreationStep` |
| RegistryLaws.RefusedByFirst | src/application/payments/payment-service.ts:192-398 | a creation is refused by the first of its nine checks that fails, and by nothing else |
| RegistryLaws.CreationStep | src/application/payments/payment-service.ts:192-398 | creations are serializable: in every run one commits exactly if it passes every check on its snapshot and nothing it touches was written since; it then passes every check on the state it commits on too, and leaves one pending payment at the wallet's next index, address, counters and record, and nothing else |
| RegistryLaws.DeactivationIff | src/application/registry/registry-service.ts:795-860 | a deactivation goes through exactly if the entity is enabled at the expected version and no payment is open or it is forced; the conflict is reported exactly for open payments |
| RegistryLaws.SwitchStep | src/application/registry/registry-service.ts:350-393 | in every run a deactivation or activation commits exactly if the entity stood in the other position at the expected version and was not written since (and the count allows it), and then switches that document alone, one version on |
| RegistryLaws.OnlyActivationEnables | src/application/registry/registry-service.ts:350-393 | in every run nothing but a committed activation enables a chain or token; a new one starts disabled |
| RegistryRuns.NoWriteSkew | src/application/registry/registry-service.ts:795-860 | after a deactivation commits and until a reactivation, every open payment was already open in the snapshot it counted; if it was not forced there is none |
| RegistryRuns.CountersPreventSkew | src/application/registry/registry-service.ts:914-931 | with the allocation counters a creation begun beside a deactivation conflicts; without them it would commit and leave an open payment on a disabled chain or token |
| RegistryRuns.DisabledUntilReactivated | src/application/registry/registry-service.ts:826-860 | nothing but an activation re-enables, and no payment opens meanwhile |
| Allocation.IndexesAreContiguous | src/application/payments/payment-service.ts:223-264 | the indexes issued under one wallet key are exactly 0 to n-1 and stay in the non-hardened range (section "Extended keys" of BIP-32) |
| Allocation.AddressesAreExclusive | src/application/payments/payment-service.ts:259-330 | no two payments of a chain share a receiving address, even where one extended key is registered under several wallet ids |
| Allocation.OneWalletPerKey | src/infrastructure/mongodb/models.ts:170-177 | of two wallet ids with one extended key on one chain, at most one ever issues an address |
| Allocation.NextAddressTakenIff | src/infrastructure/mongodb/models.ts:170-177 | in every run the address a wallet would derive next is taken exactly if another wallet id with its extended key on its chain has issued one |
| Allocation.RefusedForAddressIff | src/application/payments/payment-service.ts:259-330 | a creation nothing else stands in the way of is refused as a duplicate exactly in that case |
| Allocation.CreationsOnSecondFail | src/application/merchant/merchant-service.ts:478-529 | while the other id holds the first address, no creation on this one commits |
| Allocation.SecondWalletStuck | src/application/merchant/merchant-service.ts:478-529 | and this one stays at index 0 for good |
| AllocationWitnesses.RotatedKeyIsRefused | src/application/merchant/merchant-service.ts:478-529 | a run: a wallet issues an address, is rotated to a new id with the same key, and the next creation is refused for its address alone |
| Allocation.OneResponsePerKey | src/application/payments/payment-service.ts:147-190 | while an idempotency record lives, all successes for its merchant and key made the same request and get the same response |
| Allocation.OneCreationPerKey | src/application/payments/payment-service.ts:375-391 | and only one creation under that key commits |
| Failover.HandleKeeps | src/infrastructure/chain/evm-chain-adapter.ts:398-448 | in every interleaving of outcomes and probes the index stays in range and a healthy provider has fewer than two consecutive failures |
| Failover.EvmChainAdapter.WithFailover | src/infrastructure/chain/evm-chain-adapter.ts:398-438 | a call makes at most as many attempts as providers, each on the provider then active and healthy, none exactly if the active one is not healthy |
| Failover.FailingCallAttempts | src/infrastructure/chain/evm-chain-adapter.ts:398-438 | on any pool, which provider each attempt of a call goes to that fails throughout with nothing else going on, and when it gives up: attempt k to the provider whose share of the failures k falls in |
| Failover.ReachedIff | src/infrastructure/chain/evm-chain-adapter.ts:398-438 | such a call reaches a healthy provider exactly if the failures it takes to remove the healthy ones before it are fewer than the providers |
| Failover.EvmChainAdapter.NextHealthyIndex | src/infrastructure/chain/evm-chain-adapter.ts:445-451 | the first healthy provider in cyclic order, unchanged if none is |
| Failover.EvmChainAdapter.CorroborateBlockHeader | src/infrastructure/chain/evm-chain-adapter.ts:289-309 | agreement exactly if a healthy provider other than the active one has the header's hash; disagreement and unavailability likewise |
| Failover.AgreementIsIndependentIff | src/infrastructure/chain/evm-chain-adapter.ts:289-309 | whatever the providers answer, agreement includes a provider other than the one that served the header exactly if the server is still active, or out of the pool |
| Failover.NoFailoverNoMove | src/infrastructure/chain/evm-chain-adapter.ts:417-434 | without a failover between serving and corroborating, the server is still active |
| Failover.ServerVouchesForItself | src/infrastructure/chain/evm-chain-adapter.ts:289-309 | after a failover and a recovery in between, the server alone can vouch for its own header |
| Failover.FailureMovesOn | src/infrastructure/chain/evm-chain-adapter.ts:417-434 | below the threshold nothing moves; at it the provider leaves the pool and the next healthy one takes over |
| Failover.OutOfPoolIff | src/infrastructure/chain/evm-chain-adapter.ts:401-434 | in every interleaving a provider is out of the pool exactly if a failure of it completed a streak of the threshold's length, with no success of it in between, or it was out before, and no probe recovered it since |
| Failover.LateFailureMovesIff | src/infrastructure/chain/evm-chain-adapter.ts:417-434 | a late failure of a replaced provider moves the index off a healthy one exactly if there is a third to move to |
| Failover.StaysOnUnhealthyActive | src/infrastructure/chain/evm-chain-adapter.ts:440-443 | only its own recovery takes an idle adapter off an unhealthy active provider |
| Failover.AttemptsReachHalf | src/infrastructure/chain/evm-chain-adapter.ts:398-438 | on an unused pool attempt k of such a call goes k/2 providers on, so it reaches exactly the first half |
| LedgerServices.CanonicalTotal | src/application/processing/payment-matching-service.ts:446-470 | the loop totals the canonical claims of one payment |
| LedgerWorkers.SchedulerService.FindDue | src/application/scheduler/scheduler-service.ts:164-169 | at most the limit, only due payments, none twice, all of them if they fit |
| LedgerWorkers.PaymentConfirmationService.AdvanceTo | src/application/processing/payment-confirmation-service.ts:246-280 | into confirming or one step deeper, or the rejection on record |
| LedgerWorkers.PaymentConfirmationService.ConfirmScreened | src/application/processing/payment-confirmation-service.ts:282-378 | the compliance gate and the terminal step |
| LedgerWorkers.PaymentConfirmationService.HoldScreened | src/application/processing/payment-confirmation-service.ts:282-330 | a hold puts a screening not yet on the payment there and is annotated |
| LedgerWorkers.PaymentConfirmationService.TakeLastStep | src/application/processing/payment-confirmation-service.ts:343-378 | the confirmation, or its rejection on record |
| LedgerWorkers.PaymentConfirmationService.RecordRejection | src/application/processing/payment-confirmation-service.ts:457-484 | a rejected attempt leaves an audit row and nothing else |
| LedgerWorkers.RawTotal | src/application/watcher/reorg-resolution-service.ts:284-294 | the loop sums logged amounts of canonical claims |
| LedgerSteps.RecomputeReads | src/application/watcher/reorg-resolution-service.ts:284-306 | if the version recomputation read still stands and claims are verbatim or canonical, what it stores lies between the canonical and the full claim total |
| LedgerWitnesses.RecomputeOvercounts | src/application/watcher/reorg-resolution-service.ts:284-306 | a run: of two partial deposits the second is orphaned, and the recomputation stores the logged amount of the first, above what was received |
| LedgerWitnesses.TwoCapturesCountTwice | src/application/processing/payment-matching-service.ts:657-677 | a run: one transfer captured under two log indexes, neither row flagged, is claimed and totalled twice |
| LedgerWitnesses.ExcessOutlivesDeposit | src/application/processing/payment-matching-service.ts:573-599 | a run: an overpaying deposit is orphaned and replaced by an exact one; the excess of the first stays on record |
| LedgerWitnesses.ReleaseReportsConfirmed | src/application/processing/payment-confirmation-service.ts:282-378 | a run: a release over a flagged sender makes both its writes, reports confirmed, and leaves the payment confirming |
| CursorStorage.MongoChainCursorStorage.MarkOrphaned | src/application/watcher/reorg-resolution-service.ts:165-174 | blocks above the fork point are flagged, none deleted, whatever the version |
| WatcherBatch.Corroborated | src/application/watcher/watcher-service.ts:533-541 | true exactly if every header of the batch is corroborated |
| WatcherBatch.Submit | src/application/watcher/watcher-service.ts:559-572 | one submission: acknowledged, queued and stored; or, by where it fails, queued and stored, stored only, or neither |
| WatcherBatch.SubmitTransactions | src/application/watcher/watcher-service.ts:584-607 | one block's native transfers, in order, up to a stop or failure, with at most the one in flight stored unacknowledged |
| WatcherBatch.WatcherService.SubmitAll | src/application/watcher/watcher-service.ts:543-609 | logs, then native transfers, up to the first stop or failure among everything examined, with at most the one in flight stored unacknowledged |
| WatcherBatch.WatcherService.SubmitBlocks | src/application/watcher/watcher-service.ts:579-608 | the native transfers of all headers' blocks, ending where the first stop, failure or missing answer is |
| WatcherBatch.SubmitBlock | src/application/watcher/watcher-service.ts:580-607 | one block's native transfers |
| WatcherBatch.WatcherService.SubmitAndCommit | src/application/watcher/watcher-service.ts:544-627 | everything submitted and then the commit, or sleep or failure where submitting ended |
| WatcherBatch.WatcherService.ProcessFetched | src/application/watcher/watcher-service.ts:533-627 | a batch whose headers were fetched: nothing is submitted unless every header is corroborated |
| WatcherBatch.WatcherService.Commit | src/application/watcher/watcher-service.ts:612-625 | the commit happens exactly if the version stands and no header contradicts history |
| ChainLoop.ChainWatch.Batch | src/application/watcher/watcher-service.ts:490-628 | told by the store it finds and what the provider shows: the chain is anchored first where it has no cursor, the batch meets a discontinuity exactly under that condition, submits nothing unless the range follows and is corroborated, and leaves the store as it was or one batch further |
| ChainLoop.ChainWatch.Anchor | src/application/watcher/watcher-service.ts:494-508 | the cursor is created exactly at a corroborated look-back header, and a missing one throws |
| ChainLoop.ChainWatch.ResolveDiscontinuity | src/application/watcher/watcher-service.ts:457-473 | blocks, cursor and ledger afterwards are what the search and the failure point determine; resolved exactly if a fork point was found and nothing failed |
| Interpretation.EventInterpretationService.FinalizeOutcome | src/application/ingestion/event-interpretation-service.ts:376-421 | written only while absent; the outcome that stands is returned either way |
| AuditChain.CheckEntry | src/infrastructure/mongodb/audit-service.ts:170-217 | one entry of the walk: sequence, previous hash and own hash, in that order |
| Registry.RegistryService.CountOpen | src/application/registry/registry-service.ts:802-806 | positive exactly if some payment of the entity is open |
| Failover.EvmChainAdapter.Record | src/infrastructure/chain/evm-chain-adapter.ts:412-434 | the bookkeeping after an operation or a probe is exactly the pool's transition |
| Failover.EvmChainAdapter.Attempt | src/infrastructure/chain/evm-chain-adapter.ts:402-434 | one attempt, with whatever completes while it waits |
| RegistryRuns.VersionNamesConfiguration | src/application/registry/registry-service.ts:291-335 | a version names one configuration of a chain or token: while it stands only the allocation counter moves |

## What the code does not do

Each of these is a property one would expect, false of the code as written. The model keeps
the code's behaviour; the member named states exactly when the property holds, or shows the
failure for every input of its kind.

- The reorg recomputation of a pending payment sums logged amounts where claims sum
  received ones (`LedgerHistories.RecomputeIsRightIff`, `LedgerWitnesses.RecomputeOvercounts`).
- `excessAmount` stays when the excess goes (`LedgerHistories.ExcessIsCurrentIff`,
  `LedgerWitnesses.ExcessOutlivesDeposit`).
- A confirmation that loses its version check still appends its audit row
  (`LedgerHistories.AuditRowWithoutTransition`).
- A release decision over a non-clear screening never confirms in the same call, because
  both writes are conditional on one version, yet the call reports `confirmed`
  (`LedgerHistories.ConfirmsIff`, `LedgerWitnesses.ReleaseReportsConfirmed`).
- A native transfer's identity ignores its chain (`Ingestion.NativeTransferLostAcrossChains`).
- The comment at src/application/processing/payment-matching-service.ts:169 says
  replacement blocks carry their own new events. A transaction re-included with the same log
  index does not get one: it keeps the row that was orphaned
  (`Delivery.ReincludedKeepsFirstBlock`).
- Logs and native transactions are asked for by height after the headers were, so what a
  batch submits may come from other blocks: transfers are skipped
  (`Delivery.LogsSufficeIffPinned`, `Delivery.NativeIffPinned`), and a native transfer of
  another block is stored under the hash of one that never held it (`Delivery.NativeIffPinned`).
- A failure between resolution's orphaning commit and its rewind, and a batch that
  re-observes an orphaned block, each leave a hole no later step fills
  (`LinkedHistory.LinkedUnlessHoled`, `LinkedHistory.HolesArePermanent`; runs in
  `ChainWitnesses.CrashLeavesHole`, `ChainWitnesses.ReadoptionLeavesHole`), and with the hole
  at the cursor resolution can never succeed (`ForkSearch.HoleAtCursorHalts`). Any rejection
  on the way halts the chain, with blocks flagged and payments adjusted so far
  (`ChainLoop.ChainWatch.Iterate`, `ChainLoop.FaultIsInterruption`).
- Orphaning checks no version, so an instance with a stale cursor can orphan blocks under
  another one's cursor (`StaleResolvers.RewindCompletesIff`; runs in
  `ChainWitnesses.TwoResolversOrphanTheForkPoint`, `ChainWitnesses.BatchOverOrphanedHistory`).
- Resolution captures events before the transaction that flags them. One ingested or claimed
  in between is flagged but not on record, and its payment is not adjusted; one another
  resolver flagged in between is on record though this commit flags nothing of it
  (`ReorgResolution.RecordExactIff`, `ReorgResolution.LateClaimIsMissed`,
  `ReorgResolution.FlaggedElsewhereIsListed`).
- Resolution writes each affected payment conditional on the version it read and checks no
  result. A block decision, a claim or a sweep in between makes the write miss: no finality
  hold and no recomputed total, though incident and annotation go on record
  (`LedgerWorkers.EffectsAdjust`, `LedgerReorgs.HoldPlacedIff`, `LedgerReorgs.TotalPlacedIff`;
  runs in `LedgerWitnesses.IncidentMisses`, `LedgerWitnesses.RecomputeMisses`).
- Orphaning moves no payment's version. A confirmation that read its event before it still
  confirms after it, when the resolver has already passed the payment by
  (`LedgerReorgs.ConfirmedOnCanonicalIff`, `LedgerWitnesses.ConfirmsOnOrphaned`).
- A balance delta is the holder's change over a whole block, so two transfers of one block
  are each claimed at the block's total (`BalanceDeltas.ClaimedAtMostReceivedIff`,
  `BalanceDeltas.BlockTotalCountsTwice`).
- A batch that submitted and did not commit leaves rows no resolver flags if the chain drops
  their block before the next batch; a re-included transaction then counts twice
  (`CanonicalRows.AlwaysPlacedIff`, `CanonicalRows.CountedTwice`,
  `LedgerWitnesses.TwoCapturesCountTwice`).
- A submission can be stored without being queued or acknowledged; the row then waits for a
  retry (`Ingestion.EventIngestionService.Ingest`). No batch commits over one
  (`WatcherBatch.CommittedIsQueued`).
- A wallet registered with an extended key that already issued addresses on its chain under
  another id never issues one: every payment creation on it is refused, and exactly then is
  one refused for its address (`Allocation.NextAddressTakenIff`,
  `Allocation.RefusedForAddressIff`, `Allocation.SecondWalletStuck`; a run in
  `AllocationWitnesses.RotatedKeyIsRefused`).
- Audit verification reads entries and head in two reads
  (`AuditChain.AcceptsAcrossReadsIff`).
- Both serializers depend on the order of insertion where `localeCompare` ties two keys
  (`CanonicalTheorems.IgnoresKeyOrderIff`), print non-finite numbers as null, and
  `stableStringify` prints a date as an empty object and an array of one undefined element
  as an empty array (`CanonicalJson.Mean` lists what is not told apart).
- A header can be corroborated by the provider that served it, after a failover and a recovery
  in between (`Failover.AgreementIsIndependentIff`, `Failover.ServerVouchesForItself`).
- An adapter whose active provider is unhealthy makes no attempt even when another provider
  has recovered (`Failover.EvmChainAdapter.WithFailover`, `Failover.StaysOnUnhealthyActive`);
  a late failure of a replaced provider fails over again (`Failover.LateFailureMovesIff`);
  and a failing call does not reach every healthy provider: with two unused ones, never the
  second (`Failover.ReachedIff`, `Failover.AttemptsReachHalf`).

## Left out

- LedgerTheorems.AmountsInEveryRun: brackets the stored total by the canonical and the full
  claim total only while no claim was orphaned or every claim is verbatim, because the reorg
  recomputation sums logged amounts.
- LinkedHistory.LinkedUnlessHoled: is about one watcher instance. For several,
  `StaleResolvers.HeightTakenIff` says which heights have a canonical block and
  `StaleResolvers.RewindCompletesIff` what a resolver leaves; that their blocks link is not
  stated, since a stale orphaning commit breaks it.
- Delivery.NothingSkipped: takes the logs and transactions of a batch to be those of its
  headers' blocks, because the code asks for them by height; `Delivery.PinnedSees`,
  `Delivery.LogsSufficeIffPinned` and `Delivery.NativeIffPinned` say when they are.
- Failover.FailingCallAttempts: is about a call with nothing else going on; the contract of
  `Failover.EvmChainAdapter.WithFailover` covers any interleaving.
- ChainLoop.ChainWatch.ResolveDiscontinuity: has a resolver. A watcher built without one
  (src/application/watcher/watcher-service.ts:461) halts on every discontinuity.
- CanonicalRows.AlwaysPlacedIff: rows carry block, transaction and flag only; what the ledger
  makes of two rows of one transaction is `LedgerWitnesses.TwoCapturesCountTwice`.
- BalanceDeltas.ClaimedAtMostReceivedIff: is about a token that requires deltas over the whole
  run and reads of the holder's true change; a holder that also sends is not modelled.
- HTTP routers and their validation but for the amount limit, sessions, merchant lifecycle,
  environment parsing, metrics, logging, rate limits and the Redis lock and lease: plumbing,
  or guards the code itself does not rely on.
- MongoDB, Redis and the job queue themselves: a transaction is one atomic step of a run, in
  the registry model one commit under snapshot isolation with first committer wins; a
  transaction that is retried is one more step.
- Transaction retries re-run their callback; the sweep's `expired` counter, which a retried
  callback would raise twice, counts each payment once here.
- Inside a MongoDB transaction a duplicate outbox key aborts the whole transaction, where
  the code's handler treats it as benign; `Outbox.KeyInjective` and
  `LedgerHistories.OutboxExactlyOnce` show that no writer ever meets one.
- Timestamps that guard nothing (`matchedAt`, `confirmedAt`, `observedAt`, `ingestedAt`), the
  notes of annotations, and the reorg id in the identity of a reorg annotation: repeated
  reorgs of one payment collapse to one annotation here.
- Configuration is constant over a run, and the ledger's runs do not model compliance list
  updates; screening may change at any step.
- Webhook HTTP delivery and the status of delivery rows.
- Ledger runs take an event's interpretation as given; `Interpretation` models how it is
  reached.
- Merchant status, the network allowlist and screening are inputs of payment creation. Key
  derivation stands for itself: an address is the chain, extended key and index it is derived
  from, different ones for different indexes and keys.
- Registry verification against the chain before activation and update: such a transaction
  only carries its version check and its new document.
- Lone surrogates in JSON strings; objects whose values are functions, symbols or big
  integers (`normalizeCanonical` throws on those).
- The field layout of an audit entry beyond sequence and previous hash: the body is any JSON
  object without those two keys. The round trip of stored payloads through BSON is taken to
  be faithful.
- The adapter's start-up identity check, `watchDeposits`, and the decimal guard.
- The watchlist refresh (src/application/watcher/watcher-service.ts:240-340): the watchlist
  is fixed over a run.
