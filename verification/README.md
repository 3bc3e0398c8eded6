# DecAustrum: a verified model

DecAustrum decides whether an agent's action is allowed, asks a human where a policy says so,
hands out single-use execution grants, and keeps evidence of all of it. This project models its
five stateful cores in Dafny and proves what they promise, for every input and every interleaving.
`dafny verify dfyconfig.toml` verifies everything.

| Part | Files | What is modelled |
|---|---|---|
| Integrity ledger | `Integrity`, `Ledger`, `LedgerWrites`, `Backfill`, `Evidence`, `Export`, `Archive` | per-project hash chain: append, rebuild, online verification, evidence bundles and their offline verification, the archive |
| Approvals and grants | `Store`, `StoreInvariants`, `Accounting`, `Protocol`, `ProtocolInvariants`, `ProtocolRuns`, `ProtocolVerdicts`, `ProtocolTheorems`, `ProtocolAnswers`, `ProtocolFreshIds`, `ProtocolWitness`, `EvidenceStore` | decisions, approvals, execution grants, idempotency keys, audit log, outbox |
| Webhooks | `Webhooks`, `WebhookInvariants`, `WebhookOutcomes`, `WebhookRaces`, `WebhookRepository` | subscriptions, fan-out, claims with leases, retries, dead letters, redelivery, the worker loop |
| Policies | `PolicyHistory`, `PolicyOutcomes`, `Operators`, `Evaluator` | versioned history with rollback, the evaluation loop and its operators |
| Fast forms | `RateLimit`, `GrantTokens`, `Timestamps` | the window limiter against a plain count, canonical tokens, timestamp text against instants |

How the model is built:

* SHA-256 over canonical JSON is a free constructor `Sha256(message)`, beside `Foreign` digests that
  hash nothing here. Collision freedom then holds by construction. Verification is defined and
  characterised on arbitrary tables, not only on reachable ones.
* Tables are maps keyed as their PRIMARY KEY or UNIQUE columns say; CHECKs, triggers and `WHERE`
  guards are conditions of the writes. A transaction is all or nothing.
* A service call is a program counter. Each of its steps is one read or one write transaction,
  because Python's default transaction mode runs the reads before the first write outside the write
  transaction (`app/storage/database.py:905`). `Protocol.Run` and `PolicyHistory.Run` interleave any
  number of calls in any order, and a call may stop for ever.
* What changes in place is a class: `DecisionIntegrityRepository`, `EvidenceStore`,
  `WebhookRepository`, `ProjectPolicyRepository`, `FixedWindowRateLimiter`. Their methods are proved
  equal to the transition functions that the theorems are about; the approval and grant methods of
  `EvidenceStore` are proved to be the protocol's steps, whatever other callers commit before each step.
* Clocks, UUIDs, the webhook transport and policy verdicts are inputs of a step. Instants are UTC
  microseconds, and `Timestamps` shows that comparing their stored text is comparing them.

Where the code does not do what one would expect, the model keeps the code, shows an input, and says
exactly when:

* Two consumers that both find a grant overdue: the second one's UPDATE matches no row and the call
  ends in the internal error "Execution grant expiration failed." instead of "expired".
  `ProtocolWitness.LapseFailureIsReached` is a whole run that ends there, `ProtocolInvariants.LapseRefused`
  says exactly when the UPDATE matches no row, and `ProtocolTheorems.OnlyLapseFails` proves that it is
  the only RuntimeError.
* A rejection dated before the request it rejects ends in the validation error of the resolved row, which
  the service does not catch (`app/services/approvals.py:33-78`). `ProtocolTheorems.OnlyEarlyRejectionsAreInvalid`
  says that no other call does, and exactly when this one does.
* An approver that read the approval as pending and meets it APPROVED at the store's own check
  (`app/evidence_store.py:635-650`, `app/services/approvals.py:296-315`) is handed the stored grant in whatever
  state it is, while the other paths look at its status and expiry first. `ProtocolTheorems.GrantedExactlyWhen`
  says at which steps an approver gets a grant, and `ProtocolWitness.SpentGrantIsHandedOut` is a run that
  hands out a consumed one.
* An approval whose write is refused while it is still pending, because it is dated before its request or its
  grant would have no lifetime or a used id, is answered with the conflict "already PENDING"
  (`app/services/approvals.py:275-295`); `ProtocolAnswers.ApproveAnswers` says exactly when. A rejection
  whose approval expires between its read and its write is told "already resolved" instead of "expired":
  `ProtocolAnswers.RejectStepAnswers`.
* An evidence export whose checkpoint was appended between the capture and the checkpoint's check ends
  in the error of a bundle that failed its own verification. `Export.LateCheckpointFails` shows it, and
  `Export.CreateBundle` says exactly when each error occurs; with a checkpoint no newer than the
  snapshot only the size limits can fail an export.
* The rate limiter's eviction is unobservable with one window length for everybody, but with different
  lengths it can admit too many checks. `RateLimit.EvictionShowsIff` says exactly at which checks, for
  one window length per key and a clock that never goes back, and `RateLimit.EvictionShowsAcrossWindows`
  shows a run. `retry_after` exceeds the window exactly for negative fractional times that truncate onto
  a window boundary (`RateLimit.RetryReachesLaterWindow`; `RateLimit.RetryAfterExceedsWindow` shows one).
* Recording a delivery result and requesting a redelivery read before their write transaction begins.
  A delivery cancelled in between keeps an attempt that no counter covers, and a subscription disabled in
  between gets a waiting delivery: `WebhookRaces.LostAttemptIsReached` and `WebhookRaces.WaitingOnDisabledIsReached`
  are runs from the empty hub. `WebhookRaces.SplitRunsKeepIff` says that nothing else goes wrong in any run with
  any number of such calls, and `WebhookRaces.SplitRunIsAtomic` that a run without these two writes is a run of
  atomic operations, which the other webhook theorems are about.
* An archive loads back exactly when no serialised record or proof holds U+0085, U+2028 or U+2029
  (`Archive.LoadInvertsBuild`; `Archive.SeparatorBreaksArchive` shows one that does not).
* The decision of an evaluation is independent of policy order, the winning policy is not.
  `Evaluator.WinnerIndependentIff` says exactly when it is: no policy applies, the decision is ALLOW, or
  all policies that reach the decision share one id. `Evaluator.WinnerDependsOnOrder` shows a pair.

## Model

| member | source | states |
|---|---|---|
| `Ledger.CheckRow` | app/storage/integrity.py:396-574 | one row passes exactly when it stores the proof of its decision on top of the row before; otherwise the failure code says truly what is wrong |
| `Ledger.Verify` | app/storage/integrity.py:300-608 | on any tables, read by three statements at three moments: verified exactly when counts agree and no decision or record is unmatched, the joined rows are a sound chain and a given checkpoint is in it; a failure reports the longest sound prefix as checked |
| `Ledger.SoundIsFold` | app/storage/integrity.py:392-578 | rows are sound exactly when they equal the chain folded over their decisions |
| `Ledger.VerifiesIffFolded` | app/storage/integrity.py:300-608 | a ledger at rest verifies exactly when decisions and records are in bijection, the stored chain is the fold of the decisions in sequence order, and the checkpoint is in it |
| `Ledger.CheckpointPinsPrefix` | app/storage/integrity.py:392-608 | a checkpoint shared by two verified ledgers stands at the same position and the decisions and records up to it are equal |
| `Ledger.EqualHeadsEqualLedgers` | app/storage/integrity.py:392-608 | two verified ledgers with equal heads hold equal decisions and records |
| `LedgerWrites.NextProofAccepted` | app/storage/integrity.py:81-114 | no key, CHECK or trigger refuses the next proof of a sound chain |
| `LedgerWrites.AppendKeepsSound` | app/storage/integrity.py:81-114 | an append is refused exactly for a repeated decision id, otherwise it extends its project's chain by one record and keeps every chain sound |
| `LedgerWrites.ReachableVerifies` | app/storage/integrity.py:81-114 | after any sequence of appends every project verifies |
| `LedgerWrites.CheckpointSurvivesGrowth` | app/storage/integrity.py:300-391 | a checkpoint taken earlier verifies in every later ledger, also when counts, unmatched rows and rows are read at three different moments |
| `LedgerWrites.SplitReadScan` | app/storage/integrity.py:300-391 | rows read later than the counts, up to the counted sequence, are the chain as it was when counted |
| `Backfill.DecisionIntegrityRepository.Insert` | app/storage/integrity.py:81-114 | inserts the next proof of the chain or leaves the tables alone |
| `Backfill.DecisionIntegrityRepository.BackfillExistingDecisions` | app/storage/integrity.py:117-182 | rebuilds every empty chain in one transaction, or leaves every project as it was |
| `Backfill.RebuildIsInsertAll` | app/storage/integrity.py:117-182 | the rebuilding pass is the same as inserting its decisions one at a time |
| `Backfill.BackfillRefinesInsert` | app/storage/integrity.py:117-182 | for a project without records the backfill yields what incremental inserts in (evaluated_at, decision_id) order yield |
| `Backfill.BackfillVerifies` | app/storage/integrity.py:117-182 | an upgradable database is backfilled without error, no decision changes, and every project verifies |
| `Backfill.BackfillIsIdempotent` | app/storage/integrity.py:117-182 | a second run changes nothing |
| `Backfill.PartialLedgerRejected` | app/storage/integrity.py:117-182 | a project with some but not all records makes the run fail |
| `Evidence.VerifyBundle` | app/evidence.py:201-496 | on any bundle: verified exactly when counts, digests, chain, head, checkpoints and selected records are sound; a failure code is true of the bundle |
| `Evidence.BundleCheckpointPinsPrefix` | app/evidence.py:283-402 | a record hash shared by two verified bundles stands at one position, for one project, after equal proofs |
| `Evidence.SelectedDecisionPinned` | app/evidence.py:403-496 | two verified bundles anchored at one checkpoint show the same decision under the same id |
| `Evidence.BundleDigestPinsBundle` | app/evidence.py:76-95 | equal bundle digests mean equal bundles |
| `Evidence.BundlePinsLedger` | app/evidence.py:283-402 | a verified bundle and a verified ledger that share a hash agree on everything up to it |
| `Evidence.SelectedDecisionIsStored` | app/evidence.py:403-496 | a selected decision of a bundle anchored in a verified ledger is the one the ledger stores |
| `Export.CaptureRecords` | app/storage/evidence.py:160-258 | one read transaction captures head, count and exactly the selected records in order; too many records, the size limit and an unreadable row are reported exactly when they stop the loop |
| `Export.ListChain` | app/storage/evidence.py:320-368 | lists every proof up to the captured sequence, or reports the byte limit exactly when the readable proofs exceed it |
| `Export.VerifySnapshot` | app/services/evidence.py:76-149 | on a ledger that only grew there is a conflict exactly when the checkpoint is not in the ledger |
| `Export.CreateBundle` | app/services/evidence.py:76-187 | with reads at eight moments of a growing ledger, three in each verification, an exact case split: each limit, the conflict, and the failed self-verification (a checkpoint the ledger holds at its check but not at the capture); otherwise a bundle that verifies, with the selected records and the whole captured chain. Changed counts, changed heads and unreadable rows never occur |
| `Export.LateCheckpointFails` | app/services/evidence.py:152-187 | a checkpoint appended after the capture verifies in the ledger and yet fails the export |
| `Export.ChainReadLater` | app/storage/evidence.py:320-368 | the chain read later, up to the captured sequence, is the captured chain |
| `Export.StoredChainVerifies` | app/evidence.py:283-402 | a chain read from a sound ledger is sound offline |
| `Export.BuiltBundleVerifies` | app/evidence.py:98-176 | a bundle built from a capture verifies offline |
| `StoreInvariants.SaveKeeps` | app/evidence_store.py:924-1016 | a committed save keeps the tables consistent and changes no existing row |
| `StoreInvariants.ExpireDueKeeps` | app/storage/approvals.py:192-257 | the sweep keeps the tables consistent even when it writes rows selected at an earlier moment |
| `StoreInvariants.RejectKeeps` | app/evidence_store.py:543-597 | a rejection keeps the tables consistent and resolves one pending approval |
| `StoreInvariants.ApproveKeeps` | app/evidence_store.py:599-712 | an approval and its grant appear together and keep the tables consistent |
| `StoreInvariants.ConsumeKeeps` | app/storage/execution_grants.py:145-185 | a consumption ends one active grant and keeps the tables consistent |
| `Accounting.OneEventPerTransition` | app/evidence_store.py:139-148 | in a log that replays, each approval is resolved once and each grant issued and ended once |
| `Accounting.ReplayWithLaterRequest` | app/evidence_store.py:139-148 | a request that arrives later does not disturb the replay of what came before |
| `Accounting.ApproveKeepsBooks` | app/evidence_store.py:681-710 | an approval is recorded as one resolution and one issue, in audit log and outbox |
| `Accounting.ConsumeKeepsBooks` | app/evidence_store.py:866-888 | a consumption is recorded exactly once |
| `Accounting.ExpireDueKeepsBooks` | app/evidence_store.py:485-530 | a sweep records exactly the approvals it expired |
| `Accounting.SaveKeepsBooks` | app/evidence_store.py:981-1016 | a save adds one outbox event for the decision and one for its approval |
| `ProtocolInvariants.StablePc` | app/services/approvals.py:81-315 | what a call learned from its reads stays true whatever other calls commit |
| `ProtocolInvariants.StepKeeps` | app/evidence_store.py:485-896 | every step of every call keeps tables, books and what the call knows |
| `ProtocolRuns.StepFootprint` | app/evidence_store.py:485-1016 | only a successful consumption consumes, only a successful save saves, and a failed save leaves the database as it was |
| `ProtocolRuns.RunKeeps` | app/evidence_store.py:485-1016 | any run of any number of calls keeps the invariant and never reverses a row |
| `ProtocolTheorems.ReachableTables` | app/storage/database.py:179-392 | in every reachable state: an approval exactly for each decision that requires one, a grant exactly for each approved approval, and every ledger verifies |
| `ProtocolTheorems.RowsFrozen` | app/storage/database.py:197-379 | resolved approvals, ended grants, decisions, proofs and keys never change again |
| `ProtocolTheorems.AnswersAreFinal` | app/services/approvals.py:81-315 | a call's answer never changes in any continuation |
| `ProtocolTheorems.OnlyLapseFails` | app/services/approvals.py:296-315 | the regeneration error and the other RuntimeErrors are unreachable, except a failed grant expiration |
| `ProtocolTheorems.OnlyEarlyRejectionsAreInvalid` | app/services/approvals.py:33-78 | a call ends in the uncaught validation error exactly when it is a rejection, writing at a time before its still pending approval was requested |
| `ProtocolTheorems.SecondExpirerFails` | app/evidence_store.py:794-807 | from any state in which two calls found one active grant overdue, the second ends in the failed expiration |
| `ProtocolWitness.LapseFailureIsReached` | app/evidence_store.py:794-807 | a concrete run from the initial state in which a call ends in the failed expiration |
| `ProtocolTheorems.ConsumedAtMostOnce` | app/storage/execution_grants.py:145-185 | over a whole run and any continuation at most one call consumes a decision's grant |
| `ProtocolTheorems.ConsumptionIsBoundAndTimely` | app/services/execution_grants.py:37-103 | a consumption presents the authorized request and happens before requested_at + approval_ttl + grant_ttl |
| `ProtocolTheorems.ConsumeAloneSucceedsIff` | app/services/execution_grants.py:37-143 | an uninterrupted consumption succeeds exactly for the stored, active, unexpired grant presented with its own request, and not a second time |
| `ProtocolTheorems.OneGrantForAllApprovers` | app/services/approvals.py:181-315 | all approvers of a decision that get a grant get the same payload, so the same token |
| `ProtocolTheorems.LoserGetsWinnersGrant` | app/services/approvals.py:244-295 | an approver refused at its INSERT because another approved first gets the winner's grant exactly when it is active and unexpired, else learns the approval is resolved |
| `ProtocolTheorems.GrantedExactlyWhen` | app/services/approvals.py:81-315 | in every reachable state, exactly which steps of an approver end with a grant, and that it is the stored one: usable where the service looks it up, in any state where the store's own check meets APPROVED, and its own where its write commits |
| `ProtocolWitness.SpentGrantIsHandedOut` | app/evidence_store.py:635-650 | a concrete run from the initial state in which an approver is handed a grant that has been consumed |
| `ProtocolTheorems.OneSavePerKey` | app/storage/idempotency.py:12-35 | at most one decision is ever saved under a project's key and every stored decision comes from one save |
| `ProtocolTheorems.SameKeySameDecision` | app/services/authorization.py:25-192 | all callers of one project and key that get an authorization get the same one, presented the same request, and get the verdict that the policies gave to the step that saved it |
| `ProtocolTheorems.ConflictMeansOtherRequest` | app/services/authorization.py:25-65 | a conflict is reported only for a request that differs from the saved one |
| `ProtocolTheorems.LosingSaveFindsWinner` | app/services/authorization.py:97-190 | a save with a new id and a positive lifetime fails exactly when its key is taken; otherwise it answers and stores the verdict, field by field |
| `ProtocolVerdicts.SaveCarriesVerdict` | app/services/authorization.py:97-139 | a saving step refuses the context exactly when the policies gave no verdict; a saved and answered authorization has the outcome, policy, version, reason, evidence and trace of the verdict, the time of the step and the request of the caller |
| `ProtocolVerdicts.StoredDecisionsCarryVerdicts` | app/services/authorization.py:68-192 | every decision stored by any run was saved by one step of it and carries the verdict given to that step |
| `ProtocolTheorems.AnswerIsCarried` | app/services/authorization.py:25-192 | every authorization ever answered, saved or found again under its key, is the verdict given to the step that saved it |
| `ProtocolAnswers.AuthorizeAnswers` | app/services/authorization.py:68-192 | an uninterrupted authorization, by what is stored: the stored decision or the conflict for a held key, no database change for a refused context, a used id or an approval without lifetime, and otherwise exactly the rows of the save |
| `ProtocolAnswers.SaveAnswers` | app/evidence_store.py:924-1016 | whatever committed before, a save goes through exactly for a new id, a free key and a positive lifetime where an approval is due; it adds the decision, a pending approval exactly when the verdict asks for one, the key, one authorization event and, exactly with an approval, one approval event |
| `ProtocolAnswers.RejectAnswers` | app/services/approvals.py:33-78 | an uninterrupted rejection goes through exactly for a pending approval of the project inside its window, with actor and time in the row and in one audit event; each other answer has its exact condition on the stored row |
| `ProtocolAnswers.RejectStepAnswers` | app/evidence_store.py:562-597 | whatever other calls commit before it, what the read and the write of a rejection answer and change, by the row they meet |
| `ProtocolAnswers.SweepMeans` | app/storage/approvals.py:192-257 | a sweep expires exactly the overdue approvals of the project, each with one event in the order they ran out, and changes nothing else |
| `ProtocolAnswers.ApproveAnswers` | app/services/approvals.py:81-315 | an uninterrupted approval, by the row it finds on entry: every answer with its exact condition, and when it goes through the approved row, the grant bound to the authorized request, their two events and nothing else |
| `ProtocolAnswers.ApproveRaceAnswers` | app/services/approvals.py:244-295 | what an approver answers by the status that the store's own check, or its reread after a refused write, finds |
| `ProtocolAnswers.ConsumeAnswers` | app/services/execution_grants.py:37-143 | an uninterrupted consumption, by the stored grant: invalid, mismatch, already consumed, expired, marked expired just now, or consumed with consumer and time in the row and in one audit event, and in each case the whole new database |
| `ProtocolAnswers.ConsumeWriteAnswers` | app/evidence_store.py:838-888 | a consumer that lost the race for a checked grant is told consumed or expired as the grant has become |
| `ProtocolAnswers.EveryCallAnswers` | app/evidence_store.py:485-1016 | in any run a call answers by its thirteenth step, whatever other calls do in between |
| `ProtocolFreshIds.NoDatabaseError` | app/services/authorization.py:163-192 | in every run that draws no UUID twice, no call ends in a database error: a losing authorization finds the winner |
| `ProtocolFreshIds.OnlyAuthorizationsFail` | app/services/approvals.py:244-258 | whatever ids are drawn, approvals, rejections and consumptions never end in a database error |
| `ProtocolFreshIds.ApproveWriteSucceedsIff` | app/evidence_store.py:671-680 | with a new grant id the approving write goes through exactly for a pending approval inside its window and a positive grant lifetime |
| `ProtocolTheorems.ReachableBooks` | app/evidence_store.py:123-148 | replaying the audit log over the pending approvals gives the current tables, and the outbox has one event per audit event, decision and approval |
| `ProtocolTheorems.ReachableEventsOnce` | app/evidence_store.py:139-148 | each approval is resolved, and each grant issued and ended, by at most one event |
| `ProtocolTheorems.ExportsSeeGrowingLedgers` | app/services/evidence.py:76-187 | the ledgers that an export reads during any run are the sound, growing ones that the export theorems are about |
| `EvidenceStore.EvidenceStore.SaveAuthorizationWithApproval` | app/evidence_store.py:924-1016 | inserts row after row, and either all rows are there or none |
| `EvidenceStore.EvidenceStore.ExpireDueApprovals` | app/evidence_store.py:485-530 | whatever commits between its SELECT and its UPDATEs, the loops expire and audit once exactly the selected approvals that are still due |
| `EvidenceStore.EvidenceStore.ResolveApproval` | app/evidence_store.py:543-597 | with others committing inside the sweep, after it, and before the write, it is the protocol's sweep, read and write |
| `EvidenceStore.EvidenceStore.ApproveApprovalWithGrant` | app/evidence_store.py:599-712 | with others committing inside the sweep and before every read and the write, it is the protocol's sweep, checks and write, with rollback after a refused resolution |
| `EvidenceStore.EvidenceStore.ConsumeExecutionGrant` | app/evidence_store.py:736-896 | whatever commits between its read and its write, it is the protocol's check and write; expiry is committed before its error is raised, every other error changes nothing |
| `WebhookInvariants.PublishSucceedsIff` | app/storage/webhooks.py:380-449 | a fan-out is refused exactly when the event or a drawn id already exists |
| `WebhookInvariants.OneDeliveryPerSubscriber` | app/storage/webhooks.py:380-449 | exactly one delivery, due at once, for each active subscription of the project that selects the type |
| `WebhookInvariants.RunKeeps` | app/storage/webhooks.py:250-1173 | every run keeps row shape, attempt conservation, attempt numbering 1..attempt_count, links, and no waiting delivery on a disabled subscription |
| `WebhookInvariants.ReachableHubOk` | app/storage/webhooks.py:250-1173 | all of this holds in every reachable state |
| `WebhookInvariants.RetryBudget` | app/storage/webhooks.py:939-1093 | between redeliveries at most max_attempts - failure_count further attempts are made |
| `WebhookInvariants.FinalStatesAbsorb` | app/storage/webhooks.py:939-1173 | DELIVERED and CANCELLED deliveries never change, old events get no new delivery, attempts are never rewritten |
| `WebhookInvariants.ClaimSelects` | app/storage/webhooks.py:743-849 | a claim takes at most limit deliveries, all eligible, and leaves behind none that comes before one it took |
| `WebhookInvariants.DueTimeIsNextAttempt` | app/storage/webhooks.py:787-800 | in reachable states the order is by next_attempt_at, also for expired leases |
| `WebhookInvariants.LeasesDoNotOverlap` | app/storage/webhooks.py:743-849 | two claims of one delivery without a result in between are at least the lease apart |
| `WebhookInvariants.RetryDelays` | app/storage/webhooks.py:1029-1038 | retry delays never shrink, at most double, and stay within the cap |
| `WebhookOutcomes.RecordMeans` | app/storage/webhooks.py:995-1085 | an accepted result delivers exactly on success, cancels exactly when it failed for an inactive subscription, is a dead letter exactly after the last attempt, and otherwise is due after the capped doubling delay; every other column and row is pinned |
| `WebhookOutcomes.RecordRefusedIff` | app/storage/webhooks.py:953-971 | a result is refused exactly for a delivery that is missing or not being processed |
| `WebhookOutcomes.DeliveredIffLastSucceeded` | app/storage/webhooks.py:939-1093 | in every reachable state a delivery is DELIVERED exactly if its last attempt succeeded, it was delivered when that attempt ended, and every earlier attempt failed |
| `WebhookOutcomes.RedeliverMeans` | app/storage/webhooks.py:1095-1173 | a redelivery succeeds exactly for a dead letter of an active subscription and starts it over, due at once |
| `WebhookOutcomes.DisableMeans` | app/storage/webhooks.py:251-324 | disabling cancels exactly the deliveries that wait for the subscription, and only the first time |
| `WebhookOutcomes.ClaimMeans` | app/storage/webhooks.py:743-849 | a claim cancels the abandoned, leases the claimed and touches nothing else |
| `WebhookOutcomes.ClaimTakesEarliest` | app/storage/webhooks.py:787-800 | an eligible delivery is claimed unless as many as the limit come before it |
| `WebhookOutcomes.PublishMeans` | app/storage/webhooks.py:380-515 | a published event and its first deliveries are exactly these rows, and nothing stored changes |
| `WebhookRaces.RecordSplitKeepsIff` | app/storage/webhooks.py:954-1085 | read first and written later, an accepted record is the atomic one unless the row has been cancelled, and then it breaks the attempt numbering |
| `WebhookRaces.RedeliverSplitKeepsIff` | app/storage/webhooks.py:1104-1160 | with delivery, subscription and write at three moments, a redelivery keeps the invariant unless it revives a dead letter whose subscription was disabled in between |
| `WebhookRaces.LostAttemptIsReached` | app/storage/webhooks.py:939-1093 | a run from the empty hub in which a cancellation between read and write leaves an attempt that no counter covers |
| `WebhookRaces.WaitingOnDisabledIsReached` | app/storage/webhooks.py:1095-1160 | a run from the empty hub in which a redelivery leaves a delivery waiting on a disabled subscription |
| `WebhookRaces.SplitRunsKeepIff` | app/storage/webhooks.py:939-1173 | in any run with any number of split records and redeliveries the invariant holds after every move exactly if no write meets a cancelled row or an orphaned dead letter |
| `WebhookRaces.SplitRunIsAtomic` | app/storage/webhooks.py:939-1173 | every such run ends in the state of a run of atomic operations |
| `WebhookRepository.WebhookRepository.InsertEventWithDeliveries` | app/storage/webhooks.py:380-449 | the loop inserts the event and its deliveries, or nothing |
| `WebhookRepository.WebhookRepository.ClaimDueDeliveries` | app/storage/webhooks.py:743-849 | cancels the abandoned, leases the selected, returns them by creation time |
| `WebhookRepository.WebhookRepository.RecordDeliveryResult` | app/storage/webhooks.py:939-1093 | with any operations of others between its read and its first write, the stepwise update is the split record |
| `WebhookRepository.WebhookRepository.DisableSubscription` | app/storage/webhooks.py:251-324 | disables the subscription and cancels exactly what waits for it |
| `WebhookRepository.WebhookRepository.RequestRedelivery` | app/storage/webhooks.py:1095-1173 | with any operations of others after each of its reads, it is the split redelivery, and a refused one writes nothing |
| `WebhookRepository.WebhookRepository.DispatchPendingWebhooks` | app/services/webhooks.py:285-391 | whatever others do meanwhile it is a run of the machine, its summary counts the recorded statuses, and a delivery is counted delivered only for a response in the 200s; undisturbed it returns normally and counts exactly those |
| `PolicyHistory.CommitKeeps` | app/storage/policies.py:243-421 | a write commits exactly when the version it read is still current, never meets a history key, and otherwise reports the version to ask for |
| `PolicyHistory.HistoryIsGapFree` | app/storage/policies.py:89-670 | under any interleaving the versions are one gap-free interval ending at the current one, which is the configuration |
| `PolicyHistory.OneWinnerPerVersion` | app/storage/policies.py:243-421 | no two calls ever write the same version of a policy |
| `PolicyHistory.RaceHasOneWinner` | app/storage/policies.py:243-421 | of two writers of one version the first wins and the second gets the conflict with the next version |
| `PolicyHistory.OriginHasSameContent` | app/storage/policies.py:533-612 | following source_version strictly decreases to a non-rollback entry with the same content |
| `PolicyHistory.FinishedCallWrote` | app/storage/policies.py:533-612 | a finished rollback wrote the content of the version it names as a new version; a finished save wrote its own policy |
| `PolicyHistory.CommitMovesOn` | app/storage/policies.py:243-421 | a commit adds exactly one entry and makes it the enabled current version |
| `PolicyHistory.SeedAllKeeps` | app/storage/policies.py:89-142 | seeding never fails and never overwrites a policy |
| `PolicyOutcomes.DisableMeans` | app/storage/policies.py:631-670 | only the named row changes, only in whether it is enabled and, if it was, in its time |
| `PolicyOutcomes.CommitMeans` | app/storage/policies.py:280-421 | a commit writes one enabled row and one history entry under one key and leaves every other row and entry |
| `PolicyOutcomes.SeedAllMeans` | app/storage/policies.py:89-142 | seeding adds exactly the missing policies, each from its first valid occurrence, and keeps every stored one, enabled or not |
| `PolicyOutcomes.OneKeyPerAction` | app/storage/policies.py:89-670 | in any run an action touches no policy but its own; only a disable switches one off and only a commit switches it on again |
| `PolicyOutcomes.SaveAnswers` | app/storage/policies.py:243-421 | an uninterrupted save goes through exactly with the next version, created or updated, and otherwise reports that version and changes nothing |
| `PolicyOutcomes.RollbackAnswers` | app/storage/policies.py:533-612 | an uninterrupted rollback goes through exactly for a stored version that is not current, whose content becomes the next version |
| `PolicyHistory.ProjectPolicyRepository.SaveWithConnection` | app/storage/policies.py:243-421 | with any commits by others between its read and its write, the method is that compare-and-set |
| `PolicyHistory.ProjectPolicyRepository.SeedPolicies` | app/storage/policies.py:129-142 | the loop seeds the missing policies with their first entry, or nothing |
| `PolicyHistory.ProjectPolicyRepository.DisableWithConnection` | app/storage/policies.py:631-670 | switches off the one policy, setting its time only if it was on; every other policy, every version and the whole history stay |
| `Operators.LessTrichotomy` | app/operators.py:25-51 | both orders of two values are defined together, and then exactly one of <, == and > holds, also inside lists |
| `Operators.OperatorsAgree` | app/operators.py:4-51 | the operators fail on the same type mismatches, == and != are opposite, > is < exchanged |
| `Operators.OperatorsMean` | app/operators.py:25-51 | greater_than holds exactly when the actual value is the larger one: numbers by value, texts at the first difference, lists at the first pair that is not equal; == and != are equality, and operands of different kinds have no answer |
| `Operators.LessMeans` | app/operators.py:38-51 | the order of two values is their numerical order, the text order at the first difference or by prefix, or the list order at the first unequal pair or by length |
| `Operators.SameIsCanonicalEquality` | app/operators.py:25-51 | two values are equal exactly when they are identical once booleans inside are numbers |
| `Operators.SameIsTransitive` | app/operators.py:25-51 | equality of JSON values is transitive although booleans equal numbers inside lists |
| `Evaluator.EvaluatePolicy` | app/policy_engine.py:28-145 | the nested loops return DENY when nothing applies, the first error, or the evaluation that its own trace explains |
| `Evaluator.ExplanationIsUnique` | app/policy_engine.py:98-145 | decision, winner, reason and evidence can be recomputed from the trace |
| `Evaluator.EvaluationMeans` | app/policy_engine.py:28-145 | it fails exactly when a condition of an applicable policy does; otherwise it is DENY exactly when nothing applies or a policy that holds denies, REQUIRE_APPROVAL exactly when none denies and one that holds requires it, else ALLOW |
| `Evaluator.WinnerIsFirst` | app/policy_engine.py:98-145 | the answer names the first policy of the list that holds and reaches the decision, with its version, reason and evidence; ALLOW and an uncovered action name none |
| `Evaluator.TraceIsComplete` | app/policy_engine.py:53-119 | the trace has one entry for each applicable policy, in order, with what each condition met and whether the policy holds |
| `Evaluator.ErrorIsFirst` | app/policy_engine.py:53-96 | a failing evaluation reports the first condition, of the first applicable policy, that cannot be decided: missing or null field, or operands of different kinds |
| `Evaluator.OrderDoesNotMatter` | app/policy_engine.py:28-145 | decision and failure are the same for every permutation of the policies |
| `Evaluator.WinnerIndependentIff` | app/policy_engine.py:121-136 | every order of the policies gives the same winner exactly when none applies, the decision is ALLOW, or all policies reaching the decision share one id |
| `Evaluator.WinnerDependsOnOrder` | app/policy_engine.py:121-136 | a pair of policies whose winner depends on their order |
| `Evaluator.MorePoliciesNeverWeaken` | app/policy_engine.py:121-136 | under more policies DENY stays DENY and REQUIRE_APPROVAL never becomes ALLOW, for a covered action |
| `RateLimit.FixedWindowRateLimiter.Check` | app/rate_limit.py:28-81 | the new state and the whole decision, with refused checks counting only towards eviction |
| `RateLimit.FixedWindowRateLimiter.RemoveExpired` | app/rate_limit.py:83-91 | deletes exactly the entries of earlier windows |
| `RateLimit.LimiterIsPlainCount` | app/rate_limit.py:28-91 | a check is allowed exactly when fewer than its limit of the earlier checks of its key and window were |
| `RateLimit.IntervalAdmitsTwiceLimit` | app/rate_limit.py:28-81 | any interval of one window length admits at most twice the limit |
| `RateLimit.RetryReachesLaterWindow` | app/rate_limit.py:68-71 | retry_after is at least one, reaches a later window, and is within the window exactly outside one family of negative times |
| `RateLimit.RetryAfterExceedsWindow` | app/rate_limit.py:68-71 | half a second before the epoch, with windows of a minute, retry_after is 61 |
| `RateLimit.LimiterCountsSinceForgotten` | app/rate_limit.py:28-91 | with one window length per key, a check is allowed exactly when fewer than its limit were allowed since its window was last forgotten |
| `RateLimit.EvictionShowsIff` | app/rate_limit.py:65-91 | an answer differs from the plain count exactly when an evicting check of a later window forgot allowed checks of its window and the count since is below the limit while the full count is not |
| `RateLimit.EvictionShowsAcrossWindows` | app/rate_limit.py:65-66 | a run in which a key with limit one is admitted twice in its window |
| `GrantTokens.DecodeIsInverse` | app/execution_grants.py:28-53 | decoding accepts exactly the encodings of non-empty byte strings and inverts them |
| `GrantTokens.EncodingIs` | app/execution_grants.py:28-29 | the encoding is section 5 of RFC 4648 without padding: each three bytes are four digits of base 64 in the alphabet of its Table 2, and the text ends with the last character that holds a bit |
| `GrantTokens.SpareBitsRefused` | app/execution_grants.py:47-51 | spellings that differ in the spare bits decode alike and only the canonical one is accepted |
| `GrantTokens.PlusRefused` | app/execution_grants.py:38-51 | the standard alphabet's '+' would decode like '-' and is refused |
| `GrantTokens.ParseInvertsBuild` | app/execution_grants.py:67-137 | parsing a built token gives its payload back |
| `GrantTokens.BuildInvertsParse` | app/execution_grants.py:97-137 | every accepted token is the one that building its payload gives |
| `GrantTokens.TokensAreCanonical` | app/execution_grants.py:67-137 | a token is accepted as a payload exactly when it is that payload's token |
| `GrantTokens.TokenNamesPayload` | app/execution_grants.py:67-137 | with one secret no two payloads share a token |
| `GrantTokens.LawfulSchemeExists` | app/execution_grants.py:67-137 | the token theorems are about something: any two payloads have a serialisation and signature that meet their condition |
| `Timestamps.TextIsChronological` | app/storage/approvals.py:192-230 | isoformat() text of UTC datetimes orders chronologically although a zero fraction is left out |
| `Timestamps.TextSpells` | app/storage/approvals.py:50-66 | the text spells year, month, day, hour, minute, second and a fraction that is not zero at fixed places, with +00:00 at the end |
| `Timestamps.TextOrderIsTimeOrder` | app/storage/webhooks.py:743-800 | SQL's comparison of stored timestamps is the comparison of instants |
| `Archive.WriteLines` | app/evidence.py:618-645 | writes all lines or reports the limit exactly when their UTF-8 size exceeds it |
| `Archive.BuildArchive` | app/evidence.py:648-698 | builds the three members exactly when their size and the compressed size are within the limit |
| `Archive.ParseNdjson` | app/evidence.py:720-741 | parses every line that is not blank, or fails |
| `Archive.LinesRoundTrip` | app/evidence.py:720-741 | written lines read back exactly when none holds a character at which splitlines breaks, and fail otherwise |
| `Archive.LoadInvertsBuild` | app/evidence.py:744-809 | a built archive loads back to its bundle exactly when no serialised record or proof holds U+0085, U+2028 or U+2029 |
| `Archive.SeparatorBreaksArchive` | app/evidence.py:720-741 | a bundle with one line separator in a record, whose built archive does not load |

## Left out

- SQL text, cursors, row mapping, schema creation and migrations: tables are maps with the schema's keys, checks and triggers as conditions.
- The services for authorization, approvals and grants are state machines on values, not classes, because their calls interleave; they hold no state of their own.
- SHA-256, HMAC and JSON internals: a free digest constructor, a keyed function and lawful codecs stand for them; forging a signature is not modelled.
- Tokens inside the protocol are named by their payload, which `GrantTokens.TokensAreCanonical` and `GrantTokens.TokenNamesPayload` justify for one secret; secret rotation is not modelled.
- Projects are never deleted, so foreign keys to projects always hold; legacy decisions without a project row produce no outbox event, as in the code.
- Mismatched ids between an authorization, its approval and its key are excluded by the shape of the arguments, so their ValueErrors are not modelled.
- DispatchPendingWebhooks: others commit between the calls of the worker, not inside its record of a result; for that case see `WebhookRaces.SplitRunsKeepIff`.
- LoadArchive: invalid JSON and invalid data raise one error class in the code and are one error here; a file that is not a ZIP is outside the model.
- The outbox of `Store` and the events of `Webhooks` are modelled apart: one holds what is published, the other how it is delivered.
- Delivery columns that nothing reads back (last_attempt_at, last_status_code, last_error, updated_at) and secret rotation of subscriptions.
- No minimum time between webhook attempts is stated: a late worker records with its own earlier dispatch time.
- The legacy format of stored evidence rows and the one-off migration of policy histories (MIGRATED entries are allowed, not produced).
- CSV and JSON exports, listings, pagination, text search, key and project administration, HTTP routing, configuration, metrics and the SDK: easy members beside the protocols.
