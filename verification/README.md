# Verified model of the invoicing back end

A Dafny model of the parts of the system that must not post, pay or execute anything twice, and proofs of
what they keep over every run. Time is an integer, amounts are exact reals (printed amounts are exact
decimals), references and keys are strings, SHA-256 and the JSON printer are functions, and authorization is
a boolean or a decision code handed in by the caller.

Every component comes in two layers. A *specification* gives each command as a function from one state value
to the next; runs are sequences of commands, and the theorems are lemmas about every run. A *class* has the
fields of the original object and changes them in place; each method is proved to do exactly what its
specification function says, and nothing else. What is proved of the functions therefore holds of the classes.

| files | component |
|---|---|
| `References`, `Wrappers` | decimal text, the references `TAG-NNNNNN`, text order |
| `Money` | the canonical money text and its parser |
| `Audit` | the hash-chained audit log |
| `Leases`, `DurableClaims` | fencing leases, the durable compare-and-set claim store |
| `MutationStore`, `MutationProtocol`, `MutationSafety`, `MutationExecutor` | the idempotent executor as steps of many workers that may be killed between any two steps, its invariant, and the executor class that takes only such steps |
| `MutationAudit`, `MutationOrphans` | when store and audit agree about how a mutation ended, and which claims nothing can move any more |
| `ReconciliationQueue`, `QueueRuns`, `QueueRestarts`, `ReconciliationEngine` | the operator queue, its log, replay and fencing, what a restart does to it, and the engine that drains it |
| `SettingsStore` | versioned unit settings |
| `ErpLedger`, `LedgerRuns`, `LedgerBalance`, `ErpAdapter` | the provider: handles, number series, payments, reversals, conservation; the adapter with invoice objects shared by two handles |
| `LedgerQuery`, `EngineOverLedger` | what a query of the provider finds; the engine with this provider behind it |
| `InvoicePosting`, `PostingWorkflow` | the posting workflow over the provider |
| `PaymentFlow`, `PaymentRuns`, `PaymentAnchors`, `PaymentReplays`, `PaymentWorkflow` | the payment workflow over the provider and the operator queue, which pending payments can be reconciled, and what repeated requests are answered with |
| `OwnerRollup` | the owner's receivables total |
| `PlanGraph`, `OwnedPaths` | the plan gate: Kahn's loop, the ancestor fixpoint, path patterns and their overlap |

`dafny verify dfyconfig.toml` checks everything.

## Where an obvious stronger claim is false

Each of these is stated exactly, or shown by a run from the start, in the lemmas named.

- CLAIM_HELD can precede the grant it belongs to, since only the end of the lease is compared: exactly when a lease is presented at an earlier instant than at its acquisition (`HeldWithinGrant`, `EveryHeldInItsGrant`, `HeldBeforeItsGrant`).
- RESOLVED_ABSENT does not mean that the provider was not called, but that it answered with an empty reference (`AbsentMeansEmptyReference`).
- "Store and audit never disagree about terminality" (src/mutations/executor.py:131-133): a worker that is killed, loses its place in the chain or is refused by a full store between its write and its report leaves a RESOLVED row without a record; so does a failed RECOVERY append, as `recover` writes before it audits (src/mutations/executor.py:201-210). Exactly these can (`StoreMeetsAudit`), and they do (`StoreAndAuditDisagree`, `KilledBeforeReport`, `OvertakenBeforeReport`, `RefusedReport`); a record without its row does not exist (`ReportMeetsStore`).
- `_check_capacity` is documented not to apply to updates of existing keys, yet `write_failure` and `resolve` call it without `for_update` (src/mutations/store.py:46-50, :108, :115), and the model follows the code: a failed provider call leaves FAILED_NO_MUTATION exactly if there is room at that moment (`FailureLeaves`), and an unreported success in a full store stays RESOLVED_PRESENT (`StoreAndAuditDisagree`).
- Some claims stay PENDING for good: exactly those whose workers are gone, and a failed call that meets a full store in which nothing can be rolled back (`PendingForeverExactly`, `OrphanedForever`, `KilledAfterClaim`, `FailsAtTheLastSlot`).
- Replay sets the counter from the last snapshot, so the next identifier may already name an item (`ReplayedCounter`). The next new intent after the restart then replaces that item, of whatever status, and its old intent leads to the new one (`EnqueueAfterRestart`): `TerminalIsForever` ends at a restart, and a run from the start loses a RESOLVED item (`ResolvedReplaced`).
- The memory of an AMBIGUOUS escalation is overwritten by a later one (`RetryLaneGuard`, `AmbiguousCanBeForgotten`, `AmbiguousReached`).
- "No item remains silently stuck" (src/reconciliation/engine.py:14-15): an unknown kind, an exception of the provider other than DocumentRejected, a token that is not positive, or an absent document of an item last escalated as AMBIGUOUS leaves the item in CLASSIFYING, and nothing else does (`StuckExactly`, `DrainTerminates`).
- A rollback that regresses leaves a DRAFT row behind (`RollbackLeavesDraft`, `RefusedButDrafted`); `get_active` finds nothing between the first start and the current one (`GetActiveAgrees`, `InForceButNotActive`).
- A series prefix equal to `DRAFT` makes draft and official handles collide (`HandlesSoundExactlyUnlessDraft`).
- One number per draft does not survive everything that others do at the provider: it does exactly unless they cancel the posted invoice a draft is waiting for, or post an invoice of the workflow that its draft is not waiting for (`HarmExactly`, `CancelBehindTheBack`, `PostBehindTheBack`).
- "A scope anchor always exists" (src/workflows/payments/workflow.py:481-484): a pending payment can be reconciled by somebody exactly when some unclear claim is keyed by its evidence or somebody has exactly one (`ReconcilableExactly`, `StrandedExactly`); two payments of one actor under explicit keys have none (`TwoKeys`).
- "No cross-actor/cross-unit resolution" (src/workflows/payments/workflow.py:462-465): another payment's invoice may decide the unit (`MisledExactly`, `OthersInvoiceDecides`).
- Reconciling one payment settles every unclear claim of the unit (`SweepIsRight`), which can strand other pending payments (`SweepStrands`, `OwnedExactly`, `SecondStranded`); an outage before the sweep, or a claim outside the unit, leaves a claim behind (`InterruptedSweep`, `AwaitedExactly`, `FirstLeftBehind`).
- A repeated payment request is not always answered with the record of its own evidence: since a reconciliation settles every unclear claim of the unit with the record it found (src/workflows/payments/workflow.py:557-566), recorded claims name their own records exactly if every reconciliation that settles anything settles claims for its own evidence only (`RightExactly`, `SecondMisrecorded`), and those a request can still be answered from do exactly if every reconciliation is careful in a weaker sense (`LiveExactly`, `ReplayAnswersItsOwn`); a run from the start ends with a request answered by another payment's record (`ReplayAnswersAnothers`).
- The money text adds two fraction digits, so whole amounts are read back up to 62 digits, not 64 (`WholeAmountRoundTrip`).

## Model

| member | source | states |
|---|---|---|
| References.TagInjective | src/adapters/fixture/erp.py:221 | two references with dash-free prefixes are equal only when prefix and counter are |
| References.TagOrder | src/reconciliation/queue.py:176-195 | up to 999999 the text order of identifiers is the order of their counters |
| References.TagOrderBreaks | src/reconciliation/queue.py:182 | at a million it is not: 1000000 sorts before 999999 |
| Money.CanonicalTextPreservesValue | src/domain/money.py:46-53 | the canonical text of any amount is a decimal string that reads back as the same value |
| Money.CanonicalFraction | src/domain/money.py:46-53 | at least two fraction digits, no trailing zero beyond them |
| Money.NormalForm | src/domain/money.py:46-53 | two amounts print the same text exactly when they are numerically equal, negative zero included |
| Money.RoundTrip | src/domain/money.py:20-44 | parsing the printed text succeeds exactly within 66 characters and 64 significant digits, and then gives the same value |
| Money.WholeAmountRoundTrip | src/domain/money.py:20-44 | whole amounts survive printing and parsing exactly up to 62 digits |
| Audit.RedactionForgets | src/audit/chain.py:38-40 | redaction is idempotent, and two payloads become one exactly when they differ in sensitive fields only |
| Audit.EveryBuiltChainVerifies | src/audit/chain.py:62-88 | every chain built by append verifies, whatever was offered to it |
| Audit.MaterialUnambiguous | src/audit/chain.py:42-45 | the joined hash material of two records is equal only when the records are |
| Audit.SameHeadSameRecords | src/audit/chain.py:42-88 | verifying chains with the same head hash hold the same records, unless the digest collides on them |
| Audit.AuditChain.Append | src/audit/chain.py:62-75 | an armed failure is used up; otherwise exactly the records that continue the chain are pushed, and it still verifies |
| Audit.AuditChain.Verify | src/audit/chain.py:77-88 | the loop answers true exactly for verifying chains |
| Leases.LeaseIssuer.Claim | src/mutations/lease.py:60-63 | every issued lease has a greater token than all before it, also when some draws are refused |
| DurableClaims.DurableMutationStore.Claim | src/mutations/durable_store.py:66-191 | one atomic claim does what the claim function says, in every branch |
| DurableClaims.GrantsAreDisjoint | src/mutations/durable_store.py:125-151 | the grants of a key have increasing tokens and disjoint intervals, at whatever times claims arrive |
| DurableClaims.BindingIsForever | src/mutations/durable_store.py:106-108 | payload hash and version of a claimed key never change, and its token never falls |
| DurableClaims.HeldWithinGrant | src/mutations/durable_store.py:129-132 | CLAIM_HELD goes to the caller whose claim was the latest to acquire the key, under the same lease, and falls into that grant exactly when it is not before the instant of that claim |
| DurableClaims.EveryHeldInItsGrant | src/mutations/durable_store.py:125-151 | over a run every CLAIM_HELD falls into its grant exactly when none comes at an earlier instant than the acquisition under its lease; in particular if no lease is ever presented at an earlier instant than before |
| DurableClaims.HeldBeforeItsGrant | src/mutations/durable_store.py:129-132 | a trace in which CLAIM_HELD precedes its grant |
| MutationStore.InMemoryMutationStore.Claim | src/mutations/store.py:56-79 | the claim in place: created once, refused when full, conflict on another payload |
| MutationStore.InMemoryMutationStore.WriteSuccess | src/mutations/store.py:81-99 | the success write in place, with the injected failure and the reference collision |
| MutationStore.InMemoryMutationStore.RollbackClaim | src/mutations/store.py:101-104 | removes exactly a PENDING claim |
| MutationStore.InMemoryMutationStore.WriteFailure | src/mutations/store.py:106-111 | the failure write in place, capacity check included |
| MutationStore.InMemoryMutationStore.Resolve | src/mutations/store.py:113-120 | the resolution in place, capacity check and reference index included |
| MutationStore.InMemoryMutationStore.RegisterFencing | src/mutations/store.py:124-128 | the recorded token only grows |
| MutationSafety.ProviderCalledAtMostOnce | src/mutations/executor.py:97-129 | over every interleaving, crash and failure the provider is invoked at most once per key |
| MutationSafety.EveryCallWasAudited | src/mutations/executor.py:111-123 | every provider call has its own pre-mutation record, which was in the chain before the step that made the call and stays there, in a chain that verifies |
| MutationSafety.ReturnedReferenceIsKept | src/mutations/executor.py:131-163 | after a non-empty reference the key is PENDING, or UNCERTAIN or RESOLVED_PRESENT with that reference, for good |
| MutationSafety.AbsentMeansEmptyReference | src/mutations/executor.py:199-211 | RESOLVED_ABSENT only ever follows a call that returned an empty reference |
| MutationSafety.FailureMeansNoReference | src/mutations/executor.py:121-129 | FAILED_NO_MUTATION means a call that returned nothing |
| MutationSafety.OrphanedForever | src/mutations/executor.py:104-109 | a claim whose workers are gone stays PENDING under every retry and recovery, without another call |
| MutationAudit.StoreMeetsAudit | src/mutations/executor.py:131-163 | over every interleaving a row is RESOLVED exactly if some worker wrote it so; such a worker has its own post_mutation or RECOVERY record exactly if it has returned, and otherwise is on the way, or was killed, out of order, refused its RECOVERY record, or refused the downgrade by a full store |
| MutationAudit.ReportMeetsStore | src/mutations/executor.py:140-163 | a post_mutation or RECOVERY record is that of a worker that wrote the RESOLVED row and returned |
| MutationAudit.StoreAndAuditDisagree | src/mutations/executor.py:145-163 | a run at capacity 1 that ends with a RESOLVED_PRESENT row and no record but the one before the call |
| MutationAudit.KilledBeforeReport | src/mutations/executor.py:199-211 | from every reachable state a writer that has not reported yet can end without a record |
| MutationAudit.OvertakenBeforeReport | src/audit/chain.py:62-75 | a writer that has read the chain's head can be overtaken by another append, and then ends without a record |
| MutationAudit.RefusedReport | src/mutations/executor.py:199-211 | a recovery whose append fails leaves the row RESOLVED without a record |
| MutationAudit.FailureLeaves | src/mutations/executor.py:121-129 | a failed call leaves FAILED_NO_MUTATION for good exactly if the store has room at the write, and an orphaned PENDING claim otherwise |
| MutationOrphans.PendingForeverExactly | src/mutations/executor.py:97-129 | a PENDING row can still become something else exactly unless nobody of its key is past claiming, or its failed call meets a full store in which no claim can be rolled back |
| MutationOrphans.KilledAfterClaim | src/mutations/executor.py:97-109 | a run from the start that orphans a claim |
| MutationOrphans.FailsAtTheLastSlot | src/mutations/store.py:106-111 | a run from the start whose failed call can never be written |
| MutationExecution.MutationExecutor.Execute | src/mutations/executor.py:56-163 | the method takes only steps of the protocol, and ends in the result the protocol gives |
| MutationExecution.MutationExecutor.Recover | src/mutations/executor.py:165-211 | the same for recovery |
| ReconciliationQueue.OperatorQueue.Enqueue | src/reconciliation/queue.py:142-174 | enqueueing in place: one item per intent, conflict on another anchor or kind |
| ReconciliationQueue.OperatorQueue.ClaimNext | src/reconciliation/queue.py:176-195 | the loop claims the PENDING item whose identifier sorts first |
| ReconciliationQueue.OperatorQueue.ClaimItem | src/reconciliation/queue.py:197-229 | the override claim in place, with its refusals in order |
| ReconciliationQueue.OperatorQueue.CompleteClassification | src/reconciliation/queue.py:246-312 | the fenced completion in place, with its refusals in order |
| ReconciliationQueue.OperatorQueue.MarkRetried | src/reconciliation/queue.py:314-329 | closing a safe retry in place |
| ReconciliationQueue.OperatorQueue.Abandon | src/reconciliation/queue.py:331-348 | abandoning an escalated item in place |
| ReconciliationQueue.OperatorQueue.ReplayLog | src/reconciliation/queue.py:127-138 | the restart loop computes the replay of the log |
| QueueRuns.ReplayRebuilds | src/reconciliation/queue.py:122-138 | in every reachable state replay of the log rebuilds items, order and intent index exactly |
| QueueRuns.AuditMirrorsLog | src/reconciliation/queue.py:96-120 | the audit chain verifies and holds one record per snapshot, with its item, intent and status |
| QueueRuns.ReplayedCounter | src/reconciliation/queue.py:135-137 | replay restores the counter exactly when the last snapshot is one of the newest item; otherwise the next identifier is taken |
| QueueRestarts.EnqueueAfterRestart | src/reconciliation/queue.py:127-174 | after a restart and any commands without a new intent, the next new intent replaces an existing item, whatever its status, exactly when the last snapshot before the restart was not one of the newest item; exactly then the intent index is no longer right; every other item stays |
| QueueRestarts.ResolvedReplaced | src/reconciliation/queue.py:135-174 | a run from the start whose last snapshot is of the older item: after the restart the next new intent replaces a RESOLVED item by a PENDING one, to which the old intent leads |
| QueueRuns.CompletionByLatestClaimant | src/reconciliation/queue.py:237-312 | every completion carries the token of the latest claim, with nothing in between |
| QueueRuns.OneCompletionPerClaim | src/reconciliation/queue.py:246-312 | between two completions of an item lies a new claim |
| QueueRuns.ReclaimsIncrease | src/reconciliation/queue.py:197-229 | re-claims within one classification strictly increase the token |
| QueueRuns.ItemsTellHistory | src/reconciliation/queue.py:286-300 | tokens only in CLASSIFYING, attempts count completions, the recorded escalation is the latest, AMBIGUOUS never with SAFE_RETRYABLE |
| QueueRuns.TerminalIsForever | src/reconciliation/queue.py:197-229 | RESOLVED and ABANDONED items never change, up to a restart |
| QueueRuns.RetryLaneGuard | src/reconciliation/queue.py:246-312 | the owner may complete to SAFE_RETRYABLE exactly when the latest escalation was not AMBIGUOUS |
| QueueRuns.AmbiguousCanBeForgotten | src/reconciliation/queue.py:288-292 | from every AMBIGUOUS escalation four commands lead to SAFE_RETRYABLE |
| QueueRuns.AmbiguousReached | src/reconciliation/queue.py:246-312 | a run from the start that ends with such an item |
| ReconciliationEngine.StuckExactly | src/reconciliation/engine.py:75-161 | for every token and whatever the provider does, classify_next leaves its item in CLASSIFYING exactly for an unknown kind, an exception other than DocumentRejected, a token that is not positive, or an absent document of an item last escalated as AMBIGUOUS; it returns the item exactly otherwise |
| ReconciliationEngine.DrainTerminates | src/reconciliation/engine.py:75-161 | a filled queue is drained within the attempts of its items, whatever the provider answers or raises and whatever the tokens; every item ends resolved, safe to retry, escalated, or claimed, the last exactly when some call claimed it and met one of the conditions of StuckExactly |
| ReconciliationEngine.ClaimsInOrder | src/reconciliation/queue.py:176-195 | a drain claims in order of enqueueing, with six-digit identifiers |
| ReconciliationEngine.Engine.ClassifyItem | src/reconciliation/engine.py:82-135 | classification and completion of one item, or the exception that leaves it as it is, as the decision functions say |
| ReconciliationEngine.Engine.ClassifyNext | src/reconciliation/engine.py:75-80 | claim and classification in one call, exceptions included |
| EngineOverLedger.EngineMeetsBooks | src/reconciliation/engine.py:145-161 | over the fixture no exception escapes; a completed item is RESOLVED exactly if the provider can confirm a document, which it then names, SAFE_RETRYABLE exactly if the books hold none, and else escalated, or requeued during an outage |
| EngineOverLedger.ResolvedNumberStays | src/adapters/fixture/erp.py:304-325 | the number a posting item was resolved with stays that of its invoice through everything that happens at the provider |
| SettingsStore.OneChain | src/units/settings.py:159-209 | the activated versions form one chain through previous_version, ending in the one ACTIVE row, and no expected version wins twice |
| SettingsStore.IntervalsTile | src/units/settings.py:192-205 | from the first start on exactly one activated version is in force at any time, before it none |
| SettingsStore.GetActiveAgrees | src/units/settings.py:270-280 | get_active names the version in force exactly from the current start on, or before the first |
| SettingsStore.RollbackLeavesDraft | src/units/settings.py:211-260 | a refused rollback leaves a DRAFT row exactly when its start regresses; a lost compare-and-set leaves nothing |
| SettingsStore.InForceButNotActive | src/units/settings.py:270-280 | a run from the start after which get_active finds none for a time at which the first version was in force |
| SettingsStore.RefusedButDrafted | src/units/settings.py:211-260 | a run from the start and a rollback that is refused and leaves its copy behind as a draft |
| SettingsStore.UnitSettingsStore.DraftSettings | src/units/settings.py:132-151 | drafting in place; other units untouched |
| SettingsStore.UnitSettingsStore.ActivateVersion | src/units/settings.py:159-209 | activation in place: retire, replace, refuse; other units untouched |
| SettingsStore.UnitSettingsStore.RollbackTo | src/units/settings.py:211-260 | rollback in place: the copy is appended before activation decides |
| SettingsStore.UnitSettingsStore.GetActiveSettings | src/units/settings.py:270-280 | the scan finds the first ACTIVE row in force |
| LedgerRuns.HandlesSoundExactlyUnlessDraft | src/adapters/fixture/erp.py:220-238 | over all runs the handles are exactly draft and official references, both naming the same invoice, if and only if the prefix is not DRAFT |
| LedgerRuns.GaplessNumbers | src/adapters/fixture/erp.py:304-310 | official numbers are first, first + 1, ... without gap, one per posted row and never two on one |
| LedgerRuns.NumbersAreForever | src/adapters/fixture/erp.py:265-310 | a number is never changed or taken back, a cancelled draft never gets one, handles keep their rows |
| LedgerRuns.PostingAgain | src/adapters/fixture/erp.py:277-284 | posting the same handle after any later run answers the same number and changes nothing |
| LedgerBalance.Conservation | src/adapters/fixture/erp.py:329-487 | a posted invoice's open amount plus all its records is its total, between zero and total, paid exactly at zero; a cancelled one has records adding up to zero |
| LedgerBalance.EvidenceCountsOnce | src/adapters/fixture/erp.py:337-365 | reserved evidence is exactly what records carry, each reference on one record |
| LedgerBalance.ReversalEvidenceIsFresh | src/adapters/fixture/erp.py:436-458 | the evidence of a reversal is new unless the payment was reversed before |
| ErpAdapter.FixtureErpAdapter.CreateDraftInvoice | src/adapters/fixture/erp.py:192-238 | drafting in place, refusals and line total included |
| ErpAdapter.FixtureErpAdapter.PostInvoice | src/adapters/fixture/erp.py:265-302 | posting in place on the object both handles share, with the three failure modes |
| ErpAdapter.FixtureErpAdapter.ReconcilePost | src/adapters/fixture/erp.py:312-325 | classification of an uncertain post in place |
| ErpAdapter.FixtureErpAdapter.RecordPayment | src/adapters/fixture/erp.py:329-389 | recording in place, all refusals and both failure modes |
| ErpAdapter.FixtureErpAdapter.ReconcilePayment | src/adapters/fixture/erp.py:411-424 | the loop settles the first payment with the evidence |
| ErpAdapter.FixtureErpAdapter.ReversePayment | src/adapters/fixture/erp.py:428-462 | the compensating record in place |
| ErpAdapter.FixtureErpAdapter.CancelInvoice | src/adapters/fixture/erp.py:466-487 | cancelling in place, refused while a payment stands |
| ErpAdapter.FixtureErpAdapter.ListInvoices | src/adapters/fixture/erp.py:491-528 | the query loop names each matching invoice once |
| InvoicePosting.OneOfficialPerDraft | src/workflows/invoice_post/workflow.py:337-562 | over every run without a harmful operation of others at most one provider invoice of a draft has a number, and while the draft is pending only the one it waits for |
| InvoicePosting.PostedDraftHasItsNumber | src/workflows/invoice_post/workflow.py:447-448 | over the same runs a draft reported as posted stands behind exactly the number reported, and is not pending |
| InvoicePosting.HarmExactly | src/workflows/invoice_post/workflow.py:550-562 | in every sound state an operation of others keeps the invariant, and keeps every proper continuation from giving a draft two numbers, exactly if it neither cancels the posted invoice a draft waits for nor numbers an invoice its draft does not wait for |
| InvoicePosting.CancelBehindTheBack | src/workflows/invoice_post/workflow.py:550-562 | a run from the start in which a foreign cancellation of the awaited invoice leads to a second number |
| InvoicePosting.PostBehindTheBack | src/workflows/invoice_post/workflow.py:402-415 | a run from the start in which a foreign post of a rejected draft leads to a second number |
| PostingWorkflow.InvoicePostWorkflow.Post | src/workflows/invoice_post/workflow.py:289-453 | the post command in place, over the adapter object, which may become unreachable before each call |
| PostingWorkflow.InvoicePostWorkflow.ReconcilePost | src/workflows/invoice_post/workflow.py:455-562 | the reconcile command in place, under the same weather |
| PostingWorkflow.InvoicePostWorkflow.CancelPosted | src/workflows/invoice_post/workflow.py:564-603 | the cancel command in place |
| PaymentRuns.EvidenceRuns | src/workflows/payments/workflow.py:242-448 | over every run each piece of evidence is on one provider record, the index points at it, and pending evidence has its record and an operator item |
| PaymentRuns.PaymentsBalance | src/workflows/payments/workflow.py:242-633 | over every run the provider's books balance |
| PaymentRuns.NoExceptionEscapes | src/workflows/payments/workflow.py:383-440 | the operator queue never refuses the item of an unclear payment |
| PaymentRuns.ReadBackMatches | src/workflows/payments/workflow.py:422-440 | a recorded payment always reads back with its evidence and invoice: the mismatch branch is dead with this provider |
| PaymentRuns.SweepIsRight | src/workflows/payments/workflow.py:554-567 | after a reconciliation every recorded claim names a record of its own evidence exactly when all unclear claims of the unit were for the evidence |
| PaymentRuns.SweepStrands | src/workflows/payments/workflow.py:557-566 | a sweep of every unclear claim leaves other pending evidence without a claim |
| PaymentRuns.InterruptedSweep | src/workflows/payments/workflow.py:554-566 | an outage before the sweep keeps the claim unclear and loses the pending mark |
| PaymentAnchors.AnchorIs | src/workflows/payments/workflow.py:485-507 | the search answers with the invoice of the caller's own unclear claim keyed by the evidence, else of the latest one keyed so, else of the caller's only one, and with nothing exactly when there is none |
| PaymentAnchors.ReconcilableExactly | src/workflows/payments/workflow.py:450-515 | over every run a pending payment can be reconciled by an actor exactly when some unclear claim is keyed by its evidence or the actor has exactly one; otherwise, in any weather, nothing changes |
| PaymentAnchors.StrandedExactly | src/workflows/payments/workflow.py:485-515 | somebody can reconcile it exactly when some unclear claim is keyed by its evidence or some actor has exactly one |
| PaymentAnchors.MisledExactly | src/workflows/payments/workflow.py:458-507 | the payment's own claim decides for every actor that has an anchor exactly when no other unclear claim is keyed by the evidence and, if its own is not, no other actor has exactly one |
| PaymentAnchors.OwnedExactly | src/workflows/payments/workflow.py:554-567 | over every run each pending payment always has its own unclear claim exactly when no reconciliation settles the claim of another pending payment |
| PaymentAnchors.AwaitedExactly | src/workflows/payments/workflow.py:553-567 | over every run each unclear claim is always that of a pending payment exactly when every reconciliation settles the claim of its own payment: it lies in the unit and no outage sets in before the sweep |
| PaymentAnchors.TwoKeys | src/workflows/payments/workflow.py:481-507 | a run from the start after which two pending payments of one actor have their claims, and nobody has an anchor for either |
| PaymentAnchors.OthersInvoiceDecides | src/workflows/payments/workflow.py:462-507 | a run from the start after which another actor's invoice decides where a payment is reconciled |
| PaymentAnchors.SecondStranded | src/workflows/payments/workflow.py:554-567 | a run from the start in which a sweep strands the other payment |
| PaymentAnchors.FirstLeftBehind | src/workflows/payments/workflow.py:553-567 | a run from the start in which an outage before the sweep leaves an unclear claim whose payment is not pending any more, and can be neither recorded nor reconciled |
| PaymentReplays.RightExactly | src/workflows/payments/workflow.py:554-567 | over every run each recorded claim always names a record of its own evidence exactly when every reconciliation, in whatever weather, settles claims for its own evidence only |
| PaymentReplays.LiveExactly | src/workflows/payments/workflow.py:330-343 | over every run each recorded claim whose evidence is not pending always names a record of its own evidence exactly when no reconciliation settles a claim for evidence neither its own nor pending, or finishes evidence that another one settled a claim for |
| PaymentReplays.ReplayAnswersItsOwn | src/workflows/payments/workflow.py:330-343 | over those runs a repeated request is blocked, or answered with the one provider record of its own evidence |
| PaymentReplays.SecondMisrecorded | src/workflows/payments/workflow.py:557-566 | a run from the start in which a reconciliation records another payment's claim with its own reference |
| PaymentReplays.ReplayAnswersAnothers | src/workflows/payments/workflow.py:330-343 | a run from the start after which a repeated request is answered with the record of another payment, and not of its own |
| PaymentWorkflow.Workflow.RecordPayment | src/workflows/payments/workflow.py:242-448 | the record command in place, over adapter and queue objects, with outages beginning or ending between its calls |
| PaymentWorkflow.Workflow.FindAnchor | src/workflows/payments/workflow.py:485-507 | the loop over claims finds the anchor |
| PaymentWorkflow.Workflow.SweepUnit | src/workflows/payments/workflow.py:557-566 | the loop settles exactly the unclear claims of the unit |
| PaymentWorkflow.Workflow.ReconcilePayment | src/workflows/payments/workflow.py:450-575 | the reconcile command in place, under the same weather |
| PaymentWorkflow.Workflow.ReversePayment | src/workflows/payments/workflow.py:577-633 | the reverse command in place, under the same weather |
| OwnerRollup.RollupIsOwed | src/reports/owner/roll_up.py:331-356 | a total is reported exactly when one currency is owed, and is the sum over all posted rows of the units, each once, which is their totals less all records |
| OwnerRollup.UnitIsOwed | src/reports/owner/roll_up.py:201-258 | a unit's subtotal in a currency is what its rows owe in it, and it lists exactly the currencies owed |
| OwnerRollup.OwnerRollupReport.ActiveOwnerUnits | src/reports/owner/roll_up.py:150-174 | the loop finds exactly the units of effective owner assignments, each once, in text order |
| OwnerRollup.OwnerRollupReport.ReadUnitSubtotal | src/reports/owner/roll_up.py:201-258 | the loop over references computes the unit's tally |
| OwnerRollup.OwnerRollupReport.QueryRollup | src/reports/owner/roll_up.py:262-356 | with a reachable provider and sound handles a roll-up is answered exactly when request, identity and every assigned unit pass, and covers exactly those units; otherwise it stops at the first unit, in text order, that is refused or cannot be read: denied with the access decision's own code, or blocked; every denial is logged |
| PlanGraph.Kahn | scripts/validate_plan_gate.py:603-619 | the loop ends, visits in dependency order, and visits every plan entry exactly when all dependencies are known and there is no cycle |
| PlanGraph.Ancestors | scripts/validate_plan_gate.py:621-631 | the fixpoint ends with exactly the transitive dependencies, cycles included, and fails exactly on an unknown dependency |
| OwnedPaths.ParsesExactly | scripts/validate_plan_gate.py:441-452 | the accepted patterns are exactly the canonical ones, and parsing reads off path and kind |
| OwnedPaths.OverlapIsSharedPath | scripts/validate_plan_gate.py:455-463 | two patterns overlap exactly when some path is owned by both |
| OwnedPaths.CheckOwnership | scripts/validate_plan_gate.py:633-639 | no overlap is reported exactly when the owners of any one path are pairwise ordered by transitive dependency |

## Left out

- HTTP adapters (src/adapters/erpnext, src/adapters/erpnext_crm), the CRM fixture, imports, the user interface, operations and backup scripts: they would add only easy members, or depend on a provider that is not visible.
- SQLite, its isolation and the IntegrityError path of the durable store: each claim is one atomic transaction over a map.
- Policy tables, the unit registry and the access layer: authorization, effective assignments of other roles, and identity resolution enter as booleans and decision codes chosen by the caller.
- Drafts of the invoice workflow stay editable after posting, so nothing is said about the total frozen in a posted snapshot; the snapshot itself, the PDF reference and the delivery outbox are not modelled.
- Decimal context rounding: amounts at the provider are exact reals, and text the adapter cannot parse is a missing value.
- Text of errors, audit texts of the workflows and settings, denial logs other than the roll-up's, and timestamps used only for display.
- Sorting of query results and of Kahn's first queue: the order of equals does not affect what is proved.
- White space beyond ASCII in "is blank" checks.
- Schema checks of single settings: the content of a settings mapping is opaque, with a flag that says whether the schema accepts it; audit entries of the settings store are not modelled.
- The engine's orphan report and the queue's depth, stuck, overdue and pending listings.
- Per-currency invoice counts of the roll-up: the references counted are modelled, the counts by currency are not.
- Markdown, JSON and pinned constants of the plan gate: the model starts from parsed plan entries and pattern texts.
- Payment records of the adapter are values in a sequence, replaced by index; no two names share one, unlike invoices, which are objects behind two handles.
- PaymentRuns.EvidenceRuns: assumes that actor references hold no colon (src/authz/access.py:38, :96) and that nobody else enqueues under intents that begin with `payment:`.
- An outage that begins in the middle of one sweep, or between the two reads of one read-back: each stage of a command meets the provider reachable or not.
- The index corruption that the fixture offers to tests: over the fixture a posted invoice is always in the index.
- Audit.SameHeadSameRecords: event type and actor without colons and a timestamp without braces are assumed, and a collision of the digest on the material at hand is the stated alternative.
