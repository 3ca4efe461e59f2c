# A verified model of the durable workflow and job runtime

This project models the transactional core of the runtime and proves what it promises for every input, every run and
every reachable state. `dafny verify dfyconfig.toml` checks all of it.

One transaction (a `BEGIN IMMEDIATE` block, a journal-lock section, a locked section of a mutex) is one atomic step.
Time is a natural number that never decreases. Tokens and uuids are fresh numbers. A crash loses local state only.
Rows are identified by their position, which for requests and permits is also their ticket. Liveness of processes is
an oracle: a step says what the probe found.

## How it is organised

- **DAG workflow engine.** `WorkflowTransactions` gives each store transaction as a function on the tables;
  `WorkflowStore.Database` is the store as the source writes it, an object that updates its tables row by row. Its methods
  are proved to compute their transactions, to keep the invariant of reachable stores, and to mean what `StoreContracts`
  says to a caller: when they succeed, what they leave alone, what the caller may do next. `WorkflowExecutor` is such a
  caller, the ordered calls of one attempt. `WorkflowSystem` adds the coordinators and attempt threads of the executor
  and lets every interleaving happen, including crashes, recovery, reconciliation, acknowledgement, operator resumes,
  barriers that commit without answering and lost leases. `WorkflowInvariants`, `WorkflowStoreProofs` and
  `WorkflowSystemProofs` carry the invariant; `WorkflowTheorems`, `AdmissionTheorems` and `AdmissionLimits` state the results,
  and `WorkflowExamples` follows one run step by step.
- **Resource claims and capacity.** `ResourceClaims` is the claim algebra with the resources each claim denotes,
  `AdmissionTables` the two ticketed tables, `AdmissionProofs` their laws, `AdmissionExamples` two small tables.
- **Definitions.** `TopologicalOrder` is the theory of the stable order, `WorkflowDefinitions` the checks and the loop.
- **Recovery journal.** `JournalRecords` and `JournalFolds` are the records and the folds, `JournalCompaction` validation
  and compaction, `JournalQuota` the external-only pass, `JournalCalls` what each call appends, `JournalTheorems` what holds
  over runs, `JournalContracts` what each call means for its caller, `JournalExamples` instructive journals, and
  `RecoveryJournal` the object that streams, appends to and rewrites its file.
- **Jobs.** `JobTable`, `JobTheorems`, `JobExamples`, and `JobStore` for the object.
- **Refinements.** `SingleFlight`, `OutputCapture` and `AuditLog`.

## What turned out to need a condition

- Compaction preserves the folded state of an operation it keeps if and only if that operation does not carry both an
  acknowledgement and a reconciliation: it writes only one of them (`JournalExamples.CompactionChangesBoth`). Over runs of
  the calls no operation ever carries both, so there the state is always preserved (`JournalTheorems.CompactionOverRuns`).
- "No result after uncertain" holds as long as the operation is in the journal. Once compaction has dropped a resolved
  external operation, a late `finish` finds nothing and appends a result without a begin record, after which strict
  validation refuses the journal for good. `JournalTheorems.ResultAfterUncertain` gives the exact condition,
  `JournalTheorems.OrphanIsRefused` the consequence, `JournalExamples.LateFinishAppendsResult` a concrete run.
- The journal of a run is valid if and only if no call that appended was a `finish` of an absent operation, a `finish` with
  an empty result over workspace evidence, a postcondition checkpoint on a resolved operation, or a reconciliation without
  source or data over workspace evidence (`JournalTheorems.ValidIffUndisturbed`; `JournalExamples.EmptyFinish`,
  `LatePostcondition` and `UnsoundReconciliation` show the last three). Restart recovery and compaction refuse a journal
  after such a call; before it, a restart leaves nothing of an earlier runtime pending.
- Running, orphaned and reserved jobs together stay within the limit if and only if no claim without a launch token
  succeeds while they fill it (`JobTheorems.FitsIffNeverOverbooked`). `JobExamples.OverbookedRun` is a run that does it;
  claims that all carry tokens never do (`JobTheorems.ReservedCapacityHolds`). Running plus orphaned jobs are always bounded.
- The store quarantines a pending row too, which then counts as a holder that was never admitted. A quarantine keeps the
  holders free of conflicts if and only if the row was held already or no other holder conflicts with it, and keeps the
  held weight within its limit if and only if the permit was held already or still fits
  (`AdmissionProofs.QuarantineExclusiveIff`, `QuarantinePermitWeightIff`; both fail in `AdmissionExamples`). The clients
  quarantine only what was admitted, so over runs both always hold.
- Recovery leaves the running states if and only if no admitted operation that it would simply forget has a request that
  was quarantined before (`StoreContracts.RecoveryStaysActiveIff`; `WorkflowExamples` is a run after
  which it does not).

## Model

| member | source | states |
|---|---|---|
| ResourceClaims.OverlapIsIntersection | core/resource_claims.py:67-101 | Two claims of one kind overlap exactly when some resource is denoted by both. |
| ResourceClaims.CoverIsContainment | core/resource_claims.py:198-214 | Cover is exactly containment of the denoted resources, with write only under write, except that an exact claim covers only its own spelling. |
| ResourceClaims.CoverInheritsConflict | core/resource_claims.py:104-111 | Whatever conflicts with a covered claim conflicts with the claim that covers it. |
| ResourceClaims.NestedExclusion | core/resource_claims.py:198-246 | Claim sets covered by two sets that do not conflict do not conflict either. |
| ResourceClaims.CoversTransitive | core/resource_claims.py:198-214 | Covering is transitive, so capabilities nest to any depth. |
| ResourceClaims.SetsConflictSymmetric | core/resource_claims.py:110-111 | Conflict of claim sets does not depend on who asks. |
| AdmissionTables.FirstBlocker | core/workflow_store.py:1723-1740 | The oldest request that stops another: it blocks, and nothing before it does. |
| AdmissionProofs.ReserveIsAStep | core/workflow_store.py:1643-1765 | Reserving changes at most one row to active, and only when no holder and no older waiter conflicts with it. |
| AdmissionProofs.ExclusionKept | core/workflow_store.py:1713-1765 | Every such step keeps holders, active or quarantined, free of conflicts. |
| AdmissionProofs.QuarantineExclusiveIff | core/workflow_store.py:1862-1884 | A quarantine keeps the holders free of conflicts if and only if its row was held already or no other holder conflicts with it. |
| AdmissionExamples.QuarantinedWaiterConflicts | core/workflow_store.py:1862-1884 | Two requests for one file: quarantining the one that waits makes two holders that conflict. |
| AdmissionProofs.AdmittedIffUnblocked | core/workflow_store.py:1713-1765 | A waiting request is admitted by its call exactly when nothing blocks it. |
| AdmissionProofs.OldestWaiterAdmitted | core/workflow_store.py:1713-1765 | The oldest waiter is admitted on its next call once no conflicting holder remains under the same policy. |
| AdmissionProofs.NestedHoldersExclude | core/resource_claims.py:217-246 | Work nested under two different holders never conflicts. |
| AdmissionProofs.ReservePermitWithinLimits | core/workflow_store.py:2012-2047 | Reserving a permit keeps the held weight of every category within its limit and never overtakes an older waiter. |
| AdmissionProofs.QuarantinePermitWeightIff | core/workflow_store.py:2049-2068 | Quarantining a permit keeps every category within its limit if and only if the permit was held already or still fits beside the held weight. |
| AdmissionExamples.QuarantinedPermitExceeds | core/workflow_store.py:2049-2068 | Two permits under a limit of one: quarantining the one that waits exceeds it. |
| AdmissionTheorems.HoldersNeverConflict | core/workflow_store.py:1713-1765 | In every reachable state no two holders conflict, nor does anything nested under them. |
| AdmissionTheorems.TicketOrder | core/workflow_store.py:1719-1740 | In every run conflicting requests are activated in strictly increasing ticket order. |
| AdmissionTheorems.PermitTicketOrder | core/workflow_store.py:2012-2047 | In every run permits of one category are activated in strictly increasing ticket order. |
| AdmissionTheorems.CapacityNeverExceeded | core/workflow_store.py:2021-2047 | In every reachable state the active and quarantined weight of a category is within its limit. |
| WorkflowStoreProofs.ClaimKeeps | core/workflow_store.py:2228-2360 | Claiming a ready or retryable operation keeps the store invariant and every column that must not move. |
| WorkflowStoreProofs.DispatchKeeps | core/workflow_store.py:2434-2495 | Crossing the barrier keeps the invariant provided the attempt's effectful operation has not crossed before. |
| WorkflowStoreProofs.CompleteKeeps | core/workflow_store.py:2497-2619 | Settling keeps the invariant when the recorded evidence does not hide a crossing. |
| WorkflowStoreProofs.TransitionKeeps | core/workflow_store.py:2938-3033 | Operator transitions and resumes keep the invariant: a failed effect is requeued only when it never crossed. |
| WorkflowStoreProofs.RecoverKeeps | core/workflow_store.py:3122-3184 | Crash recovery keeps the invariant: nothing that crossed becomes claimable again. |
| WorkflowStoreProofs.ResolveKeeps | core/workflow_store.py:1391-1500 | Reconciliation and acknowledgement keep the invariant. |
| StoreContracts.ReleaseMeaning | core/workflow_store.py:1823-1860 | What a release answers and leaves alone; exclusion and ownership survive it. |
| StoreContracts.QuarantineMeaning | core/workflow_store.py:1862-1884 | When a quarantine succeeds, and that the store stays valid if and only if the request was held already or is uncontested. |
| StoreContracts.CapacityMeaning | core/workflow_store.py:1947-2047 | When a capacity request is answered and when it is admitted. |
| StoreContracts.ClaimMeaning | core/workflow_store.py:2228-2360 | When a claim succeeds, and that its attempt then owns the row. |
| StoreContracts.DispatchMeaning | core/workflow_store.py:2434-2495 | When the barrier opens, what it logs and what it leaves alone. |
| StoreContracts.DispatchKeepsValid | core/workflow_store.py:2434-2495 | An effect that had not crossed crosses once and the store stays valid. |
| StoreContracts.CompleteMeaning | core/workflow_store.py:2497-2619 | When a settlement succeeds, what it records, and that it ends all ownership of the attempt. |
| StoreContracts.AcquireMeaning | core/workflow_store.py:2738-2788 | When an acquisition is refused, and that a new lease fences every earlier token. |
| StoreContracts.CancelMeaning | core/workflow_store.py:2882-2936 | A cancel of the current version is always accepted, and what it forbids afterwards. |
| StoreContracts.RecoveryStaysActiveIff | core/workflow_store.py:3122-3184 | A recovered workflow stays running or cancelling if and only if some admitted operation that could simply be forgotten has a request that was quarantined before. |
| WorkflowExamples.RecoveryStaysRunning | core/workflow_store.py:3122-3184 | A run of the engine after which that happens: a step is claimed, the lease expires before anything is prepared, its attempt quarantines the request, and recovery leaves the workflow running. |
| WorkflowSystemProofs.EvidenceIsHonest | core/workflow_executor.py:432-466 | The dispatch phase an attempt records never claims that a crossed effect was not dispatched, even when the barrier committed without answering. |
| WorkflowSystemProofs.StepOk | core/workflow_executor.py:292-701 | Every step of a coordinator, attempt, operator, recovery or crash keeps the whole-system invariant. |
| WorkflowTheorems.HistoryIsLawful | core/workflow_executor.py:482-701 | Every run is a sequence of states that meet the invariant, each step within what a transaction may change. |
| WorkflowTheorems.EffectsCrossAtMostOnce | core/workflow_store.py:2434-2495 | In every reachable state an effectful operation has crossed the dispatch barrier at most once. |
| WorkflowTheorems.NoEffectIsReplayed | core/workflow_executor.py:432-466 | No two steps of a run dispatch the same effectful operation. |
| WorkflowTheorems.FenceIsPermanent | core/workflow_store.py:2418-2432 | A lease token that is expired, replaced or deleted stays without effect for the rest of the run. |
| WorkflowTheorems.WhatFences | core/workflow_store.py:2738-2817 | Expiry, a new owner and recovery each fence every earlier token. |
| WorkflowTheorems.LeaseFencing | core/workflow_store.py:2418-2432 | After that no claim, prepare, dispatch, settle, reject, context, route, aggregate, transition or renewal with the old token changes anything. |
| WorkflowTheorems.CancelIsAFence | core/workflow_store.py:2882-2936 | After a cancel commits nothing of the workflow is claimed, prepared or dispatched, and every aggregate is cancelling, uncertain, failed or cancelled. |
| WorkflowTheorems.CompletedMeansDone | core/workflow_store.py:2621-2662 | The aggregate is completed exactly when nothing was cancelled, all operations are done and no request is held. |
| WorkflowTheorems.DependencySafety | core/workflow_store.py:2281-2298 | In every run what an operation depends on, however indirectly, was done before it left created and stays done. |
| WorkflowTheorems.DoneIsFinal | core/workflow_models.py:229-271 | A succeeded or acknowledged operation keeps its state for the rest of the run. |
| WorkflowTheorems.SomeStepIsReady | core/workflow_store.py:987-1010 | Below any unfinished step of a quiescent acyclic workflow some step is ready. |
| WorkflowTheorems.Progress | core/workflow_executor.py:564-601 | In every reachable state a workflow with unfinished work and nothing failed or in flight has a ready step. |
| WorkflowTheorems.ReleasedRequestsHaveNoLiveChild | core/workflow_store.py:1840-1860 | In every reachable state a released request has no unreleased child permit. |
| WorkflowTheorems.SettlementNeedsOwnership | core/workflow_store.py:2544-2557 | An attempt settles as anything but uncertain exactly when it asked to, none of its requests is quarantined and all child permits are released. |
| WorkflowTheorems.NoPermitAfterSettlement | core/workflow_store.py:35-50 | After the step that settles an attempt no child permit can be created under its request, for the rest of the run. |
| WorkflowExecutor.RunDagAttempt | core/workflow_executor.py:292-480 | One attempt from reserved row to settlement. Its effect crosses exactly when nothing interrupts it, it owns its row, no cancel came first and its lease lasts until the barrier; it is recorded as succeeded exactly when it also returns under a live lease with everything below it settled and its own request. However it ends the store stays valid, only its row and request move, and a crossed effect is recorded as succeeded or uncertain. |
| WorkflowExecutor.Act | core/workflow_executor.py:366-418 | Up to the end of the action: the effect is let through exactly when nothing stands in its way, the thread knows it, and from then on it owns its row exactly while its lease lasts. |
| WorkflowExecutor.Conclude | core/workflow_executor.py:413-480 | An attempt is settled as succeeded exactly when its action returned, it owns the row, everything below is settled and the request is its own; a crossed effect never settles as failed or cancelled. |
| WorkflowExecutor.SettleResource | core/workflow_executor.py:337-356 | Succeeds exactly when the request is the caller's and can still be settled; then it is released or quarantined, and quarantined after an uncertain outcome; no other request moves. |
| WorkflowExecutor.SettleFailure | core/workflow_executor.py:432-480 | An attempt that did not return is settled exactly when it owns its row, its classified state is recordable and its request is ready; what is recorded is that state unless ownership below is unresolved, and uncertain whenever its effect was let through. |
| WorkflowTheorems.CancelCommits | core/workflow_store.py:2907-2936 | A cancel accepted on a running workflow is on record. |
| AdmissionLimits.ClaimKeepsLimits | core/workflow_store.py:2300-2318 | A claim admits one operation, and only below the limit of its workflow and the global limit. |
| AdmissionLimits.ParallelismHolds | core/workflow_store.py:2300-2318 | In every reachable state the admitted executions of a workflow are within its parallelism, and all together within the global limit. |
| AdmissionLimits.ProgressIsClaimable | core/workflow_executor.py:564-601 | In every reachable state a running, uncancelled workflow with unfinished work and nothing failed or in flight has a step that the holder of its live lease can claim, as long as the global limit leaves room. |
| WorkflowStore.Database.ReserveResourceClaims | core/workflow_store.py:1613-1765 | The call computes the reservation transaction: insert, identity checks, scan, activation. |
| WorkflowStore.ScanConflicts | core/workflow_store.py:1713-1740 | The scan in ticket order finds a conflict exactly when the request is blocked, and reports the oldest blocker's reason. |
| WorkflowStore.Database.ReleaseResourceRequest | core/workflow_store.py:1823-1860 | Answers true exactly when it released the request, never while a child permit is live; touches no other row, raises exactly for a foreign owner, and keeps the store valid, exclusion included. |
| WorkflowStore.Database.QuarantineResourceRequest | core/workflow_store.py:1862-1884 | Succeeds exactly for the owner of a request that is not over; touches no other row; the store stays valid if and only if the request was held already or no other holder conflicts with it. |
| WorkflowStore.Database.ResolveQuarantinedRequest | core/workflow_store.py:1886-1945 | Resolution releases the request, drops settled admissions and rewrites the aggregate. |
| WorkflowStore.Database.ReserveRuntimeCapacity | core/workflow_store.py:1947-2047 | Answers exactly for a well-formed request under a parent that still authorises it; active exactly when it was, or when first in line and fitting under the limit; touches only its own permit; keeps the store valid. |
| WorkflowStore.Database.ClaimReadyOperation | core/workflow_store.py:2228-2360 | Hands out a fresh attempt exactly when everything a claim needs holds; that attempt then owns the row; otherwise nothing changes; keeps the store valid for an effect that has not crossed. |
| WorkflowStore.Database.PrepareOperationAttempt | core/workflow_store.py:2362-2415 | Succeeds exactly for the owner of an uncancelled workflow; the answered version is the one its next call must carry; a raise changes nothing; no other row changes. |
| WorkflowStore.Database.MarkOperationMayDispatch | core/workflow_store.py:2434-2495 | Succeeds exactly for the owner of an uncancelled workflow; logs exactly this crossing; no other row changes; an effect that had not crossed has crossed once and the store stays valid. |
| WorkflowStore.Database.CompleteOperationAttempt | core/workflow_store.py:2497-2619 | Succeeds exactly for the owner and a recordable state; records what was asked unless ownership below is unresolved; afterwards the attempt owns nothing at any version; keeps the store valid under honest evidence. |
| WorkflowStore.Database.UpdateOperationContext | core/workflow_store.py:1338-1389 | Succeeds exactly for an active operation under a live lease, adds the external reference and touches nothing else. |
| WorkflowStore.Database.AggregateRows | core/workflow_store.py:2621-2662 | One pass over the operation rows yields the aggregate state and error. |
| WorkflowStore.Database.RecomputeWorkflowAggregate | core/workflow_store.py:2664-2720 | Recomputing writes the aggregate, and nothing when it is unchanged. |
| WorkflowStore.Database.ResolveUncertainOperation | core/workflow_store.py:1391-1500 | The call computes the resolution transaction of an uncertain operation. |
| WorkflowStore.Database.AcquireWorkflowLease | core/workflow_store.py:2738-2788 | Refused exactly while another holder's lease lives; the answer names the caller's lease, and a new lease fences every earlier token. |
| WorkflowStore.Database.RenewWorkflowLease | core/workflow_store.py:2790-2817 | Succeeds exactly for the live lease and moves nothing but its expiry. |
| WorkflowStore.Database.RequestWorkflowCancel | core/workflow_store.py:2882-2936 | Accepted exactly at the current version, in every state; recorded unless the workflow is over or cancelling, and then no operation of it can be claimed, prepared or dispatched by anyone. |
| WorkflowStore.Database.TransitionWorkflow | core/workflow_store.py:2938-3033 | The call computes the transition with its current step and its truncated last error; a resume requeues exactly the failed operations; the store stays valid. |
| WorkflowStore.RequeueFailed | core/workflow_store.py:2966-2999 | The loop of a resume sends every failed operation back to created and leaves the others alone. |
| WorkflowStore.Database.RecoverDagExecution | core/workflow_store.py:3122-3184 | Recovery in place equals its closed form over all rows at once. |
| WorkflowStore.RecoverRows | core/workflow_store.py:3123-3161 | The loop over operations, whose updates feed later queries, settles every operation and request independently. |
| TopologicalOrder.GreedyIsMaximal | core/workflow_models.py:141-151 | Always taking the least available step yields a legal order that stops only when nothing is available. |
| TopologicalOrder.GreedyIsLeast | core/workflow_models.py:141-151 | No topological order is lexicographically smaller. |
| TopologicalOrder.CompleteIffAcyclic | core/workflow_models.py:141-157 | The order is complete, hence a permutation, exactly when the graph has no cycle. |
| TopologicalOrder.AcyclicMeansNoCycle | core/workflow_models.py:141-157 | The rank condition under which workflows are created is the absence of a dependency cycle. |
| WorkflowDefinitions.Kahn | core/workflow_models.py:141-151 | The loop over in-degrees, children and the ready heap computes the greedy order. |
| WorkflowDefinitions.Relax | core/workflow_models.py:147-151 | After a step is taken every in-degree again counts the missing dependencies, and exactly the newly free children are ready. |
| WorkflowDefinitions.ReadIds | core/workflow_models.py:113-123 | Step ids are accepted exactly when all are valid and distinct, and are indexed by position. |
| WorkflowDefinitions.ReadDependencies | core/workflow_models.py:125-142 | Dependencies are accepted exactly when known, distinct, few and not reflexive; in-degrees and children describe the graph. |
| WorkflowDefinitions.WorkflowTopologicalOrder | core/workflow_models.py:85-160 | Accepted exactly when well formed and acyclic; the answer is the least topological permutation; every error names a real fault, the cycle error exactly a cycle. |
| JournalFolds.SingleReadIsFoldAt | core/recovery.py:869-905 | The single-operation read equals the full fold at that operation. |
| JournalFolds.RefoldIsIdentity | core/recovery.py:803-818 | Flattening a folded state and folding it again is the identity, in whatever order each item lists its records. |
| JournalFolds.ExternalCountAgrees | core/recovery.py:683-711 | For distinct begin records the external-only pass keeps exactly the unresolved external operations. |
| JournalCompaction.CompactionPreservesMeaning | core/recovery.py:1044-1133 | A kept operation folds to exactly what it folded to before, if and only if it does not carry both an acknowledgement and a reconciliation. |
| JournalCompaction.CompactionKeeps | core/recovery.py:1056-1110 | Unresolved operations and non-external ones without a result are always kept. |
| JournalCompaction.CompactionKeepsCounts | core/recovery.py:1932-1975 | Pending, uncertain, unresolved external and unresolved workspace operations are the same before and after. |
| JournalCompaction.CompactionIsIdempotent | core/recovery.py:1044-1133 | Compacting again at the same time is the identity. |
| JournalCompaction.CompactedIsValid | core/recovery.py:1741-1793 | The compacted journal passes the strict validation again. |
| JournalQuota.CompactInTurn | core/recovery.py:1044-1133 | Compaction keeps the operations in the order in which they began, and with it the room that every external operation found behind the unresolved ones before it. |
| JournalCompaction.NewestAreNewest | core/recovery.py:1082-1091 | The retained terminal history is bounded, comes from the candidates, and nothing dropped is newer than anything kept. |
| JournalCompaction.HistoryIsBounded | core/recovery.py:1061-1091 | At most the configured number of resolved external operations stay, none of them expired. |
| JournalTheorems.CallFits | core/recovery.py:1257-1900 | Whatever a call appends fits the operation: uncertainty, resolutions, stages and evidence only move forward; only finish may append for an operation that is not there. |
| JournalTheorems.RestartRecovery | core/recovery.py:935-1026 | Recovery leaves no operation of an earlier runtime pending and touches no other; an error result exactly when dispatch is excluded, never after a durable workspace dispatch outside the UIA protocol. |
| JournalTheorems.RecoveryIsIdempotent | core/recovery.py:935-1026 | A second recovery appends nothing. |
| JournalTheorems.QuotaHolds | core/recovery.py:1405-1424 | In every run the unresolved external operations stay within the quota. |
| JournalTheorems.PassNeverRaises | core/recovery.py:869-889 | In every run the external-only pass comes to its end within the quota and finds exactly the unresolved external operations, also over a compacted journal. |
| JournalTheorems.UncertaintyIsSticky | core/recovery.py:1257-1350 | In every run an uncertain mark stays and its result slot never changes; the first resolution is final and excludes the other kind. |
| JournalTheorems.EvidenceIsNeverLost | core/recovery.py:1567-1723 | In every run staged evidence keeps its identity and never steps back; no later checkpoint loses it. |
| JournalTheorems.ResultAfterUncertain | core/recovery.py:1845-1876 | After an uncertain mark finish appends a result exactly when compaction has dropped the operation, and raises otherwise. |
| JournalExamples.LateFinishAppendsResult | core/recovery.py:1845-1900 | A concrete run in which that happens: acknowledged, compacted away, finished late. |
| JournalExamples.CompactionChangesBoth | core/recovery.py:1093-1113 | A valid journal with both resolutions of one operation, which compaction keeps and changes. |
| JournalTheorems.OrphanIsRefused | core/recovery.py:1741-1793 | A record for an operation that is not in the journal makes it invalid for good, so recovery and compaction refuse it from then on. |
| JournalTheorems.CallKeepsValid | core/recovery.py:1741-1793 | An appending call keeps the journal valid if and only if it is not a finish of an absent operation, a finish with an empty result over workspace evidence, a postcondition on a resolved operation, or an unsound reconciliation over workspace evidence. |
| JournalTheorems.ValidIffUndisturbed | core/recovery.py:1741-1793 | The journal of a run is valid if and only if no call of the run was one of these four. |
| JournalExamples.LatePostcondition | core/recovery.py:1615-1655 | A postcondition checkpoint after an acknowledgement is written and makes the journal invalid. |
| JournalExamples.EmptyFinish | core/recovery.py:1876-1900 | A finish with an empty result over workspace evidence is written and makes the journal invalid. |
| JournalExamples.UnsoundReconciliation | core/recovery.py:1301-1350 | A reconciliation without source or data over workspace evidence is written and makes the journal invalid. |
| JournalTheorems.MaintenanceKeepsValid | core/recovery.py:612-632 | Recovery and compaction keep a valid journal valid. |
| JournalTheorems.NothingLeftPending | core/recovery.py:935-1026 | After a restart on any run without such a call no operation of an earlier runtime is pending. |
| JournalTheorems.CompactionOverRuns | core/recovery.py:1044-1133 | In every run a compaction that keeps an operation keeps its folded state exactly. |
| JournalTheorems.UnresolvedStays | core/recovery.py:1062-1110 | An operation leaves the journal only when it has a result or is external and resolved. |
| JournalContracts.BeginMeaning | core/recovery.py:1356-1425 | Begin is refused exactly for malformed metadata, or for an external operation exactly when the unresolved external ones fill the quota; otherwise a fresh operation is pending and no other is touched. |
| JournalContracts.WorkspaceMeaning | core/recovery.py:1657-1723 | A stage is written exactly one step on, for the same files, on an unsettled operation; the same stage again writes nothing; native and postcondition evidence stay. |
| JournalContracts.FinishMeaning | core/recovery.py:1827-1901 | Finish raises exactly while an uncertain mark is present; otherwise it records the result, or an uncertain mark when a durable dispatch leaves the effect unknown, and touches no other operation. |
| JournalContracts.MarkMeaning | core/recovery.py:1523-1565 | Marking raises exactly for an absent or finished operation and writes nothing exactly when the mark is there. |
| JournalContracts.AcknowledgeMeaning | core/recovery.py:1257-1299 | Accepted exactly for an operation without result and reconciliation that is not acknowledged in other words; afterwards it says so, and the same call writes nothing. |
| RecoveryJournal.OperationRecoveryJournal.Configure | core/recovery.py:612-632 | Configuration validates strictly and then recovers. |
| RecoveryJournal.OperationRecoveryJournal.RecoverPreviousRuntimes | core/recovery.py:935-1026 | The recovery loop appends exactly the specified records. |
| RecoveryJournal.OperationRecoveryJournal.CompactFile | core/recovery.py:1044-1133 | The rewrite produces exactly the specified journal, and an invalid journal is left alone. |
| RecoveryJournal.OperationRecoveryJournal.BeginOperation | core/recovery.py:1356-1425 | The streaming quota test appends a pending operation under a fresh id or raises, exactly as BeginMeaning says; no other operation is touched. |
| RecoveryJournal.OperationRecoveryJournal.CheckpointWorkspaceEdit | core/recovery.py:1657-1723 | The streaming read and the staged refusals move the evidence one stage on for the same files, once, as WorkspaceMeaning says. |
| RecoveryJournal.OperationRecoveryJournal.FinishOperation | core/recovery.py:1827-1901 | Raises exactly while an uncertain mark is present and records a result or, after a durable dispatch of unknown effect, an uncertain mark. |
| RecoveryJournal.OperationRecoveryJournal.MarkOperationUncertain | core/recovery.py:1523-1565 | Marks an operation without a result once; the second mark writes nothing. |
| RecoveryJournal.OperationRecoveryJournal.AcknowledgeOperation | core/recovery.py:1257-1299 | Accepts exactly what AcknowledgeMeaning allows; repeating the same acknowledgement writes nothing. |
| RecoveryJournal.StateOf | core/recovery.py:891-905 | The loop over records computes the fold. |
| RecoveryJournal.ReadOne | core/recovery.py:869-889 | The streaming read of one operation equals the full fold at it. |
| RecoveryJournal.ReadExternal | core/recovery.py:869-889 | The external-only streaming read, with its early raise, yields exactly the unresolved external operations. |
| RecoveryJournal.ValidateRecords | core/recovery.py:1741-1793 | The validation loop accepts exactly the valid journals. |
| RecoveryJournal.SelectHistory | core/recovery.py:1058-1091 | The candidate loop and the newest-first cut select the allowed history. |
| RecoveryJournal.Rewrite | core/recovery.py:1093-1113 | The retention loop writes exactly the kept records in order. |
| JobTheorems.CapacityHolds | core/jobs.py:491-509 | In every run running plus orphaned jobs never exceed the limit. |
| JobTheorems.StepFitsIff | core/jobs.py:438-519 | Running, orphaned and reserved jobs within the limit stay within it if and only if the step is not a successful claim without a token at the limit. |
| JobTheorems.FitsIffNeverOverbooked | core/jobs.py:363-519 | Along a run they are within the limit at every point if and only if no step is such a claim. |
| JobExamples.OverbookedRun | core/jobs.py:491-519 | A run under a limit of one in which a claim without a token leaves one job running beside one reserved. |
| JobTheorems.ReservedCapacityHolds | core/jobs.py:363-409 | When every claim carries a token no step overbooks, so running, orphaned and reserved jobs together never exceed the limit. |
| JobTheorems.ReservationNeverWaits | core/jobs.py:491-497 | In every run without such a claim the holder of a live reservation is never told to wait. |
| JobTheorems.SingleClaim | core/jobs.py:438-519 | A job is claimed at most once in any run. |
| JobTheorems.SingleDispatch | core/jobs.py:521-542 | A job crosses may_dispatch at most once in any run. |
| JobTheorems.DispatchByTheClaimant | core/jobs.py:521-542 | Only the worker that claimed a job dispatches it. |
| JobTheorems.NoDispatchAfterCancel | core/jobs.py:698-751 | No job is dispatched after its cancel has committed. |
| JobTheorems.LostReservationNeverClaims | core/jobs.py:327-346 | A token whose reservation is gone never claims the job again and changes nothing. |
| JobTheorems.SameVersionSameRow | core/jobs.py:648-690 | Versions never decrease, and two observations with one version are the same row. |
| JobTheorems.ClaimMeaning | core/jobs.py:471-516 | When a claim succeeds, waits or ends, what it leaves alone, and that a terminal answer is final for its token. |
| JobTheorems.DispatchMeaning | core/jobs.py:529-542 | Whom the boundary admits, and that it admits nobody afterwards. |
| JobTheorems.CancelMeaning | core/jobs.py:701-726 | On which jobs a cancel is recorded, and that it ends claiming and dispatching. |
| JobStore.Store.ReserveWorkerLaunches | core/jobs.py:348-409 | The sweep, the counts and the token loop compute the reservation transaction, which keeps occupied slots within the limit; the answered count is that of the jobs still queued. |
| JobStore.Store.RecoverStaleReservations | core/jobs.py:327-346 | The loop clears exactly the stale reservations found dead. |
| JobStore.Store.ReconcileRows | core/jobs.py:268-308 | The loop applies exactly the changes that the probes justify and the status still allows. |
| JobStore.Store.ClaimForExecution | core/jobs.py:438-519 | Claims exactly a job that awaits this token below the limit, using the slot a reservation already held; waits exactly at the limit; after a terminal answer the token never succeeds; no other row changes. |
| JobStore.Store.MarkJobMayDispatch | core/jobs.py:521-542 | Admits exactly the worker of a running, uncancelled job that is not past the boundary, and nobody after it; otherwise nothing changes, or the cancelled job ends without effect. |
| JobStore.Store.CancelJob | core/jobs.py:698-726 | Recorded on every job that is not over and on no other; from then on nobody claims or dispatches the job. |
| JobStore.ReachBoundary | scripts/job_worker.py:108-158 | The worker gets to its effect exactly when its claim succeeds, its resource claims are granted and no cancel intervenes; otherwise the claimed job ends without effect, failed when only its resources were refused first and cancelled otherwise; no other job changes. |
| SingleFlight.OneOperationPerKey | core/singleflight.py:34-63 | At most one operation per key is at work at any time. |
| SingleFlight.DirtyCallersGetFreshValues | core/singleflight.py:42-56 | A dirty caller that gets a value gets one computed by an operation that began after its call. |
| SingleFlight.WaitersShareOneOutcome | core/singleflight.py:45-63 | All calls of a flight end with the same outcome, settled after each of them called. |
| SingleFlight.NothingSurvives | core/singleflight.py:52-63 | A flight is found under its key exactly while some call still works for it. |
| OutputCapture.AnyChunking | core/executor.py:49-127 | For any chunking the bounded buffers show exactly what the whole stream shows. |
| OutputCapture.ShownLength | core/executor.py:106-127 | What is shown has exactly the length of the stream or the limit, and is the stream when it fits. |
| OutputCapture.NewCapture | core/executor.py:35-47 | A new capture stands for the empty stream, and a negative limit keeps nothing. |
| OutputCapture.OutputCapture.FeedChunk | core/executor.py:49-81 | Feeding appends to the stream the buffers stand for, unless the capture is closed. |
| OutputCapture.OutputCapture.Result | core/executor.py:83-129 | The payload is the prefix, the suffix, or both with the marker, and the stream from the cursor on when there is no limit; totals, the truncation flag and the refusals are those of the whole stream. |
| AuditLog.FilesAreNewestSegments | core/audit.py:110-127 | The files of any history are its newest segments, each file whole records in order. |
| AuditLog.SegmentsAreTheHistory | core/audit.py:140-195 | The segments together are the history, no more and no less. |
| AuditLog.SegmentsAreBounded | core/audit.py:171-183 | Every segment is within the size limit unless all of it but its last record is empty. |
| AuditLog.RetainedIsASuffix | core/audit.py:97-127 | Read from the oldest rotation to the live file, the files hold exactly the bytes of the records after some first ones, in order; their numbers are consecutive. |
| AuditLog.AuditFiles.Rotate | core/audit.py:110-127 | The shifting loop moves every numbered file up by one and drops the oldest. |
| AuditLog.AuditFiles.AppendPayloads | core/audit.py:140-195 | A batch leaves the same files as appending its records one at a time. |

## Left out

- AdmissionTables.FirstBlocker: paths are taken as already canonical; case folding, `normpath` and drive letters are not modelled, and `commonpath == left` is the prefix relation on components.
- WorkflowSystemProofs.StepOk: the coordinator loop appears as steps that may be taken in any order, so its polling order, back-off, heartbeat timing and stop-admission flags are not modelled; every order they allow is covered.
- WorkflowStore.Database.ReserveResourceClaims: the eviction of old rows when the tables are full and the size limits of claim sets are not modelled.
- WorkflowStore.Database.CompleteOperationAttempt: result payloads, redaction and the truncation of an operation's error text are not modelled; execution ids always move with attempt tokens and step rows always mirror their operation, so both are left out.
- WorkflowStore.Database.RecoverDagExecution: requests of a workflow that name no operation are not modelled, and `recover_interrupted` is one such call for each interrupted workflow.
- AdmissionLimits.ParallelismHolds: every admission weighs one and all are of one category, as the executor claims them; both limits are constant over a run.
- WorkflowExecutor.RunDagAttempt: one attempt alone against the store, with time passing between its calls; other threads interleave in the step system only. Planning a route and preparing an intent appear as interruptions before the prepare call.
- WorkflowDefinitions.PopLeast: the heap is a set with removal of its least element.
- JournalTheorems.QuotaHolds: the quota is constant over a run, here and in `JournalTheorems.PassNeverRaises`; operations are numbered in the order in which they begin.
- RecoveryJournal.OperationRecoveryJournal.Configure: unreadable or truncated lines, the record size limit and file locking are not modelled; a record that is not one of the six types is.
- RecoveryJournal.OperationRecoveryJournal.CompactFile: the count after which compaction runs by itself is not modelled; a compaction may happen between any two calls.
- JobStore.Store.ReserveWorkerLaunches: idempotent submission by request key, retention of finished jobs, the raw `update` call with a non-terminal status, output streaming and the `wait` polling loop are not modelled.
- SingleFlight.OneOperationPerKey: the shared dictionary is modelled as a step system rather than an object, since its point is the interleaving.
- OutputCapture.OutputCapture.Result: decoding, previews and delivery of the payload, and the spool's disk file, are not modelled.
- AuditLog.AuditFiles.AppendPayloads: I/O faults, retries, `fsync` and the writer thread are not modelled.
- SQLite mechanics, schema migration, JSON and base64 encoding, digests, process ownership and file locks are not part of this model.
- The sequential executor path, action handlers, postcondition evaluators, route catalogues and the polling clients `managed_resource_claims` and `acquire_runtime_capacity` are not part of this model; the clients' steps on the tables are.
