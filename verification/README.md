# Verified model of the central worker pool

This project models the worker pool of the repository in Dafny 4.11 and proves what its documentation and
tests rely on.

* **The pool store** (`pool_types`, `pool_rows`, `pool_spec`, `pool_store`). Every public mutator of
  `WorkerPoolStore` is one serialized transaction over tasks, workers, lanes, attempts, checkpoints,
  reconciliations and quarantine rows. `PoolSpec` gives each transaction as a function from a database to a
  new database and a reply, or to the error that rolls it back; the class `WorkerPoolStore` updates its
  tables in place, with the loops of the source, and is proved to do exactly that. A clock reading is an
  integer parameter, read once per transaction. Lease tokens and attempt ids are drawn from a counter.
* **What the store keeps** (`ledger`, `totals`, `pool_steps`, `pool_invariant`). One invariant over every
  operation with every parameter: the fencing ledger, one task per worker, result columns, quarantine,
  checkpoint order, containment of open effects, lane claim counters.
  The in-place methods are the refinement layer: what the functions they refine mean is said by the
  theorems about steps and runs.
* **What its operations mean** (`outcomes`, `histories`, `claim_order`, `administration`): when each is accepted,
  said by the attempt a caller holds and the effects left open, where work goes when its lease ends, what counts
  as progress, whose turn it is, and who may claim after a change of workers, lanes or affinities.
* **Runs of the store** (`evolution`, `fencing`, `effects`, `reconciling`, `holding`, `budgets`, `fairness`),
  and concrete runs from the fresh schema that reach what the theorems leave open (`scenarios`, `budget_limits`).
* **Diagnostics** (`diagnostics`): the second implementation of claim eligibility against claims.
* **Evidence and merge records** (`work`, `work_runs`, `work_race`): `WorkOrchestrator`, first as an object
  whose calls run one at a time, then with any number of calls interleaved between their reads and their writes.
* **Native executors** (`executor`, `executor_safety`, `executor_calls`, `executor_theorems`,
  `executor_progress`, `executor_failures`, `executor_abandonment`, `executor_stranding`): any number of one-shot Builders and
  Validators as clients of the store, with calls that are lost or lose their reply, processes that vanish
  between any two steps, and everything else the pool may do in between.
* **Text and byte cores** (`texts`, `lexicographic`, `permutations`, `sql_scanner`, `sql_tokens`, `local_edits`,
  `revisions`, `anchored_patch`, `anchored_lines`, `artifact_codec`, `bundle_header`).

Verify everything with `dafny verify dfyconfig.toml --resource-limit 2000000 --verification-time-limit 0`.

## Where the code and what is said of it disagree

* **Diagnostics and disabled lanes.** The diagnostics list a disabled lane as a reason against every worker,
  while the claim query for Validators never looks at `enabled` (`app/store.py:799-823`). The precheck and an
  exact claim differ exactly for a ready Validator who is a candidate for the task while its lane is disabled,
  and then it is the claim that succeeds (`Diagnostics.DiagnosticsDiffer`). Such a state is reached by a run
  (`Diagnostics.DisabledLaneDisagrees`).
* **`merged` is not final for overlapping calls.** `record_merge_result` reads its row outside the write
  transaction and its UPDATE is unconditional. A merged record leaves `merged` exactly through the write of a
  refusal that had read the row earlier (`WorkRuns.MergedIsLostExactly`), and any part of it changes exactly
  through the write of an older report that says something else (`WorkRuns.MergedRowChangesExactly`). From the
  empty system on, a run ends with a merge undone (`WorkRace.MergeIsUndone`); with no older call in flight
  `merged` is absorbing (`WorkRuns.MergedIsFinal`).
* **A reconciled publication is never resumed, nor is a verdict.** The authority may answer `confirmed` or
  `not_applied`, and `requeue_blocked` then lets the task be claimed again, but the native executor accepts only
  an empty history or one that ends in a Builder's result (`ExecutorTheorems.ContextIsSafeExactly`). Once a task
  with a publication and no result has been claimed again, no native executor ever gives it a result
  (`ExecutorTheorems.AbandonedForever`); once a task whose Validator vanished after its verdict has been claimed
  again, it is never completed (`ExecutorTheorems.StrandedForever`). Runs from the empty pool reach both
  (`ExecutorAbandonment.AbandonmentHappens`, `ExecutorStranding.StrandingHappens`).
* **`max_attempts` is not a bound.** Claims do not look at it. A step takes a task past it exactly by granting
  the task with its attempts used up (`Budgets.StepPassesLimitExactly`, over runs `Budgets.PassesLimitExactly`).
  After n requeues attempts exceed it by at most 1 + n (`Budgets.AttemptsAreBounded`), and for every n a run
  reaches that (`BudgetLimits.AttemptsAreTight`): without any requeue, Builder and Validator together take two
  attempts of a task that allows one.
* **`max_in_flight` is not a bound.** Requeues do not look at capacity. A step takes a lane past it exactly by
  requeueing a task with a result into a full lane, or by configuring the lane below what is active in it
  (`Budgets.StepPassesCapacityExactly`). While the capacity is not lowered, n such requeues let the active tasks
  exceed it by at most n (`Budgets.ActiveTasksAreBounded`), and for every n a run reaches that
  (`BudgetLimits.CapacityIsTight`).
* **A rerouted task need not be claimable.** The watchdog hands a task back when somebody else is ready for it, but
  looks neither at the lane nor at who built it. Whoever can take over gets the task by an exact claim exactly if
  it is not a result of their own, and without a result if the lane is open and has room
  (`Outcomes.TakeOverIsClaim`).
* **An old text that occurs once need not be the only one.** `revision_edit_not_unique` is decided by `str.count`,
  which skips overlaps. A count of 1 means one occurrence, in every source, exactly for texts that do not end as
  they begin (`Revisions.CountMeansOnceExactly`); for the others the first occurrence is taken, as in
  `Revisions.OverlappingTextIsAccepted`.
* **Renewals.** `renew_lease` does not check its duration; the HTTP contract does. How long a task goes without
  progress is bounded whatever the renewals (`Holding.HoldingIsBounded`). How long a lease outlives its end is
  bounded unless a renewal ends before the last reconciliation (`Holding.LeaseIsBounded`): such a renewal, and
  nothing else, breaks it in a step (`Holding.StepKeepsLeasesExactly`), one by -100 seconds does
  (`Holding.LeaseCanBeCutShort`), and positive ones never do (`Holding.PositiveNeverRenewsShort`).

## Model

| member | source | states |
|---|---|---|
| PoolStore.WorkerPoolStore.constructor | app/store.py:102-131 | a fresh store is the empty database and satisfies the invariant |
| PoolStore.WorkerPoolStore.EnableFencedCutover | app/store.py:364-385 | the cutover flag is set only for a drained pool with an exclusive operator |
| PoolStore.WorkerPoolStore.RegisterWorker | app/store.py:387-415 | registration replaces the worker row, role included, and touches nothing else |
| PoolStore.WorkerPoolStore.HeartbeatWorker | app/store.py:497-513 | a heartbeat changes what it is given and the time, never the role, and fails for an unknown worker |
| PoolStore.WorkerPoolStore.ConfigureRepository | app/store.py:439-457 | capacity outside 1..100 is refused; the claim counters of the lane stay |
| PoolStore.WorkerPoolStore.ReplaceWorkerAffinities | app/store.py:469-485 | the worker's affinities become exactly the given set, others stay, missing lanes are added |
| PoolStore.WorkerPoolStore.EnqueueTask | app/store.py:515-554 | a replay finds its row and creates nothing; a divergent one, or fencing before cutover, rolls back |
| PoolStore.WorkerPoolStore.Recover | app/store.py:627-650 | sweeping the expired rows one by one, in any order, is the simultaneous recovery, and the count is theirs |
| PoolStore.WorkerPoolStore.RecoverStalled | app/store.py:683-725 | the watchdog loop over a scan of exactly the stalled rows, each decided on the database as it then is |
| PoolStore.WorkerPoolStore.SweepStalledRow | app/store.py:690-724 | one stalled row is blocked for reconciliation, failed, rerouted or blocked as stuck, and counted as such |
| PoolStore.WorkerPoolStore.Reconcile | app/store.py:731-739 | recovery, then the watchdog, in one transaction, with both counts |
| PoolStore.WorkerPoolStore.RecoverExpiredLeases | app/store.py:1305-1307 | recovery alone |
| PoolStore.WorkerPoolStore.ClaimTask | app/store.py:741-873 | a claim grants the first candidate of its query, and its sweeps roll back when the worker is refused |
| PoolStore.WorkerPoolStore.ChooseAndGrant | app/store.py:764-873 | choosing among the candidates and writing lane, task and attempt of the chosen one |
| PoolStore.WorkerPoolStore.SelectFirst | app/store.py:779-823 | ORDER BY ... LIMIT 1 finds the one least row of the candidates, which is first in turn among them |
| PoolStore.WorkerPoolStore.Grants | app/store.py:825-873 | the grant writes task, lane counter and attempt together, with a new generation, token and attempt id |
| PoolStore.WorkerPoolStore.RenewLease | app/store.py:911-929 | only the expiry of the lease and its attempt move |
| PoolStore.WorkerPoolStore.StartTask | app/store.py:931-947 | a live Builder lease starts running under its own worker id |
| PoolStore.WorkerPoolStore.SubmitForValidation | app/store.py:949-972 | the Builder that started it hands over a commit, if no effect is open |
| PoolStore.WorkerPoolStore.CompleteTask | app/store.py:974-995 | an independent Validator completes a task that has a result and no open effect |
| PoolStore.WorkerPoolStore.FailTask | app/store.py:997-1018 | a failure returns the task to its pool or, with its attempts used up, quarantines it |
| PoolStore.WorkerPoolStore.BlockTask | app/store.py:1020-1042 | a block is recorded as awaiting reconciliation whenever an effect is open |
| PoolStore.WorkerPoolStore.RecordCheckpoint | app/store.py:1044-1162 | one checkpoint in sequence under the live generation; an identical replay writes nothing, a divergent one fails |
| PoolStore.WorkerPoolStore.ReconcileEffect | app/store.py:1219-1287 | the authority's answer is added once, only for an open effect of a task blocked for it |
| PoolStore.WorkerPoolStore.RequeueBlocked | app/store.py:1289-1303 | a blocked task with no open effect returns to `validating` if it has a result, else to `queued` |
| PoolRows.MaxSequence | app/store.py:1132-1138 | the maximum sequence of a generation, 0 when it has no checkpoint |
| PoolSpec.FirstUnique | app/store.py:779-823 | the ORDER BY of the claim queries leaves no ties |
| PoolSpec.FirstExists | app/store.py:779-823 | every non-empty set of candidates has a first row |
| ClaimOrder.GrantedInTurn | app/store.py:779-823 | against any other candidate: the lane served less often, then never, then longer ago by this role, then the lesser name; within a lane the lower priority number, then the longer wait, then the older row |
| ClaimOrder.GrantWritesColumns | app/store.py:825-873 | every column a grant writes in lane, task and attempt, and that no other changes |
| ClaimOrder.GeneralClaimIsBestExactClaim | app/store.py:741-873 | a general claim is, on what its sweeps left, the exact claim of the task first in turn among all it could get, and finds nothing exactly if there is none |
| PoolSteps.StepStages | app/store.py:741-873 | every operation is two sweeps that grant nothing, followed by moves its checks allow, or by one grant |
| PoolSteps.SweepRowsShape | app/store.py:683-725 | the watchdog moves each scanned row once, and no other row or table |
| PoolSteps.LeaseHeld | app/store.py:875-898 | what the lease check has established: state, holder, token, and for fenced tasks generation and attempt |
| Outcomes.LeaseCheckExactly | app/store.py:875-898 | the lease check passes exactly for who quotes the task's open attempt before its end, number and id included if fenced |
| Outcomes.OpenEffectExactly | app/store.py:581-625 | the unresolved-effect query finds exactly the effects whose last checkpoint is open and unanswered |
| Outcomes.FailReturnsWork | app/store.py:997-1018 | a failure is taken exactly under the open attempt without an open effect; with attempts left the work goes back to the role it needs, else it is quarantined; it is no progress |
| Outcomes.RecoveryReturnsWork | app/store.py:627-650 | recovery ends exactly the run-out attempts, and sends each task to the authority, to quarantine, or back to the role it needs |
| Outcomes.AlternativeExactly | app/store.py:652-681 | a worker is an alternative exactly if it does not hold the task, passes the readiness check of a claim in the role the task needs next, and may work in its lane |
| Outcomes.WatchdogReturnsWork | app/store.py:683-725 | of exactly the stalled rows, each by the database at its turn: open effect, quarantine, back to the role needed iff someone can take over, else blocked as stuck |
| Outcomes.TakeOverIsClaim | app/store.py:652-681 | whoever can take over gets the task by an exact claim exactly if it is not their own result and, without a result, the lane is open with room |
| Outcomes.StartBegins | app/store.py:931-947 | work starts exactly under the open attempt of a leased task, for a worker still registered as Builder |
| Outcomes.SubmitHandsOver | app/store.py:949-972 | a result is handed over exactly under the open attempt of a running task without an open effect; the Builder check never fails |
| Outcomes.CompleteCloses | app/store.py:974-995 | a task is completed exactly under the open attempt of its validation without an open effect, for a worker still a Validator; result and independence checks never fail |
| Outcomes.BlockParks | app/store.py:1020-1042 | a block with a reason is taken exactly under the open attempt; an open effect overrides the reason |
| Outcomes.RenewMovesTheEnd | app/store.py:911-929 | a renewal is taken exactly under the open attempt, whose end and the lease's move together |
| Histories.RecordExtendsHistory | app/store.py:1044-1162 | a checkpoint is created exactly with a new id, the next number of the open attempt, and about no effect in doubt; recognised exactly when id and content are known |
| Histories.AnswerIsTaken | app/store.py:1219-1287 | an answer is added exactly for an effect the blocked task left open in the generation it names, and recognised exactly when it is there already |
| Histories.RequeueReturnsWork | app/store.py:1289-1303 | a requeue is taken exactly for a blocked task without an open effect, and returns it to the role it needs |
| Histories.ProgressExactly | app/store.py:683-688 | a step sets the progress time of a task exactly by a grant, start, checkpoint, result, completion, block or requeue; renewals, failures, replays, answers and sweeps leave it |
| Administration.RegisteringMakesReady | app/store.py:387-415 | a registered worker is ready in its role alone, exactly while recent, governed and idle; others are as before |
| Administration.HeartbeatKeepsReady | app/store.py:497-513 | after a heartbeat a worker is ready exactly in its role, by what it reported, while recent and idle |
| Administration.AffinitiesDecideWhere | app/store.py:469-485 | afterwards the worker may work exactly in the given repositories, anywhere if there are none; others where they could |
| Administration.ConfiguringDecidesCapacity | app/store.py:439-457 | taken exactly within bounds; opening and capacity of that lane change and nothing else |
| Administration.AdmittedExactly | app/store.py:515-554 | a request is admitted exactly under an unused identity, with an attempt, and fenced only after the cutover; its row and its lane |
| Administration.RequestIsRecognisedForever | app/store.py:515-554 | in every later state the same request finds its row and creates nothing; with other fencing or another branch it is refused |
| Administration.FencedOnlyAfterCutover | app/store.py:364-385 | in every reachable state a fenced task exists only after the cutover |
| Ledger.LedgerKept | app/store.py:831-868 | attempts carry generations 1..n with rising ids, exactly the last is open exactly while leased, with the lease's holder, id and expiry |
| Ledger.ResultKept | app/store.py:941-995 | where a result is present, who built it, that its Validator is another worker, and one quarantine row per failed task |
| Ledger.CheckpointsKept | app/store.py:1096-1163 | checkpoints stay in (generation, sequence) order, numbered from 1, each under the attempt of its generation |
| Ledger.ReconciliationsKept | app/store.py:1239-1287 | answers concern past or current generations only, never a running lease, and only what had been left open |
| Ledger.EffectsKept | app/store.py:581-625 | an open effect belongs to the current generation, is the last word on itself, and its task is leased or awaits the authority |
| Ledger.RowKept | app/store.py:515-1303 | every move the methods can make keeps all of these |
| PoolInvariant.StepKeepsInv | app/store.py:364-1307 | every operation keeps the invariant of the whole database, whatever its parameters |
| PoolInvariant.ReachableInv | app/store.py:176-279 | the invariant holds in every state reachable from a fresh schema, the unique index on active workers included |
| PoolInvariant.GrantCounts | app/store.py:844-868 | a grant adds one attempt of its role to its lane, as its counter does |
| PoolInvariant.CountBoth | app/store.py:844-868 | of the attempts of one task, those of Builders and those of Validators are all |
| PoolInvariant.LaneConservation | app/store.py:844-868 | in every reachable state the claims a lane has counted, of both roles, are the lease generations of its tasks added up, and their attempt rows |
| Evolution.StepEvolves | app/store.py:941-995 | one step never rewrites a result, a final row, a checkpoint or an answer, and never lowers a generation |
| Evolution.RunEvolves | app/store.py:941-995 | the same over whole runs: results are write-once and `completed` and `failed` have no exit |
| Evolution.CompletedIsProved | app/issue_publish_coordinator.py:48-60 | every reachable completed task is unleased, with a result, two distinct workers, at least two attempts and generations; the guard on `produced_sha != base_sha` is outside |
| Fencing.GrantWrites | app/store.py:831-868 | a grant carries the next generation and a token and attempt id never drawn before, and writes them together |
| Fencing.LeaseNeverRevives | app/store.py:875-898 | a lease once not held never comes back, and any mutation quoting it changes nothing, ever after |
| Fencing.StaleGrantIsRefused | app/store.py:875-898 | once the generation has moved on, every mutation quoting the older grant fails without effect |
| Fencing.GrantsDiffer | app/store.py:831-868 | no two grants of a run share a token or attempt, and generations of one task rise |
| Effects.OpenEffectsContained | app/store.py:581-625 | in every reachable state an open effect's task is leased or blocked for reconciliation |
| Effects.OpenEffectCloses | app/store.py:1219-1287 | reconciling is enabled for every open effect and closes exactly it |
| Effects.SettlingCloses | app/store.py:1219-1287 | one answer per open effect, in any order and with any outcomes, closes them all |
| Effects.BlockedTaskGetsOut | app/store.py:1289-1303 | then the requeue succeeds, into `validating` exactly when there is a result |
| Effects.GrantFindsEverythingSettled | app/store.py:1186-1217 | at each grant every effect is confirmed, not applied or reconciled |
| Reconciling.RecoverClosesLeases | app/store.py:627-650 | after recovery no lease is expired |
| Reconciling.ReconcileCloses | app/store.py:627-739 | after `reconcile` every lease is live and fresh; what is still stalled is unleased, validating, with attempts and an alternative left |
| Reconciling.ReconcileIsIdempotent | app/store.py:731-739 | a second `reconcile` at the same time changes no row, in any scan order |
| Reconciling.TallyCounts | app/store.py:683-725 | the returned counters are the numbers of rows left in each state |
| Holding.HoldingIsBounded | app/store.py:683-739 | with reconciles at most d apart, a leased task is less than stall + d without progress, whatever its renewals |
| Holding.StepKeepsLeasesExactly | app/store.py:911-929 | every lease outlasts a past time after a step exactly unless the step is a renewal that ends by it |
| Holding.LeaseIsBounded | app/store.py:627-650 | with reconciles at most d apart, a lease is less than d past its end, unless a renewal ended before the last reconcile |
| Holding.PositiveNeverRenewsShort | app/store.py:911-929 | renewals of positive duration never do that |
| Holding.LeaseCanBeCutShort | app/store.py:911-929 | a run whose one renewal, by -100 seconds, breaks the bound |
| Budgets.AttemptsAreBounded | app/store.py:835-841 | attempts exceed max_attempts by at most one plus the requeues of the task |
| Budgets.StepPassesLimitExactly | app/store.py:831-843 | `attempt_count <= max_attempts` survives a step exactly unless it grants the task with its attempts used up |
| Budgets.PassesLimitExactly | app/store.py:831-843 | over whole runs, a task is past max_attempts exactly if it was ever granted so |
| BudgetLimits.AttemptsAreTight | app/store.py:831-843 | for every n, a run with n requeues of a task that allows one attempt and takes 2 + n |
| Budgets.ActiveTasksAreBounded | app/store.py:782-786 | active tasks exceed max_in_flight by at most the requeues that re-admitted tasks with a result |
| Budgets.StepPassesCapacityExactly | app/store.py:1289-1303 | `active <= max_in_flight` survives a step exactly unless it requeues a task with a result into a full lane or configures the lane below its active tasks |
| BudgetLimits.CapacityIsTight | app/store.py:1289-1303 | for every n, a run that requeues n tasks with a result and leaves 1 + n active in a lane for one |
| Fairness.ServedIsLeast | app/store.py:779-796 | a general Builder claim serves a lane that no lane with work for it has been served less than |
| Fairness.WaitIsBounded | app/store.py:765-796 | a lane that always has work waits for at most the sum of what other lanes are behind it, plus one each |
| Diagnostics.ReadTaskDiagnostics | app/task_diagnostics.py:115-171 | the loops list, for each worker, exactly the reasons against it |
| Diagnostics.CheckWorker | app/task_diagnostics.py:136-147 | the reasons that concern the worker alone, in their order |
| Diagnostics.CheckTask | app/task_diagnostics.py:148-158 | the reasons that concern lane and task, in their order |
| Diagnostics.DiagnosticsAgree | app/task_diagnostics.py:115-158 | eligible exactly when an exact claim acquires the task and, for a Validator, its lane is enabled |
| Diagnostics.DiagnosticsDiffer | app/task_diagnostics.py:148-158 | precheck and claim differ exactly for a ready Validator, candidate for the task, on a disabled lane; what the precheck admits is always granted |
| Diagnostics.DisabledLaneDisagrees | app/store.py:799-823 | a run after which a claim succeeds that the precheck rules out |
| WorkRecords.WorkOrchestrator.CreateWork | app/work.py:158-202 | enqueueing, then one record per task, with replays recognised and divergent ones refused |
| WorkRecords.WorkOrchestrator.RecordEvidence | app/work.py:207-266 | the checks in their order; evidence is written once, for the commit the completed task produced |
| WorkRecords.WorkOrchestrator.RecordMergeResult | app/work.py:268-329 | the checks in their order, replays and divergent replays of both outcomes, and the overwrite otherwise |
| WorkRuns.MergeChain | app/work.py:227-329 | in every reachable state of any interleaving a record has left `pending` exactly when verified, and then validated, expected and produced commit agree and the task is completed |
| WorkRuns.VerifiedForever | app/work.py:247-266 | from then on the evidence and the whole task row never change |
| WorkRuns.OneWorkPerTask | app/work.py:59 | no task ever has two records |
| WorkRuns.OpeningIsAnsweredExactly | app/work.py:158-202 | a replay exactly if the task has a record of this policy, a refusal exactly if the identity is another's or the policy differs |
| WorkRuns.EvidenceIsAcceptedExactly | app/work.py:207-266 | taken exactly if complete and of the commit the completed task produced, recognised exactly if every part is the same |
| WorkRuns.ReportNamesValidatedHead | app/work.py:284-329 | in every reachable state a record becomes merged or blocked only by the write of a complete report that names the validated and produced commit |
| WorkRuns.ReportIsAcceptedExactly | app/work.py:281-310 | which reports a ready, a refused and a merged record take, recognise and refuse, by head, commit and reason |
| WorkRuns.WriteKeepsChain | app/work.py:247-266 | a write keeps the chain however late it comes after its reads |
| WorkRuns.MergedIsLostExactly | app/work.py:303-329 | one kind of step, and only it, takes a record out of `merged` |
| WorkRuns.MergedRowChangesExactly | app/work.py:303-329 | a merged row changes at all exactly through the write of an older report that says something else or at another time |
| WorkRuns.RacingReportsUndoMerge | app/work.py:282-329 | two reports that both read a ready record: the refusal written last undoes the merge |
| WorkRace.MergeIsUndone | app/work.py:282-329 | a run from the empty system that merges a record, and whose next write undoes the merge |
| WorkRuns.MergedIsFinal | app/work.py:303-306 | with no older call in flight the whole merged record is absorbing |
| WorkRuns.EvidenceReplays | app/work.py:234-245 | the same evidence again is recognised and writes nothing |
| WorkRuns.MergeReportReplays | app/work.py:303-310 | the same report again is recognised and writes nothing |
| WorkRuns.PhaseNeverReturns | app/work.py:111-127 | the phase is past validation exactly when the task is completed, and stays there |
| WorkRuns.PhaseTells | app/work.py:111-127 | the phase tells whose attempt is open, whether there is a result, a quarantine, evidence, a merge |
| NativeExecutor.LatestIsLast | app/store.py:1165-1184 | in a history the ledger allows, the latest checkpoint is the one later than all others |
| ExecutorSafety.EnvironmentIsCalm | app/store.py:364-1307 | nothing but native executors writes history, generation, result or completion of a fenced task |
| ExecutorSafety.ExactClaimWrites | app/main.py:554-595 | an exact fenced claim changes one fenced row, by a new generation, and no history |
| ExecutorSafety.PublishKeeps | app/native_one_shot.py:841-858 | publishing keeps everything the executors guarantee |
| ExecutorCalls.CallWrites | app/native_one_shot.py:799-944 | a call writes at most the row of its task, and is accepted only under the current generation |
| ExecutorCalls.ReplayedRecord | app/store.py:1096-1111 | a record answered as a replay can only be a resumed build's result, already there |
| ExecutorCalls.ExecStepKeeps | app/native_one_shot.py:741-962 | every step of every process, and every step outside, keeps the guarantees |
| ExecutorTheorems.PublishAtMostOnce | app/native_one_shot.py:826-858 | over every interleaving a task is published at most once, announced by its first checkpoint |
| ExecutorTheorems.OneEffect | app/native_one_shot.py:827-840 | all checkpoints of a fenced task name one effect, derived from it and one commit |
| ExecutorTheorems.OneArtifact | app/native_one_shot.py:842-942 | every artifact-bearing checkpoint carries the artifact the one publication returned |
| ExecutorTheorems.ProducedIsConfirmed | app/native_one_shot.py:896-909 | the submitted commit is the one whose effect was confirmed |
| ExecutorTheorems.CompletedIsJudged | app/native_one_shot.py:911-944 | a completed fenced task ends in the Validator's checkpoint of its last generation, on that artifact |
| ExecutorTheorems.ContextIsSafeExactly | app/native_one_shot.py:433-495 | a recovery context is accepted exactly for an empty history or one ending, before the running generation, in a Builder's result |
| ExecutorTheorems.AbandonedForever | app/native_one_shot.py:477-495 | a publication without a result, once claimed again, never gets one, whatever is reconciled |
| ExecutorAbandonment.AbandonmentHappens | app/native_one_shot.py:826-858 | a run from the empty pool that ends in such a publication |
| ExecutorTheorems.StrandedForever | app/native_one_shot.py:433-495 | a task claimed again after a verdict that was not followed by the completion is never completed, and its history is closed |
| ExecutorStranding.StrandingHappens | app/native_one_shot.py:911-944 | a run from the empty pool that ends in such a task |
| ExecutorProgress.FreshBuildSubmits | app/native_one_shot.py:800-909 | an undisturbed Builder of an untouched task publishes once and hands over what it built |
| ExecutorProgress.ResumedBuildSubmits | app/native_one_shot.py:804-909 | after a Builder that recorded its result vanished, the next one hands over the same commit without publishing |
| ExecutorProgress.ValidationCompletes | app/native_one_shot.py:911-944 | an undisturbed Validator of a task that ends in a Builder's result completes it on the same commit |
| ExecutorFailures.AmbiguousPublicationBlocks | app/native_one_shot.py:841-892 | a publication that raised, or whose verification did, ends with the effect announced and in doubt and the task blocked for the authority, even if the note of the doubt is lost |
| ExecutorFailures.UnsafeContextBlocks | app/native_one_shot.py:770-785 | an executor that finds a malformed context, or a history begun and not ending in a Builder's result, blocks the task with all it had |
| ExecutorFailures.RaisedPublicationBlocks | app/native_one_shot.py:863-892 | from any state, a raised publication or verification ends in a block and never in a failure report |
| ExecutorFailures.RaisedWorkIsReported | app/native_one_shot.py:945-962 | from any state, a build, inspection or judgement that raised ends in a failure report, taken exactly under the open attempt without an open effect |
| ExecutorFailures.UnconfirmedCallIsReported | app/native_one_shot.py:945-962 | so does every call that was lost, refused or not answered |
| SqlScanner.CompilePoolSql | app/postgres_authority.py:144-197 | the scanning loop computes the translation of the statement's tokens, or the error of its first defect |
| SqlScanner.ScanQuote | app/postgres_authority.py:149-160 | the inner loop finds the end of a quotation |
| SqlScanner.ScanRegion | app/postgres_authority.py:147-173 | the region that starts at a position, if any |
| SqlScanner.TokensCover | app/postgres_authority.py:146-195 | the tokens of a statement are the statement |
| SqlScanner.TranslationIsFaithful | app/postgres_authority.py:144-197 | what the driver reads back is the statement, with n placeholders at the question marks in code and only code-position rowids renamed |
| SqlScanner.UnparameterizedIsVerbatim | app/postgres_authority.py:174-196 | without parameters the output is the statement with its code-position rowids renamed, and nothing escaped |
| SqlScanner.QuotationIs | app/postgres_authority.py:149-160 | a quotation ends at its first quote that is not doubled |
| SqlScanner.LineCommentIs | app/postgres_authority.py:161-163 | a line comment runs to the first newline or the end |
| SqlScanner.BlockCommentIs | app/postgres_authority.py:164-167 | a block comment runs to the first closing mark after its opening |
| SqlScanner.DollarStringIs | app/postgres_authority.py:168-173 | a dollar string runs to the next occurrence of its own tag |
| SqlTokens.RegionExactly | app/postgres_authority.py:147-173 | what opens at a position by its characters, and that every region ends where its kind ends |
| SqlTokens.CodeTokenExactly | app/postgres_authority.py:179-195 | in code: a rowid that stands alone, a placeholder at each question mark, a second statement refused, else the character |
| LocalEdits.ApplyLocalEdits | app/structured_revision.py:57-74 | finding, sorting, checking and splicing compute the simultaneous substitution, or the first error |
| LocalEdits.SpliceReversed | app/structured_revision.py:73-74 | splicing sorted disjoint spans from the last to the first is substituting them all at once |
| LocalEdits.SortSorts | app/structured_revision.py:70 | sorting keeps the spans and orders them as tuples |
| LocalEdits.OrderOfEditsIsIrrelevant | app/structured_revision.py:57-74 | acceptance and text do not depend on the order of the edits |
| LocalEdits.SignatureSurvives | app/structured_revision.py:67-69 | the text up to the first newline is unchanged |
| LocalEdits.GapsSurvive | app/structured_revision.py:73-74 | every character outside the spans is found unchanged at its shifted place |
| Revisions.AcceptedExactly | app/structured_revision.py:53-72 | accepted are exactly one to six edits of allowed sizes whose old texts stand, counted once, after the first line and apart from each other |
| Revisions.AcceptedRevises | app/structured_revision.py:67-74 | the text has every new text where the old one stood and every other character, each moved by the edits before it, and nothing else |
| Revisions.CountIsOneExactly | app/structured_revision.py:66 | a count of 1 means a place that every other occurrence overlaps from the right |
| Revisions.CountMeansOnceExactly | app/structured_revision.py:66 | a count of 1 means one occurrence, in whatever source, exactly for texts without a border |
| Revisions.OverlappingTextIsAccepted | app/structured_revision.py:66-67 | an edit is accepted although its old text occurs twice |
| AnchoredPatch.AssembleAnchors | app/structured_anchors.py:282-388 | the loops compute the assembly, or the first error |
| AnchoredPatch.CollectPieces | app/structured_anchors.py:310-380 | the loop over the edits fills the two dictionaries |
| AnchoredPatch.CollectsExactly | app/structured_anchors.py:310-380 | accepted are exactly the replies whose edits pass alone and do not compete for a line |
| AnchoredPatch.AssembledLineByLine | app/structured_anchors.py:381-388 | the text is, line by line, the guard if given and the replacement or else the line; the signature stays |
| AnchoredPatch.UnmentionedLinesSurvive | app/structured_anchors.py:381-385 | a line no edit names is unchanged |
| AnchoredLines.CollectedExactly | app/structured_anchors.py:310-380 | the edits are accepted exactly if each is acceptable by its texts and its line, and none competes for a line |
| AnchoredLines.AcceptedExactly | app/structured_anchors.py:282-388 | accepted exactly for a source that can be catalogued, one to six edits that are collected, and a written text that differs and is not too large |
| AnchoredLines.AssembledAsWritten | app/structured_anchors.py:376-388 | line by line, the conditional return as deep as the line, and the lines of the new text as deep as the line, or the line |
| AnchoredLines.SplitLinesAre | app/structured_anchors.py:369-378 | the lines of a text are its parts between line breaks |
| AnchoredPatch.OrderOfEditsIsIrrelevant | app/structured_anchors.py:310-388 | acceptance and text do not depend on the order of the edits |
| ArtifactCodec.DecodesExactlyEncodings | app/s3_git_bundle_artifact.py:540-632 | a byte string decodes to (h, b) exactly when it is their encoding, the bundle is the announced one, and the artifact is of the caller's task and workspace, or, if allowed, of the result it already has |
| ArtifactCodec.RoundTrip | app/s3_git_bundle_artifact.py:540-632 | what was encoded is decoded, and nothing else has that encoding |
| ArtifactCodec.PackUnpacks | app/s3_git_bundle_artifact.py:544-559 | every four bytes are the big-endian form of the length they spell |
| ArtifactCodec.BigEndianOrders | app/s3_git_bundle_artifact.py:544-559 | the length is written most significant byte first |
| ArtifactCodec.Download | app/s3_git_bundle_artifact.py:266-300 | whatever the server does, an accepted value is the announced prefix of the object within bounds; an honest server's object is accepted exactly when announced truly |
| BundleHeader.ValidateBundleHeader | app/s3_git_bundle_artifact.py:426-468 | the loop over the header lines decides acceptance |
| BundleHeader.AcceptedExactly | app/s3_git_bundle_artifact.py:426-468 | accepted are exactly the bundles with the signature, one prerequisite for the workspace and one HEAD of the produced commit |

## Left out

- Databases: SQLite and PostgreSQL drivers, triggers, migrations, advisory locks; each method is one serialized transaction. Of the unique indexes, `idx_worker_active` and those on attempts and checkpoints are proved as invariants instead.
- Timestamps: integers stand for ISO texts, one reading per transaction. The source reads its clock several times inside some transactions and compares texts in `_recover`.
- Identity: hashes, UUIDs and derived ids are abstract; two draws never collide. Task ids stand for the idempotency key they are derived from.
- Descriptive columns: correlation ids, host, processor, workspace and request texts, and the shape checks and sanitizing of texts.
- Reads outside the write transaction of a heartbeat or registration reply are taken together with the write.
- Databases migrated from older versions and legacy binaries: runs start from a fresh schema.
- PoolInvariant.ReachableInv: `idx_workspace_active` is not stated; the workspace key is a digest of repository and task id, and digests are abstract.
- Evolution.CompletedIsProved: the coordinator also checks `produced_sha != base_sha`, which the store does not enforce and the model does not keep.
- SqlScanner.CompilePoolSql: starts after the rewrite of INSERT OR IGNORE.
- WorkRuns.MergeChain: a call reads its task in one step, after its row; correlation ids are not kept.
- LocalEdits.ApplyLocalEdits: starts from the parsed edits; the boundary check and the rendering that follow belong to the host language's parser.
- AnchoredPatch.AssembleAnchors: starts from the parsed edits and the split lines, after the bound on the size of the reply and its JSON; parsing of guard expressions is a parameter.
- ArtifactCodec.DecodesExactlyEncodings: canonical JSON, its parser, the digest and the shape checks of a header are parameters, with parsing undoing printing as the assumption.
- Native executors: receipts, lock files, workspace and boundary checks, and unfenced tasks; each may only make a process stop or fail, which the model allows at every step.
- FastAPI routes, authentication, S3 and Git subprocesses, GitHub, Notion and model plumbing, canaries and drivers: they would add no state machine of their own.
- The structured worker's candidate execution and AST guards: they depend on the host language's parser.
