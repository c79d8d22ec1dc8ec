# The ACGPS control plane, in Dafny

A model of the ACGPS control plane and proofs about it, in four connected parts.

**The task log and its readers.** `Audit` holds events, states and their validators; `Store` the two tables and the class
that changes them; `Lineage` the engine's and the store's walks over audit generations; `LineageLaws` what a successful
walk proves; `TaskLog` the stores reached by intake and engine commits; `Recovery` the recovery transaction; `Progress` the
double-collect summaries.

**Gates over the log.** `Evidence` and `Gates` hold the evidence files and what each gate asks of them; `Decisions` the
file-based decision queue; `Engine` the transitions as interleaved steps of many processes that may stop anywhere;
`EngineMethods` the writing methods on the store and the queue, tied to those steps; `EngineInvariant` and `EngineSteps` the
invariant of every reachable state; `PauseResume`, `FixCycleLaws`, `HandoffLaws`, `DecisionLaws` and `QueueLaws` what follows
from it; `EngineRuns`, `TaskRuns` and `FixCycleRuns` runs of the machine that reach what the laws speak about.

**The control-store authority and the coding slot.** `Authority` is the connection, marker and lock protocol statement by
statement, with failures and crashes anywhere and marker writes that are late or lost; `AuthorityLaws`, `LockLaws`, `RegisterLaws` and
`AuthorityProgress` are its laws. `CodingRecord` holds the execution records and their builders, `CodingSlot` the slot file
and its operations, `CodingSlotLaws` and `CodingPublication` the laws of every slot run.

**Dense algorithms.** `JsonDepth`, `OperationEvents`, `Policy`, `PolicyContract` and `PolicyLaws`.

`Results`, `Stages` and `Identifiers` are shared vocabulary.

## Conventions

- SHA-256 is a free constructor of what it digests, so equal digests mean equal contents. The 16-digit token that engine
  identifiers carry is taken to determine its task.
- Times are natural numbers. Files are maps; an exclusive creation and the write that follows it are two steps, and a file
  whose writer died in between stays torn. A database transaction is one atomic step.
- The transition table and the policy bundle are parameters: every law holds for any of them.
- A reader's several reads of evidence files may each find something else: a gate is judged on the files as read, and
  binding reads them again. A step that would raise is a step that is not taken; any process may stop at any point.
- A listing of the pending decisions is judged on one state; the program reads the files and then the store one after the
  other.
- Field-level schema checks are left to the types; the validators here keep the rules that relate fields to each other.

## Where the code does not do what is said of it

- **Fix-cycle closure.** The gates that take plain findings return no snapshots, so what they bind may differ from what they
  validated (acgps/workflow_engine.py:3407-3421, 2936-2946). A committed INTEGRATING is guaranteed to record the closure of
  everything its cycle owes exactly when it left TASK_REVIEW, or VERIFIED where nothing is owed
  (`ClosureIsGuaranteedExactlyFromReview`). The shipped table also enters INTEGRATING from BLOCKED, and under it a task
  reaches VERIFIED although the recorded evidence of its last INTEGRATING leaves a blocker open
  (`VerifiedWithoutRecordedClosure`, `ShippedTableFails`). What holds in every run is `EveryIntegrationReports`: each
  INTEGRATING was accepted on files, and its gate accepts no files that leave what is owed unreported.
- **A review resumed after a pause.** The raw source of the resumed event is WAITING_HUMAN, so its packet is read as a
  finding and the blocker computation fails closed: the task never enters INTEGRATING or VERIFIED again and never goes back
  to IMPLEMENTING (`ResumedReviewNeverIntegrates`). Runs reach such a fix from a review under the shipped table, and from an
  integration under a table that lets one pause (`ResumedFixIsReached`, `ShippedTableFails`).
- **A plan resumed after a pause.** The coder's handoff demands that the last transition into PLAN_READY came from SPEC_READY
  itself. A plan stage entered by a resume is therefore never left for IMPLEMENTING (`ResumedPlanIsNeverHandedOff`), and the
  shipped table lets a task get there (`ResumedPlanIsReached`, `ShippedTableResumesPlans`).
- **One unreleased lock object per task.** A release can raise after its COMMIT and leave its object unreleased without a
  row; another process may then lock the task (`TwoUnreleasedObjects`). An unreleased object has its row exactly while its
  own deletion has not committed, and among those there is one per task (`MutualExclusion`).
- **A free task that cannot be locked.** After such a release the process still has the task on its own register, and refuses
  itself the free task (`IdleHolderIsRefused`). An idle process can lock a free task if and only if it has no unreleased
  object of it (`FreeTaskCanBeLocked`); calling the release again always clears the way (`RetriedReleaseCompletes`).
- **Orphaned locks.** A crash, or an acquisition that raises after its COMMIT, leaves a row nobody can release; the staleness
  bound never steals it, so the task stays locked for ever (`OrphansAreForever`).
- **The connecting reconcile** can refuse a sound store while another process commits (`ConnectCanRefuse`). It does so exactly
  when the marker it read was level with the generation it read next and the row or the locks had changed by its later
  queries (`ConnectRefusesExactly`, `ConnectRefusesOnlyInARace`); the one under the write lock never refuses
  (`LockedReconcileNeverRefuses`).
- **The two walkers.** The store's walk does not read the rows of an older generation past its trusted head, the engine's
  does; they agree exactly when those rows are readable (`WalkersAgree`, `StoreWalkerIsLaxer`).
- **The completed record.** The builder computes its outcome without looking at the packet's validation or the baseline's
  sameness, which only the prelaunch gate demands; the two outcomes agree exactly when no promotable attempt lacks either
  (`DraftOutcomeAgrees`). A process observation without an event identity passes the parser but can never be recorded
  (`UnclaimedProcessRowsAreNeverRecorded`).
- **The pending queue.** While the request of a pause is on file and the pause is not yet committed, every listing fails, for
  all tasks; it succeeds again once the pause commits (`ListingRecovers`). It fails for ever once another event has taken the
  place of the pause in its log, or once a file was left torn by a writer that is gone (`ListingFailsForEver`); both are
  reached under the shipped table (`StrandedIsReached`, `TornIsReached`, `ShippedTablePauses`).
- **Policy answers withheld.** An answer is checked against the result contract last, and refused when a list of it is not in
  the contract's own order or a trigger name cannot be printed; the loader checks neither. If gates or skills are listed out
  of order for one level, adding a trigger can turn its refusal into an answer (`AddingATriggerCanRelax`); adding triggers
  never relaxes anything else, and nothing at all under an orderly bundle (`AddingTriggersNeverRelaxes`).

## Model

| member | source | states |
|---|---|---|
| Audit.EngineEventIsValid | acgps/workflow_engine.py:3053-3096 | An event the engine seals passes the store's event validator if and only if the transition request it came from was valid |
| Audit.TailBindingIsExact | acgps/workflow_engine.py:1208-1234 | The state/tail binding check accepts exactly the one state that the engine commits beside the tail event, pending decision and time included |
| Audit.StateOfIsInjective | acgps/workflow_store.py:1952-1980 | Two valid events whose states share a head hash are the same event |
| Store.WorkflowStore.CommitTaskStateAndAudit | acgps/workflow_store.py:1876-2032 | One event is appended and its state replaced together, a replay of the same pair changes nothing, and every refusal leaves both tables as they were |
| Store.WorkflowStore.ReadAuditEvents | acgps/workflow_store.py:1816-1841 | The loop returns all events of a generation exactly when every row is contiguous, valid and at its own coordinate |
| Store.WorkflowStore.AppendAuditEvent | acgps/workflow_store.py:1843-1874 | A valid event is inserted at its free coordinate and nothing else changes; an occupied coordinate or an invalid event changes nothing |
| Store.WorkflowStore.WriteTaskState | acgps/workflow_store.py:1649-1665 | A valid state replaces the row of its task alone |
| Lineage.TrustedAuditLineage | acgps/workflow_engine.py:4160-4228 | The engine's loop over generations, with its visited set, returns the specified walk; it terminates because the generation falls |
| Lineage.HasCommittedDecisionResolution | acgps/workflow_store.py:1730-1814 | The store's loop answers whether an event of its walk embeds the resolution, or refuses exactly when its walk does |
| LineageLaws.HeadDeterminesHistory | acgps/workflow_engine.py:4160-4228 | Two successful walks of either kind over any two stores whose head hashes agree return the same lineage of the same task, project and generation |
| LineageLaws.WalkersAgree | acgps/workflow_store.py:1743-1814 | The engine's walk succeeds exactly when the store's does and every generation it draws on is readable to its end; the lineages are then equal |
| LineageLaws.ResolutionIsInTheLineage | acgps/workflow_store.py:1790-1814 | Whenever the engine trusts a lineage, the store answers true exactly when some event of that lineage embeds the resolution |
| LineageLaws.StoreWalkerIsLaxer | acgps/workflow_store.py:1760-1786 | A store with an unreadable row past an older trusted head is walked by the store and refused by the engine |
| TaskLog.ReachableStoresAreTrusted | acgps/workflow_engine.py:84-187 | In every run of intakes, commits, replays and refusals both walks return exactly the events ever committed for a task in order, the tail binding holds and the generation reads back the same |
| TaskLog.EarlierLineagesArePrefixes | acgps/workflow_store.py:1876-1949 | Every lineage trusted at one moment of a run is a prefix of every lineage of that task trusted later |
| TaskLog.OnlyTheLatestStateCommits | acgps/workflow_store.py:1983-2032 | A transition built from any state once read is accepted only if that state is still the newest of its task |
| TaskLog.StatesNeverRecur | acgps/workflow_store.py:1876-1949 | Once a task's state has changed it never has the same value again, so equal readings bracket a still task |
| Recovery.RecoveryCutsAndExtends | acgps/workflow_contracts.py:2156-2442 | Carrying out an accepted transaction into an empty new generation gives the old lineage cut at the named prefix plus exactly the new event, for either walk |
| Recovery.CutLineage | acgps/workflow_engine.py:4160-4228 | Walking from any event of a lineage, as a later generation would, gives the lineage up to that event |
| Recovery.PlansFollowTheAction | acgps/workflow_contracts.py:2094-2153 | An accepted plan holds a generation event exactly when the result is accepted and its action starts a generation, which is then the successor of the diagnosed one |
| Recovery.Apply | acgps/workflow_store.py:1843-1874 | Append and state write in sequence give the carried-out tables exactly when both are accepted |
| Progress.TrustedProjectProgressSummary | acgps/workflow_engine.py:1438-1482 | If the summary returns while other processes commit between any two of its reads, every store from its first read to its last shows exactly the reported states, audit identities, event counts and state counts |
| Progress.TrustedTaskProgressSummary | acgps/workflow_engine.py:1383-1436 | A returned task view is that of a state read at one moment and a lineage walked at the next |
| Progress.NothingMoved | acgps/workflow_store.py:1684-1706 | Equal project states at the two ends of a window mean the same project states at every moment in it |
| Gates.CurrentFixCycleBlockers | acgps/workflow_engine.py:4025-4126 | The loop over the events of the current cycle collects the specified blockers in order, or refuses exactly where one event's evidence does |
| Gates.CollectEventBlockers | acgps/workflow_engine.py:4033-4123 | One event's blockers by its raw source stage: verifier failures, reviewer findings after the packet and result, or plain findings |
| EngineMethods.WorkflowEngine.CommitPreparedTransition | acgps/workflow_engine.py:2984-3146 | Decision file, request validation, resolution file and transaction in this order; a refusal leaves the tables alone but keeps the files already written |
| EngineMethods.WorkflowEngine.AcceptIntake | acgps/workflow_engine.py:84-191 | The first event and the DRAFT state are committed together, or nothing is |
| EngineMethods.TheMethodIsARun | acgps/workflow_engine.py:2984-3146 | Whenever the method succeeds, the interleaved machine has a run of that process alone to the same tables and queue |
| EngineSteps.ReachableIsSafe | acgps/workflow_engine.py:2879-3146 | In every interleaving, wherever processes stop, logs are consistent, each event passed its gate on the lineage it extends, and its decision files are on file |
| PauseResume.AcceptedRunsAreWorkflowPaths | acgps/workflow_engine.py:3185-3242 | Erasing pauses and resumes from any accepted run leaves a path of the workflow from DRAFT to where the task stands, each step by the actor its pair of stages requires |
| PauseResume.PausesAlternate | acgps/workflow_engine.py:3004-3053 | No pause is taken from a pause, each resume follows its own pause and carries the decision identity that pause left pending |
| PauseResume.StepsPassTheirGates | acgps/workflow_engine.py:3244-3272 | Each erased step passed the gate of its own pair of stages on exactly the events before it, on the very files the event binds where the gate hands back snapshots and on as many files where it does not |
| HandoffLaws.CoderReceivesTheFrozenPlan | acgps/workflow_engine.py:3678-3756 | Whenever a task goes from PLAN_READY or FIX_REQUIRED to IMPLEMENTING, the coder receives the planner packet of the last frozen plan, changed in role and identity only; from PLAN_READY it is the plan that entered the stage out of SPEC_READY |
| HandoffLaws.ResumedPlanIsNeverHandedOff | acgps/workflow_engine.py:3689-3720 | A plan stage entered by a resume is never left for IMPLEMENTING, paused again or not |
| HandoffLaws.ResumedPlanIsReached | acgps/workflow_engine.py:3004-3053 | A reachable task leaves such a plan stage, entered by a resume of SPEC_READY, under every table with the edges |
| HandoffLaws.ShippedTableResumesPlans | config/workflow_policy.yaml:20-37 | The shipped table has the edges of that run |
| PauseResume.NoSelfApproval | config/workflow_policy.yaml:39 | In every accepted run the role that submits a task for review never integrates it, sends it back or verifies it, whatever the transition table allows |
| PauseResume.AuthorizedIsLegal | acgps/policy.py:1020-1047 | Whatever a policy evaluation authorizes is a target of the transition table |
| FixCycleLaws.EveryIntegrationReports | acgps/workflow_engine.py:3409-3421 | Every INTEGRATING event was accepted by a gate that accepts only files reporting each finding its cycle owes verified or closed, and recorded such files if it left TASK_REVIEW |
| FixCycleLaws.VerifiedEndsTheFixCycle | acgps/workflow_engine.py:4025-4158 | At every VERIFIED event and for every accepted open P0 or P1 recorded since the previous VERIFIED: an INTEGRATING follows the last FIX_REQUIRED, and it and every other INTEGRATING since the finding reported it, recorded if it left TASK_REVIEW |
| FixCycleLaws.VerificationIsFresh | acgps/workflow_engine.py:3922-3951 | Every VERIFIED record accepted at the end of a fix cycle is no older than the last INTEGRATING of that cycle |
| FixCycleRuns.ClosureIsGuaranteedExactlyFromReview | acgps/workflow_engine.py:3409-3421 | Some run commits an INTEGRATING event out of a stage whose recorded evidence leaves open what its cycle owes if and only if the stage is none of TASK_REVIEW, VERIFIED and WAITING_HUMAN |
| FixCycleRuns.VerifiedWithoutRecordedClosure | acgps/workflow_engine.py:2936-2946 | A task can reach VERIFIED although the evidence recorded by the last INTEGRATING of its cycle leaves an owed blocker open, by way of BLOCKED |
| FixCycleRuns.ShippedTableFails | config/workflow_policy.yaml:20-37 | The shipped table allows the run that verifies without recorded closure and the one that resumes a review into an unreadable fix; a paused integration takes one edge more |
| FixCycleLaws.ResumedReviewNeverIntegrates | acgps/workflow_engine.py:4033-4126 | After a FIX_REQUIRED resumed from a paused review or integration no INTEGRATING, no VERIFIED and no return from FIX_REQUIRED to IMPLEMENTING is ever accepted |
| FixCycleRuns.ResumedFixIsReached | acgps/workflow_engine.py:3004-3053 | A reachable task has such a FIX_REQUIRED with a later event, from its review and from its integration, under every table with the edges |
| Decisions.DecisionQueue.Create | acgps/human_decisions.py:20-36 | A request is written once; an identical one counts as written and any other content refuses without a change |
| Decisions.DecisionQueue.Resolve | acgps/human_decisions.py:107-124 | A resolution is written once and only if it answers the pending request in identity, stage and option |
| Decisions.DecisionQueue.List | acgps/human_decisions.py:134-171 | The loop over the directory keeps the requests without a committed resolution, and returns them only if they are exactly the waiting tasks |
| DecisionLaws.WaitingTasksAreFiled | acgps/human_decisions.py:101-105 | In every reachable state each waiting task has its request on file and no resolution of it has been committed |
| DecisionLaws.ResumesAreOnFile | acgps/workflow_engine.py:3121-3146 | In every reachable state each committed resume has a resolved file equal to the record it embeds, answering its pending request |
| DecisionLaws.ListPendingExactly | acgps/human_decisions.py:134-171 | The listing succeeds exactly when every file it reads was written out and every pause on file was committed; it then lists each waiting task once under its decision and no other |
| QueueLaws.ListingRecovers | acgps/human_decisions.py:134-171 | A reachable state exists in which a whole request of an uncommitted pause makes every listing fail, and two steps of its process later every listing succeeds |
| QueueLaws.ListingFailsForEver | acgps/human_decisions.py:134-171 | Once a filed request has lost its place in the log to another event, or a file was left torn by a writer that is gone, every listing fails after every continuation |
| QueueLaws.StrandedIsReached | acgps/workflow_engine.py:3004-3053 | A process that stops between its request and its commit lets another event take the place of its pause |
| QueueLaws.TornIsReached | acgps/human_decisions.py:20-36 | A process that stops between creating and writing its request leaves it torn |
| QueueLaws.ShippedTablePauses | config/workflow_policy.yaml:20-37 | The shipped table has the edges of those runs |
| DecisionLaws.ListingCoversWaiting | acgps/human_decisions.py:145-171 | Whatever the listing collects, it includes for each waiting task the request that task waits for |
| AuthorityLaws.MarkerIsNeverAhead | acgps/workflow_store.py:767-944 | In every reachable state the marker's generation is at most the database's, and equal generations mean equal digests |
| AuthorityLaws.LockedReconcileNeverRefuses | acgps/workflow_store.py:881-898 | The reconcile under BEGIN IMMEDIATE never refuses, and what it prepares is the true generation and digest |
| AuthorityLaws.ConnectRefusesOnlyInARace | acgps/workflow_store.py:855-878 | The reconcile outside a transaction refuses only if another process committed after the generation was read |
| AuthorityProgress.ConnectRefusesExactly | acgps/workflow_store.py:855-878 | With others at work between its three queries, a connection is refused if and only if its marker was level with the generation it read and the row generation or the locks were different at the later queries |
| AuthorityProgress.ConnectCanRefuse | acgps/workflow_store.py:948-966 | A reachable state exists in which the connecting reconcile refuses a sound store |
| AuthorityProgress.FreeTaskCanBeLocked | acgps/workflow_store.py:2052-2128 | From every reachable state in which nobody writes, an idle process running alone can lock a free task, whatever the marker missed, if and only if it has no unreleased lock object of that task |
| AuthorityProgress.LockFreeTask | acgps/workflow_store.py:2067-2128 | The lock it then takes is in the row, on its register and guarded by the new object, with generation and marker one further and nothing else changed |
| AuthorityProgress.IdleHolderIsRefused | acgps/workflow_store.py:2065-2066 | A reachable state exists in which nobody writes and the task is free, yet an idle process is refused it under any instance |
| AuthorityProgress.RetriedReleaseCompletes | acgps/workflow_store.py:100-131 | A release that failed anywhere completes when called again undisturbed: its own row goes if it is still there, any other stays, and the register is cleared |
| RegisterLaws.RegisterIsExact | acgps/workflow_store.py:2064-2128 | In every reachable state a process has a task on its register exactly while it has an unreleased lock object of it, and never two |
| AuthorityProgress.TwoUnreleasedObjects | acgps/workflow_store.py:100-131 | A reachable state exists with two unreleased lock objects of one task, of which only the later guards it |
| LockLaws.MutualExclusion | acgps/workflow_store.py:2052-2133 | A lock object's row carries its instance exactly while its deletion has not committed, and at most one such object exists for a task |
| LockLaws.OneHolder | acgps/workflow_store.py:1406-1411 | Two processes never work under the lock of the same gate at once |
| LockLaws.RowsGoOnlyByTheirOwnRelease | acgps/workflow_store.py:100-131 | A lock row disappears only by the commit of the release of that very instance, and is never replaced in place |
| LockLaws.OrphansAreForever | acgps/workflow_store.py:2052-2133 | A row whose owner is gone outlives every continuation, however long it has been stale |
| LockLaws.FailedAcquisitionOrphansTheRow | acgps/workflow_store.py:2101-2121 | An acquisition that raises after its own commit leaves such a row |
| LockLaws.CrashOrphansTheRow | acgps/workflow_store.py:2052-2133 | A crash of the process that carries a lock leaves such a row |
| LockLaws.BudgetInEveryInterleaving | acgps/workflow_store.py:1219-1323 | Over all interleavings, crashes included, every slot version of a gate keeps remaining plus completed plus outstanding at two, and reservations granted are numbered 1 and then 2 |
| CodingSlot.SlotFile.InitializeSlot | acgps/workflow_store.py:1400-1430 | A missing slot is created empty with budget two, an existing one is returned to its own task only, and nothing else is written |
| CodingSlot.SlotFile.ReserveAttempt | acgps/workflow_store.py:1443-1499 | One attempt is taken from the budget under the rules of its kind, or the file stays as it was |
| CodingSlot.SlotFile.RetireCandidate | acgps/workflow_store.py:1501-1536 | Only the sole frozen v1 with one attempt left is retired into history with its authorization |
| CodingSlot.SlotFile.PublishRecord | acgps/workflow_store.py:1538-1638 | A record is filed against the live reservation and current slot, an identical one again changes nothing, and every refusal leaves the file |
| CodingSlotLaws.StepGrows | acgps/workflow_store.py:1219-1323 | Each operation keeps the budget, only adds records, never changes a binding once set and never returns budget |
| CodingSlotLaws.RunGrows | acgps/workflow_store.py:1400-1638 | Along every slot run records only grow, the gate binding is set at most once and the budget equation holds in each version |
| CodingSlotLaws.AtMostTwoReservations | acgps/workflow_store.py:1466-1497 | The reservations a run has granted are numbered 1 and then 2, as many as the budget spent |
| CodingSlotLaws.CandidatesOfARun | acgps/contracts.py:1309-1347 | At every point of a run there is at most one v1 and one v2, and the v2's parent is the v1, retired and still in history |
| CodingSlotLaws.HoldChangesNothing | acgps/workflow_store.py:1574-1599 | Publishing a HOLD record files it and changes no other part of the slot, budget included |
| CodingSlotLaws.HoldReservesNothing | acgps/workflow_store.py:1574-1598 | A HOLD record that fits the slot claims no attempt, although the record contract alone would allow it |
| CodingPublication.BuiltAttemptPublishes | acgps/coding_execution.py:625-846 | A record built from a reachable slot and its live reservation publishes exactly when it was filed before, or its execution is new, its binding unset or equal and its candidate new and well formed |
| CodingPublication.ReservedAttemptPublishes | acgps/workflow_store.py:1443-1638 | The same for a whole attempt: slot read, attempt reserved, record built on what was read and published against the reserved slot |
| CodingPublication.BuiltHoldPublishes | acgps/coding_execution.py:523-622 | A HOLD record built from a slot without a reservation publishes exactly when no different record has its identity |
| CodingRecord.DraftOutcomeAgrees | acgps/coding_execution.py:653-804 | The builder's outcome equals the independently derived one exactly when no promotable attempt rests on an unvalidated packet or a changed baseline |
| CodingRecord.BuiltOutcomeIsDerived | acgps/contracts.py:1595-1632 | A completed record that is built has the derived outcome, is a candidate exactly when promotable, and otherwise leaves the slot evidence as it was |
| CodingRecord.HoldIsDerived | acgps/coding_execution.py:523-622 | A HOLD record that is built has the derived outcome and leaves budget, slot state and active candidate as the context had them |
| CodingRecord.CandidateIsReconciled | acgps/coding_execution.py:682-749 | A candidate has no unknown or prohibited line, rows that pass in order, and changed paths equal to the union of its patch rows and within the authorized set |
| CodingRecord.CandidateExplainsItsStream | acgps/coding_execution.py:877-1030 | For a candidate no line of the raw stream was rejected, every observation passes, every claim has an identical observation and the final response is the agent's result |
| CodingRecord.UnclaimedProcessRowsAreNeverRecorded | acgps/contracts.py:1070-1080 | An attempt with a process observation that has no event identity is never built into a record |
| OperationEvents.ParseOperationEvents | acgps/coding_execution.py:877-1030 | Unknown counts exactly the rejected lines, invalid observations and unmatched claims, parsed the mappings and prohibited the prohibited lines; each observation becomes one row numbered from zero |
| OperationEvents.ReadLines | acgps/coding_execution.py:893-966 | The claims are exactly those of the first well-shaped line of each identity, and only the first good final response is accepted |
| OperationEvents.ReconcileObservations | acgps/coding_execution.py:967-1020 | A row passes exactly when its observation is well shaped and matches a claim or is the controller's own |
| OperationEvents.ZeroUnknownMeansReconciled | acgps/coding_execution.py:1021-1030 | Nothing is unknown if and only if no line is rejected, every observation passes and every claim has an identical observation |
| JsonDepth.ScannedDepthIsStructural | acgps/workflow_store.py:350-371 | On the canonical printing of any JSON value the scanner's maximum is the value's structural nesting depth, whatever its strings contain |
| JsonDepth.JsonNestingDepth | acgps/workflow_store.py:350-371 | The character loop computes the scanner's maximum for any text |
| JsonDepth.ValidateSqliteJsonText | acgps/workflow_store.py:333-341 | Any text is refused exactly when its UTF-8 size or its scanned depth is over its limit, for the size first |
| JsonDepth.AcceptsRecord | acgps/workflow_store.py:344-347 | A value is stored if and only if its canonical printing has at most 262144 characters, which are its bytes, and its structural depth is at most 256 |
| Policy.EvaluatePolicy | acgps/policy.py:231-251 | The evaluator returns the specified evaluation, or the fail-closed result for every refusal and for every answer outside its contract |
| Policy.EvaluateNormalized | acgps/policy.py:976-1047 | The risk loops compute the level and provenance the ordered triggers determine, or the first refusal |
| PolicyLaws.FailsClosedExactly | acgps/policy.py:840-957 | Evaluation fails closed exactly for a repetition, an unknown context or trigger, a forbidden profile downgrade, an unprintable trigger source, or an answer one of whose lists is out of order, in whatever order they come |
| PolicyLaws.RiskIsMaximum | acgps/policy.py:989-1012 | The risk of an answered request is the maximum of the default and the effective levels of its triggers |
| PolicyLaws.PermutationInvariant | acgps/policy.py:1115-1127 | Permuting either trigger list of a well-formed request changes no part of the result |
| PolicyLaws.AddingTriggersNeverRelaxes | acgps/policy.py:976-1047 | Adding triggers keeps refusals, risk and human gate and adds no authorized transition, except exactly where the first answer was withheld for the order of its lists and there is no cause to refuse the second; always under an orderly bundle |
| PolicyLaws.AddingATriggerCanRelax | acgps/contracts.py:1988-2030 | A loadable bundle exists with gates out of order for one level, where adding a trigger lowers the risk from fail-closed R3 to R1 |
| PolicyLaws.ProfileNeverLowersRisk | acgps/policy.py:996-1008 | A profile never gives an answered request less than the global level of its triggers |
| PolicyLaws.ResultsMeetTheContract | acgps/policy.py:930-957 | Every result of the evaluator meets the whole result contract and authorizes only targets of the table, all of them when nothing gates |
| PolicyContract.AnswerMeetsContractExactly | acgps/contracts.py:1786-2085 | Of the result contract's rules an assembled answer keeps all but two by construction: it meets the contract exactly when its lists follow their vocabularies and its triggers can be printed |
| PolicyContract.OrderlyBundlesAreNeverDisordered | acgps/contracts.py:1988-2030 | A bundle declared in the vocabularies' order never produces a list out of order, whatever is asked |

## Left out

- Command line, YAML loading, fixture overlays and the policy evaluation suite: plumbing around the modelled core.
- Windows job objects, subprocesses, Git clones and executor probing: calls into code outside the repository.
- Symlink and descriptor checks, fsync, operating-system file locks and SQLite's own behaviour: a transaction is one step, a replacement of a file one write.
- First-time initialization of the control store: the authority runs start after it.
- Export files beside the tables, idempotency records and intake proofs: not authoritative for any law here.
- Unparsable row text: such a row and a row holding an invalid event are refused alike, so only the latter is represented.
- Gates.GateAccepts: compares the contents, not the paths, of closure evidence with the event it must repeat; build artifacts and the other single-file rules of a manifest are part of its contract, not of the gate.
- The closure revalidations and the final identity check before a commit: they only refuse more.
- Packet, result and manifest builders, Windows file-name checks and case-fold collisions of paths: single-field rules.
- The verification commands that recompute a summary and compare it: one double-collect model covers them.
- Progress.TrustedTaskProgressSummary: the pending-decision requirement of a waiting task is not part of the preview that is compared.
- PauseResume.StepsPassTheirGates: ties bound to accepted evidence by number only where the gate hands back no snapshots, as the code does.
- PauseResume.NoSelfApproval: compares roles, which is all the code compares; identities are not recorded.
- Authority.Act: a process has at most one lock in use at a time, and loading a slot and comparing the marker are one step each.
- Policy.EvaluatePolicy: the envelope around a public result is not validated a second time, and the loader's vocabulary checks are assumptions on the bundle.
- Engine transitions after a recovery: decision identities do not carry the generation, so a restarted sequence would meet the files of the old one; the engine runs here start from intake.
- CodingRecord.ValidRecord: timestamps, sizes, counts and Windows paths are not checked, because they are single-field rules.
