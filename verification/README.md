# A verified model of the operator scheduler and its consumers

The repository adapts a model to a new device. Its core is a durable scheduler that
drives each operator through `torch -> xpu -> integration` on top of SQLite, with leases,
attempts, diagnosis rows and an environment that has to be proven first. Around it stand
the delivery gate that publishes a final receipt, the explanation of a run's progress, the
walk of the workflow graph with fact reuse and recovery, the deployment planner with its
independent validator, the artifact inventory and the comparison of performance metrics.

This project models those parts in Dafny and proves what their correctness rests on.
`dafny verify dfyconfig.toml` checks all of it.

## How it is built

- `SchedulerState`, `ResultValidation` and `Transitions` give the rows of the database and
  each public operation as a function on database values: the specification.
- `EventStore` and `TaskScheduler` are the imperative form: classes whose methods update
  the tables statement by statement, inside `transaction()` as the decorator of the source
  does, proved to take exactly one specified step each. `Transactions` proves what nesting,
  exceptions and crashes at any statement leave in the file.
- `Tally`, `Invariants`, `Claiming`, `Runs` and `Evolution` carry the inductive invariant
  over every interleaving of workers, clocks, restarts and crashes, and the transition
  relation of a single row.
- `Acceptance`, `Columns`, `ClaimColumns`, `ReconcileColumns` and `ProgressColumns` say what
  each operation does in terms of the columns, fields and files alone, and prove that the
  specification does exactly that: they share no definition with it.
- `Safety`, `SingleUse`, `Contracts`, `Recoverability`, `Reconciliation`, `Progress`,
  `Delivery` and `Dispatch` hold the main theorems about the scheduler and its consumers.
- `Journal`, `FactReuse`, `Recovery` and `GraphWalk` cover the graph walk; `Planner`,
  `Inventory` and `Performance` the three smaller algorithms.

## Reading the model

- A run of the system is a sequence of moves: time passes, then one operation is attempted
  by anyone, with arbitrary arguments. A state is reachable if some such sequence leads to
  it. Worker verdicts, decisions, evidence files and clock readings are arbitrary.
- SHA-256 is taken as injective, so the body of an operator contract is its own key, a
  digest is the content it digests, and an environment stands for its fingerprint. Lease
  tokens are numbered in the order drawn, which is how they are fresh.
- A task identity is a structured value; the text form is injective because the key is a
  fixed-length digest and the stage contains no colon.
- A dispatch is not one transaction: the moves of other connections before an entry's alias
  guard, between the guard and the entry's discovery, and before the report is validated are
  arbitrary inputs. Likewise the progress projection and the delivery gate read the run row,
  the task rows and the log in separate queries, and their theorems say what that costs.
- Time is an integer that never decreases. Rows created at the same instant are ordered by
  insertion.
- The readiness checks of a deployment proof (handoff fields, owner, validator, files) are
  one flag of `BindEnvironment`; evidence files and directory trees are values.
- The walk's directory entries are listed in the name order the source sorts them into.
- Real arithmetic is exact; a metric that is not finite is a separate value.

## What the code does where its documentation says less

- Renewing with the token given in the worker's place passes the ownership check and is
  logged, but updates no row (`engine/scheduler.py:524-526`, `engine/scheduler.py:541-544`);
  `Safety.ConciseRenewalBuysNothing` states what follows.
- A dispatch may report no error and still leave an actionable gap without a contract of its
  name: another connection can store the same contract under another name between the alias
  guard and the discovery (`engine/graph_bridge.py:337-343`). `Dispatch.CoveredExactly` gives
  the exact condition and `Dispatch.OvertakenDispatchLeavesGap` the input.
- The progress projection can answer MISSING_STAGE_EDGE for an operator that merely had a
  retry applied between its queries; `Progress.ProjectionAcrossReads` gives the exact
  condition. On one view it never does (`Progress.ProjectionSound`).
- `renew_lease` checks the lease at one clock reading and extends it from a later one, so
  an owner that passes the check may be granted a lease counted from after its expiry; the
  open transaction keeps anyone from reclaiming the row in between.
- `reconcile` and the defensive checks of `apply_diagnosis` and `delivery_status` never fire
  on a state the scheduler itself produced; that is proved, not assumed.
- A plan may read a placed patch and placing a patch reads the plan, so a deployment plan is
  never reused once a placed patch is on record (`FactReuse.PlacedPatchForcesReplanning`).
  Without one, the declared cycle has no effect (`FactReuse.WithoutPatchPlainly`).
- A checkpoint without a recorded dtype makes the planner's own plan fail validation for a
  missing value (`Planner.PlanAndValidate`).

## Model

| member | source | states |
|---|---|---|
| `OperatorScheduler.TaskScheduler.ClaimReady` | engine/scheduler.py:440-495 | one step of the run: overdue leases go back to the queue, then exactly the first `limit` eligible pending rows in creation order are claimed; refused only for bad arguments |
| `OperatorScheduler.TaskScheduler.ClaimBody` | engine/scheduler.py:448-495 | inside the transaction, the row-by-row loop with its conditional update and late events produces the specified claim and draws one token per claimed row |
| `OperatorScheduler.TaskScheduler.ClaimRows` | engine/scheduler.py:464-492 | the loop takes the first `limit` rows whose dependencies hold in the table as it is being changed, and marks them one by one |
| `OperatorScheduler.ClaimTurn` | engine/scheduler.py:464-492 | one turn of the claim loop: the candidate is untouched and as eligible as before the earlier claims, and taking it extends the specified claim by one |
| `OperatorScheduler.TaskScheduler.RenewLease` | engine/scheduler.py:534-546 | the lease is checked at one clock reading and extended from a later one: the same as a renewal at the first reading for a correspondingly longer lease |
| `OperatorScheduler.TaskScheduler.Complete` | engine/scheduler.py:548-600 | one step of the run, judged at the last of its clock readings: success, rejection turned into failure under the same lease, or an exception that leaves nothing |
| `OperatorScheduler.TaskScheduler.CompleteBody` | engine/scheduler.py:549-600 | three lease checks, validation, registration and the nested `fail` amount to one specified completion |
| `OperatorScheduler.TaskScheduler.CompleteOwned` | engine/scheduler.py:553-600 | from the validation of the result on: success, rejection and failed registration leave the specified rows and answer, the latter two through the nested `fail` |
| `OperatorScheduler.TaskScheduler.Fail` | engine/scheduler.py:623-651 | one step of the run: the row fails and its diagnosis is created or reopened, or the caller is refused |
| `OperatorScheduler.TaskScheduler.JoinFail` | engine/scheduler.py:566-573 | `fail` called inside an open transaction joins it: nothing is published until the outer one ends |
| `OperatorScheduler.TaskScheduler.ApplyDiagnosis` | engine/scheduler.py:709-774 | one step of the run: RETRY requeues the failed source once, BLOCKED is recorded, everything else is refused without effect |
| `OperatorScheduler.TaskScheduler.Reconcile` | engine/scheduler.py:783-826 | one step of the run; a missing contract found half-way undoes the repairs already made |
| `OperatorScheduler.TaskScheduler.ReconcileBody` | engine/scheduler.py:789-826 | the loop over rows read beforehand repairs exactly what a pass over the current table would, and raises exactly when that pass does |
| `OperatorScheduler.TaskScheduler.FindProducer` | engine/scheduler.py:803-814 | the producer of a succeeded row: its own submission, else the claim event of its attempt, else the last claim when the counts agree; raising when there is none to take |
| `OperatorScheduler.TaskScheduler.DiscoverOperator` | engine/scheduler.py:407-438 | one step of the run: contract and first stage are stored once, or the caller gets the gate or mismatch refusal |
| `OperatorScheduler.TaskScheduler.BindEnvironment` | engine/scheduler.py:255-363 | one step of the run: a ready proof binds its fingerprint unless rows exist under another one |
| `OperatorScheduler.TaskScheduler.RecordEnvironmentFailure` | engine/scheduler.py:365-387 | one step of the run: the status fails, the accepted fingerprint stays |
| `OperatorScheduler.TaskScheduler.RecordGraph` | engine/scheduler.py:389-405 | one step of the run: a channel is overwritten and logged only when its value changes |
| `OperatorScheduler.TaskScheduler.RequireGraphEnvironment` | engine/scheduler.py:389-405 | one step of the run: the environment requirement is set once and never cleared |
| `OperatorScheduler.TaskScheduler.CreateRun` | engine/scheduler.py:231-253 | one step of the run: an existing run is returned unchanged, a real one starts waiting for its environment |
| `OperatorScheduler.TaskScheduler.Recover` | engine/scheduler.py:776-781 | one step of the run: overdue, or all, running rows return to the queue |
| `OperatorScheduler.StaysReachable` | engine/scheduler.py:32-37 | whatever sequence of public methods is called, the state is one of the reachable states the theorems below speak about |
| `OperatorScheduler.RenewalStaysReachable` | engine/scheduler.py:534-546 | a renewal checked at one instant and stored from a later one still leads from a reachable state to a reachable state |
| `Columns.RecoverColumns` | engine/scheduler.py:776-781 | exactly the running rows whose lease ran out, or all of them if forced, go back to pending with the three lease columns empty; no other column of any row changes |
| `Columns.LiveLeaseIsExclusive` | engine/scheduler.py:440-781 | an unexpired lease is exclusive: its row changes only when its holder renews, completes or fails it or everything is forcibly recovered, and returns to the queue in the latter case alone |
| `Columns.RenewColumns` | engine/scheduler.py:534-546 | granted exactly to the holder for a positive lease; moves the expiry and nothing else, and only if the token was presented in its own place |
| `Columns.FailColumns` | engine/scheduler.py:623-707 | granted exactly to the holder; every column of the failed row and of its diagnosis row, created or reopened for this attempt, with the log |
| `Columns.CompletionColumns` | engine/scheduler.py:548-600 | an owned completion succeeds the row exactly when no objection stands and the artifacts are registered, otherwise it fails it; every column of the row, of its successor or diagnosis, and the log |
| `Columns.CompletedMeansPassed` | engine/scheduler.py:558-572 | whatever completes a row passed: every verdict is PASS, nothing says failed, the report says PASS and is somebody else's with every check passed |
| `Columns.UnpassedMeansFailed` | engine/scheduler.py:558-572 | an owned completion for which one of these is false leaves the row failed |
| `Columns.ApplyColumns` | engine/scheduler.py:709-774 | on any database: which conclusions of which diagnoses are applied, once each, and every column a RETRY writes into the failed source |
| `Columns.DiscoverColumns` | engine/scheduler.py:407-438 | on any database: which runs are open to which contracts, what is stored under a free key, and the blank first stage |
| `Columns.CreateRunColumns` | engine/scheduler.py:231-253 | a run is created once; a real one is stored waiting and requiring an environment, a simulation as given |
| `Columns.BindColumns` | engine/scheduler.py:255-363 | a proof is bound exactly when it is ready, no simulation stands in for a real run and no row would change its environment |
| `Columns.FailureColumns` | engine/scheduler.py:365-387 | a failed proof costs the run its status and no other column |
| `Columns.GraphColumns` | engine/scheduler.py:389-405 | the channel holds the last record, the other channels stay, and each change is logged once |
| `Columns.RequirementColumns` | engine/scheduler.py:389-405 | the environment requirement is set and logged once |
| `ClaimColumns.ClaimColumns` | engine/scheduler.py:448-495 | the row at each place of the creation order is claimed exactly when it may be and fewer than `limit` rows before it may; every column of claimed rows (token by rank, full lease, allocated directory) and of rows passed over |
| `ClaimColumns.ClaimLogs` | engine/scheduler.py:458-495 | one token and one log entry per claimed row, in the order of their ranks, and nothing else |
| `ClaimColumns.ClaimRefused` | engine/scheduler.py:443-447 | without worker, lease or limit nothing is claimed and no token drawn |
| `ClaimColumns.EvidenceFromOwnDirectory` | engine/scheduler.py:471-488 | whatever completes an attempt claimed with a directory, then or later, submitted evidence from that directory only |
| `DurableStore.EventStore.Enter` | engine/scheduler.py:60-67 | entering a transaction is the Enter statement of the transaction model |
| `DurableStore.EventStore.Leave` | engine/scheduler.py:68-77 | only the outermost exit publishes, or rolls everything back |
| `DurableStore.EventStore.Commit` | engine/scheduler.py:79-81 | `commit()` publishes nothing while a transaction is open |
| `DurableStore.EventStore.InsertTask` | engine/scheduler.py:171-179 | INSERT OR IGNORE: an existing row is never overwritten and the answer says which case it was; to the connection one write and one commit |
| `DurableStore.EventStore.SaveRun` | engine/scheduler.py:133-142 | INSERT OR IGNORE of a run and the row now stored: to the connection one write and one commit, so inside a transaction the file does not change |
| `DurableStore.EventStore.PutOperator` | engine/scheduler.py:159-165 | a contract is stored only under a free key; to the connection one write and one commit |
| `DurableStore.EventStore.UpdateTask` | engine/scheduler.py:534-546 | an UPDATE of one row is one write: the file does not change before the transaction ends |
| `DurableStore.InsideNothingIsPublished` | engine/scheduler.py:60-81 | inside a transaction a write, with or without its commit, leaves the committed file as it was |
| `Transactions.CrashAtomicity` | engine/scheduler.py:32-81 | stop any sequence of nested transitions after any statement: the file holds the net effect of the whole transitions before that point and nothing of the one in progress |
| `Transactions.RunInside` | engine/scheduler.py:60-81 | a body inside an open transaction does exactly its writes, nested calls and inner commits included, and publishes nothing |
| `Transactions.PublishedIsWhole` | engine/scheduler.py:566-573 | where exceptions propagate, what a transition publishes is a whole number of nested transitions at every level, none of them in part |
| `Transactions.WholeExactlyUnlessTorn` | engine/scheduler.py:60-77 | for every caller: what it publishes is whole if and only if it swallowed no exception of a nested transition that had written |
| `ResultValidation.ValidateResult` | engine/result_validation.py:31-148 | no error is reported exactly when the result meets the acceptance predicate |
| `Acceptance.AcceptedExactly` | engine/result_validation.py:31-148 | a result is accepted exactly when none of the objections of the source's error list stands, each read off the fields of the result, the files and the report |
| `ResultValidation.CheckEvidence` | engine/result_validation.py:77-105 | no evidence error exactly when every entry is a readable, non-empty file of this attempt with the submitted digest |
| `SingleUse.AcceptedWasReviewed` | engine/result_validation.py:107-147 | the review inside an accepted operator result is by someone else and binds the digest of every other piece of evidence |
| `SingleUse.ResultAcceptedOnce` | engine/scheduler.py:548-600 | a result that completed a row is never accepted again for any row, in any later state of any run |
| `Runs.ReachableSound` | engine/scheduler.py:231-826 | the invariant holds in every reachable state: leases, order, pipeline, diagnoses, environments, applications and accounts |
| `Runs.StepKeeps` | engine/scheduler.py:231-826 | every public operation, crash or refusal keeps the invariant |
| `Evolution.StepEvolves` | engine/scheduler.py:231-826 | the whole transition relation of a single row: each step changes it in one of ten ways, each with its own log entry |
| `Safety.PipelineShape` | engine/scheduler.py:407-438 | stage s+1 has a row exactly when stage s succeeded, and at most one row of an operator is unfinished |
| `Safety.RowsPersist` | engine/scheduler.py:171-179 | a row once created exists for ever |
| `Safety.SucceededForever` | engine/scheduler.py:584-600 | a succeeded operator row is never written again |
| `Safety.UsableOrReclaimable` | engine/scheduler.py:518-532 | a running row answers to its holder or may be reclaimed, never both and never neither; any other row answers to nobody |
| `Safety.Fencing` | engine/scheduler.py:518-546 | once a lease expired, was recovered, reclaimed or finished, every later renew, complete or fail with its token is refused |
| `Safety.LosingTheLeaseSpendsIt` | engine/scheduler.py:448-495 | whatever takes the token off a running row spends it |
| `Safety.ConciseRenewalBuysNothing` | engine/scheduler.py:524-546 | a renewal in the concise form is granted and logged, yet once the lease would have ended the same token renews, completes and fails nothing |
| `Safety.EnvironmentConstancy` | engine/scheduler.py:420-427 | every contract of a real run carries the fingerprint bound to the run now |
| `Safety.FingerprintForever` | engine/scheduler.py:344-387 | once a real run has a contract its fingerprint survives every later failed proof and rebinding |
| `Safety.ClaimedOnlyWhenReady` | engine/scheduler.py:497-516 | an operator row of a real run is claimed only while the run is ready and bound to its contract's fingerprint |
| `Recoverability.ContractOf` | engine/scheduler.py:497-516 | in a ready real run every row's contract exists and its dependencies hold |
| `Safety.AttemptAccounting` | engine/scheduler.py:466-495 | claim events carry exactly the attempts 1..n, and claims equal successes plus failures plus lost leases plus one if running |
| `Safety.FailureConservation` | engine/scheduler.py:623-774 | failures less applied retries of a row is one while it is failed and zero otherwise |
| `Safety.ProducerKnown` | engine/scheduler.py:573-583 | the submission of a succeeded row names the worker of the claim at its attempt, and the event fallback would name the same |
| `Safety.DiagnosisInStep` | engine/scheduler.py:653-707 | a failed row has its diagnosis for its current attempt; while a row runs, its diagnosis explains an earlier attempt and is succeeded |
| `Invariants.RetryStillOpen` | engine/scheduler.py:739-752 | the current RETRY of a failed row has never been applied before |
| `Invariants.ApplyOutcome` | engine/scheduler.py:709-774 | on an invariant database an accepted application either requeues the failed source or records BLOCKED |
| `Invariants.ReconcileIsNoOp` | engine/scheduler.py:783-826 | on every reachable database reconcile creates nothing and blocks nothing |
| `Claiming.ClaimAllRows` | engine/scheduler.py:466-489 | the i-th claimed row gets the next attempt and the i-th fresh token |
| `Claiming.ClaimAllFrame` | engine/scheduler.py:466-495 | rows outside the claim and every other table stay; one event per claim is appended |
| `Claiming.ClaimKeepsEligibility` | engine/scheduler.py:464-516 | claiming one row never changes whether another is eligible |
| `Recoverability.ExactRecoverability` | engine/scheduler.py:440-781 | in a ready real run an operator can be driven to three succeeded stages by some finite schedule if and only if it is not wedged |
| `Recoverability.WedgedForever` | engine/scheduler.py:653-774 | a failed row whose diagnosis failed, or concluded anything but RETRY, stays so through every step |
| `Recoverability.Driven` | engine/scheduler.py:440-781 | the schedule: claims, completions and applied retries that finish the operator |
| `Reconciliation.Repairs` | engine/scheduler.py:783-826 | on an arbitrary database, afterwards every failed row has its diagnosis and every succeeded one its successor unless it is listed as blocked; no row was written over |
| `Reconciliation.SecondReconcileCreatesNothing` | engine/scheduler.py:783-826 | a second pass over unchanged evidence creates nothing and reports the same rows blocked |
| `ReconcileColumns.ReconcileExactly` | engine/scheduler.py:783-826 | on any database: exactly the rows that are due are created, blank, listed and logged in order; exactly the unproven rows are reported; no row is written over |
| `ReconcileColumns.PassesExactly` | engine/scheduler.py:783-826 | the pass goes through exactly when no row it would repair lacks every trace of a producer, or its contract |
| `ReconcileColumns.OriginExactly` | engine/scheduler.py:803-814 | the producer is the worker of the submission for the current attempt, else of the last claim of that attempt, else of the last claim when there are as many as attempts |
| `Progress.ProjectionSound` | engine/progress.py:216-302 | on every reachable state seen at once the projection never answers MISSING_STAGE_EDGE, and READY only when every operator is finished |
| `Progress.ProjectionAcrossReads` | engine/progress.py:216-302 | with the run row, the rows and the log read one after the other, MISSING_STAGE_EDGE is answered exactly when nothing answers first, some operator is unfinished and every open row failed with a RETRY applied between the reads; READY stays right |
| `Progress.QuietMeansFinished` | engine/progress.py:266-292 | the shown views are empty exactly when every discovered operator has all three stages succeeded |
| `Progress.QuietExactly` | engine/progress.py:266-267 | the shown views are empty exactly when every open row is a failed one whose retry the log read later already holds |
| `Progress.RetriedBetweenReads` | engine/progress.py:223-226 | such a retry was applied after the rows were read |
| `Progress.FailedRowIsCovered` | engine/progress.py:193-206 | a failed row hidden behind its diagnosis is covered by the diagnosis' own view, except exactly when the log read later already holds its retry |
| `Progress.MostUrgent` | engine/progress.py:266-275 | the explained view is one of the shown ones and none is more urgent |
| `ProgressColumns.ViewExactly` | engine/progress.py:118-206 | each view gives the one reason that holds, read off the columns of the row, its diagnosis or source and the log, and the state that goes with it |
| `ProgressColumns.ExplanationExactly` | engine/progress.py:232-302 | which answer a run gets, branch by branch; a row's view answers when some is shown, and it is the first of the most pressing |
| `Delivery.DeliveryStatus` | engine/graph_bridge.py:396-461 | the gate's state and snapshot; errors exactly when it is blocked; exactly when a ready, accepted proof no longer holds is the failure written back |
| `Delivery.ReviewRows` | engine/graph_bridge.py:412-433 | errors exactly when some row of the run is objectionable |
| `Delivery.ReviewStages` | engine/graph_bridge.py:426-436 | waiting exactly when some operator lacks a succeeded stage |
| `Delivery.ReadyMeansSettled` | engine/graph_bridge.py:412-436 | behind a READY gate every row of the run succeeded |
| `Delivery.GateExactly` | engine/graph_bridge.py:396-439 | the gate is open exactly when the accepted environment and discoveries stand and no row is objectionable, ready exactly when besides every stage of every operator succeeded |
| `Delivery.ReadyMeansEvidence` | engine/graph_bridge.py:418-437 | behind a READY gate every row's evidence is what was submitted, for its attempt, fingerprint and mode; one missing or altered file of a succeeded row closes the gate |
| `Delivery.SnapshotsAgree` | engine/graph_bridge.py:439-466 | two snapshots are equal exactly when gate, mode, fingerprint and rows are and each row has the same status, attempt, digests and submission |
| `Delivery.SettledRunStep` | engine/graph_bridge.py:396-436 | from a settled run the only step that alters its rows is the discovery of a new operator, and it adds that operator's first stage alone |
| `Delivery.NoAba` | engine/graph_bridge.py:451-476 | between a READY snapshot and any later one with the same task ids no row changed at any moment, even when the run rows were read separately |
| `Delivery.Finalize` | engine/graph_bridge.py:543-662 | a receipt is published exactly when both gates are READY, the facts are accepted and both regressions carry the current snapshot, the accuracy one citing the current service proof; the evidence of every row then stood at both gates |
| `Delivery.ReceiptRestsOnSettledOperators` | runners/graph_runner.py:1077-1091 | every receipt rests on regressions that began after the last operator change, under the delivered fingerprint, even when the prepared snapshot read run and rows separately |
| `Delivery.ProducerNeverMissing` | engine/graph_bridge.py:421-425 | on a reachable database no succeeded row is reported without its producer |
| `Dispatch.DispatchReport` | engine/graph_bridge.py:296-374 | when it reports errors, when it is blocked and what it stores, for every interference of other connections between its steps |
| `Dispatch.DispatchEntry` | engine/graph_bridge.py:321-351 | checks, alias guard and, on whatever the table has become by then, discovery; accepted exactly when the three pass in that order |
| `Dispatch.DispatchEntries` | engine/graph_bridge.py:320-351 | the table after all entries, the contracts of the accepted ones, and no error exactly when each was acceptable in its turn |
| `Dispatch.CheckGaps` | engine/graph_bridge.py:352-358 | no gap error exactly when every gap is an object and each actionable one was resolved |
| `Dispatch.AliasedExactly` | engine/graph_bridge.py:337-342 | after its guard an entry meets an alias exactly when some move in between stored its key under another name |
| `Dispatch.OvertakenByDiscovery` | engine/graph_bridge.py:337-343 | only the discovery of another operator with the very same contract can do that |
| `Dispatch.CoveredExactly` | engine/graph_bridge.py:337-348 | an accepted entry ends up with a contract of its own name exactly when it was not overtaken between guard and discovery, and that is settled through any further run |
| `Dispatch.GapCoverage` | engine/graph_bridge.py:352-358 | every actionable gap of a report without gap errors is answered by an accepted entry, whose contract covers it exactly when that entry was not overtaken |
| `Dispatch.DispatchCovers` | engine/graph_bridge.py:296-366 | when no entry was overtaken, every such gap is covered by a stored contract of that very name, then and for ever after |
| `Dispatch.OvertakenDispatchLeavesGap` | engine/graph_bridge.py:337-348 | the input on which coverage fails: two names for one contract, the other discovered between guard and discovery; no error is reported and the gap stays open |
| `Dispatch.OvertakingIsReachable` | engine/graph_bridge.py:337-348 | such an input arises in every freshly bound run, for any contract and any two names |
| `Dispatch.ReportedRowsValidate` | validators/operator_lifecycle_validator.py:37-43 | the rows a dispatch reports are rows of the run and first stages whatever happens before the report is validated |
| `Contracts.OnlyDiscoveryWrites` | engine/scheduler.py:407-438 | no other operation stores or changes an operator contract |
| `Contracts.KeepsForever` | engine/scheduler.py:159-165 | contracts and rows are never renamed, changed under their key or removed by any run |
| `Journal.LatestIsGreatest` | engine/state/journal.py:84-119 | the answered fact sits at the greatest matching position, which is its index; nothing is answered only when nothing matches |
| `Journal.LatestByFields` | engine/state/journal.py:84-119 | a lookup answers the last fact of its kind, subject, environment, fingerprint and states, and in an empty environment none |
| `Journal.RecordAnswers` | engine/state/journal.py:52-119 | recording a fact changes exactly the lookups it matches, none from another environment, subject or kind |
| `Journal.FactIndex` | runners/graph_runner.py:772-778 | the last position of exactly this fact, or -1 when it is nowhere |
| `FactReuse.TransitiveFreshness` | runners/graph_runner.py:796-843 | for every dependency table, a True answer with ordering makes every transitive input Skill-current and strictly earlier than its consumer, with nothing required missing |
| `FactReuse.ChainsEnd` | runners/graph_runner.py:825-830 | no chain of consumed facts is longer than the log before the reused fact |
| `FactReuse.NoReturn` | runners/graph_runner.py:808-813 | a dependency cycle of present facts is answered False, with or without ordering |
| `FactReuse.AcyclicEquivalence` | runners/graph_runner.py:796-843 | where the facts on record are acyclic, for any table, the guarded recursion equals the plain recursive definition |
| `FactReuse.PlacedPatchForcesReplanning` | runners/graph_runner.py:49-295 | the workflow's own table declares a cycle: with a placed patch on record no deployment plan is ever reused |
| `FactReuse.WithoutPatchPlainly` | runners/graph_runner.py:49-295 | with no placed patch on record every node of the workflow's own table is decided by the plain definition |
| `FactReuse.InputByFields` | runners/graph_runner.py:680-880 | an input is the last fact in scope, taken if it holds up and its Skill is the selected one, and never replaced by an earlier one |
| `FactReuse.ReadBackwards` | runners/graph_runner.py:49-295 | the node table read the other way round: which nodes cannot do without each kind, and which merely use it |
| `Recovery.RecoveryController.Recover` | engine/recovery.py:77-129 | the history is a finished one for the given answers, RECOVERED exactly when its last rerun passed |
| `Recovery.RecoveryController.TakeTurn` | engine/recovery.py:82-128 | one turn appends exactly the entry the decision, the registry and the rerun call for |
| `Recovery.FinishedIsUnique` | engine/recovery.py:77-129 | the same answers leave only one finished history |
| `Recovery.RecoveredMeansLastRerunPassed` | engine/recovery.py:118-125 | a passing entry is the last one, and it is the verdict of a rerun |
| `Recovery.EndsAtOnce` | engine/recovery.py:86-125 | a stop by the brain, an unknown action or a pass comes last; everything before is an action or a failing rerun |
| `Recovery.GivingUp` | engine/recovery.py:93-129 | without recovery the budget is used up, or the brain stopped, or it named an action nobody registered |
| `GraphWalk.Run` | runners/graph_runner.py:1465-1916 | the walk ends for every graph and all answers; each visit is justified, the next node is the one `on_success` names after a pass, reuse, plan or recovery and `on_failure` names after a failure, no node is visited more than three times, and each ending says why |
| `GraphWalk.AfterVisit` | runners/graph_runner.py:1901-1916 | after a visit the walk ends in the way stated or goes on, by `on_success` if the node was left well and by `on_failure` if it failed |
| `GraphWalk.OneWayOn` | runners/graph_runner.py:1867-1916 | a visit ends the walk in one way, or lets it go on at one node, never both |
| `GraphWalk.VisitNode` | runners/graph_runner.py:1494-1640 | a visit leaves by the success edge only on a pass, a reused fact or a recovery, by the failure edge only on an unrecovered failure |
| `GraphWalk.Leave` | runners/graph_runner.py:1700-1900 | after the node ran: which outcomes stop the walk, and which edge the others take |
| `GraphWalk.OneWayOut` | runners/graph_runner.py:1494-1900 | the answers of a visit leave exactly one way out of the node |
| `GraphWalk.WalkBounded` | runners/graph_runner.py:1465-1493 | no node is started more than 3 * (1 + budget) times, and there are at most three visits per node |
| `GraphWalk.ExecutionsPerVisit` | runners/graph_runner.py:1811-1830 | a visit starts its node at most 1 + budget times, once without recovery, never in plan mode |
| `Planner.PlanAndValidate` | validators/plan_validator.py:55-90 | exactly what the validator holds against a plan of the planner's, when some size suits and when none does |
| `Planner.RemainderLeft` | operations/deployment/plan_deployment.py:104-110 | when some size suits, the chosen one divides the heads and leaves at least 0.35 of the memory after weights |
| `Planner.HeadroomBound` | operations/deployment/plan_deployment.py:108-109 | a size reaches the minimum exactly when each card holds at most 0.55 of its memory in weights |
| `Planner.TensorParallel` | operations/deployment/plan_deployment.py:105-110 | the smallest suitable size, or eight when none suits |
| `Planner.SizeByNumbers` | operations/deployment/plan_deployment.py:104-110 | the smallest of 1, 2, 4, 8 that puts at most 0.55 of a card's memory in weights and divides the heads, or 8 |
| `Planner.CapModelLen` | operations/deployment/plan_deployment.py:68-96 | the limit halved the least number of times that fits half the remainder or reaches 1024 |
| `Planner.CapByNumbers` | operations/deployment/plan_deployment.py:37-96 | in numbers: the limit stays if a full sequence takes at most half of what is left or the limit is at most 1024; otherwise the result is half of a length that took more, and fits unless short already |
| `Planner.CapBounds` | operations/deployment/plan_deployment.py:77-96 | never above the limit, never below 512 once capped, at most 1024 when nothing is left after weights |
| `Planner.MoreMemoryLongerContext` | operations/deployment/plan_deployment.py:68-96 | more memory never shortens the context, and the same memory leaves one context |
| `Planner.MakePlan` | operations/deployment/plan_deployment.py:99-159 | the decided parameters and where each comes from |
| `PlanValidator.Validate` | validators/plan_validator.py:30-91 | the validator reports exactly the objections there are, each read off the plan and the facts |
| `Inventory.PrunedIsFiltered` | core/storage.py:265-302 | the pruned walk lists what walking everything and filtering by path would, in the same order |
| `Inventory.Register` | core/storage.py:249-311 | success exactly when nothing looked at is irregular and everything asked for was found; then the pruned inventory |
| `Inventory.WalkTree` | core/storage.py:265-302 | the stack-driven walk with its directory list pruned in place equals the pruned inventory |
| `Inventory.PruneDirs` | core/storage.py:270-281 | directories kept, symlinks refused before `scratch` is dropped |
| `Inventory.ListedExactly` | core/storage.py:265-302 | by paths alone: what makes the walk refuse, and exactly which files of the plain walk it lists |
| `Inventory.RegisteredExactly` | core/storage.py:303-306 | on success with an include set exactly that set is listed and it covers what was required |
| `Inventory.EachFileOnce` | core/storage.py:265-302 | the plain walk of a tree with distinct names meets no path twice |
| `Inventory.ListedOnce` | core/storage.py:265-302 | no file is registered twice, whatever the walk prunes |
| `Inventory.AttemptDirectory.Allocate` | core/storage.py:154-176 | the least attempt number not taken; numbers 1..n are followed by n+1 |
| `Performance.CompareMetrics` | core/performance.py:33-105 | one result per distinct key in first-seen order, candidate keys first, each with the verdict it deserves; one UNKNOWN when there is none |
| `Performance.OrderIsPartition` | core/performance.py:51 | the keys reported are the distinct keys of both lists, each once |
| `Performance.Judge` | core/performance.py:52-104 | the branches in the order they are taken amount to the deserved verdict |
| `Performance.VerdictByNumbers` | core/performance.py:52-104 | each key's verdict in numbers: PASS exactly when the candidate got worse by at most the allowed share of the baseline's magnitude, in the direction stated or implied by the name |
| `Performance.IndexMetrics` | core/performance.py:22-30 | keys in first-seen order, the last metric of each, and which occur twice |
| `Performance.FirstSeenTwice` | core/performance.py:51 | deduplicating the two key lists first changes nothing |
| `Performance.Assess` | runners/performance_runner.py:83-92 | overall PASS exactly when there is a key and every key occurs once on each side, comparable and within the bound; FAIL and INCOMPARABLE exactly when some key deserves them |
| `Performance.ImprovementKeepsPass` | core/performance.py:93-104 | improving one candidate value keeps its PASS and touches no other verdict |
| `Performance.ImprovementKeepsStatus` | runners/performance_runner.py:83-92 | and so never turns an overall PASS into anything else |

## Left out

- Transitions.DepsSucceeded: a pending row whose run or contract is missing counts as not ready, where the source would raise; no reachable state has one.
- Transitions.ApplyDiagnosis: the note about the recovery that a RETRY adds to the source's input is not modelled; nothing reads it.
- Transitions.Reconcile: the two exceptions it does not expect are one error.
- Transitions.Complete: the text of outputs, bug reports and artifact manifests is not modelled, only what later steps read of them.
- Delivery.Finalize: inventory, baseline, shim registry and identity checks of the final facts are one flag; the gates, the snapshots and the service proof are modelled.
- Delivery.DeliveryStatus: the owner check inside the written-back environment failure is taken to pass.
- OperatorScheduler.TaskScheduler.BindEnvironment: the handoff, owner, validator and file checks of a deployment proof are one flag.
- OperatorScheduler.TaskScheduler.RecordEnvironmentFailure: the failed proof it keeps for display is not modelled, only the status and the surviving accepted proof.
- Dispatch.DispatchReport: reading and hashing the reports, identity comparison and the construction of a contract from an entry are inputs; the validator's comparison of subject, mode and artifact root with the run, which a dispatch copies from it, and the writes of the dispatch status file are not modelled.
- Progress.ProjectionSound: event times are compared through three flags of the last graph observation instead of timestamps.
- GraphWalk.Run: what a visit finds (Skill registry, commands, bridge, environment binding) is an arbitrary answer for each visit; the contents of task memory and emitted summaries are not modelled.
- GraphWalk.Leave: a command interrupted before its node finished counts as one start.
- Inventory.Register: path policy for absolute or escaping names, file sizes, digests and the manifest's own write are not modelled.
- Performance.CompareMetrics: message texts, and the splitting of a metric name into words.
- Public operations called inside a caller's own transaction: all but `fail` are proved as outermost calls.
- The one-time binding of a run's artifact root inside `claim_ready`, which only databases older than `create_run` can need.
- The deployment proof, patch, triage and correctness runners, adapters and runtimes: plumbing around Kubernetes, subprocesses and HTTP.
- Command lines, YAML and JSON reading, rendering, watching and console streaming.
- SQLite, SHA-256 and the file system themselves; the Skill registry, target lookup and task memory, which would only add easy members.
- The field-by-field checks of the other validators, and the decider that answers recovery requests.
