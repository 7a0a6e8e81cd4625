# Verified model of the SheepContabil automations

SheepContabil is a back office whose hard logic is a set of protocols over database rows. This project models the
protocols in Dafny and proves what they promise. Atomic transactions are single steps; calls to portals, mail, the
broker and storage may succeed, be refused, or fail after having had their effect.

- **SC-05 saga** (`Sc05*.dfy`). Blocking or unblocking a client in three portals, with recorded before and desired
  states, backward compensation, quarantine and resumption. The portals are the repository's own simulator. The
  specification is functional (`Sc05Saga`, `Sc05Operations`); `Sc05Portals`, `Sc05Worker` and `Sc05Rows` are the
  programs that update rows in place, proved equal to it. `Sc05Meaning` and `Sc05Outcomes` say what its parts decide
  in terms of rows and portals, `Sc05Residue` what a failed compensation leaves on record, `Sc05Scenarios` how each
  demonstration scenario ends.
- **Delivery protocol** (`Run*.dfy`, `Delivery*.dfy`). Tokens, dispatch, worker start, redelivery, reconciliation,
  quarantine and resumption. `DeliveryRuns` holds the transactions on one run, `DeliveryRows` the same as assignments
  to columns with what each decides stated in the columns it found, `DeliveryHistories` and `DeliveryBounds` what one
  run keeps over any history, `DeliveryWorld` the interleaving of web, broker, workers and reconciler over all runs,
  and `DeliverySteps`, `DeliveryFencing`, `DeliverySagas` and `DeliveryStranding` what holds in all its reachable
  states. `DeliveryDecisions` gives for each transaction exactly when it takes effect, with the whole row and the
  event that follow, `DeliveryLives` the same for each step of the system, and whole undisturbed lives.
- **Event log** (`RunLog.dfy`, `EventDetails.dfy`, `EventMeaning.dfy`). Sequence numbers, deduplication keys, replay
  of the status, and the minimizing of event details, with what exactly is accepted and what it becomes.
- **SC-06 forms** (`Sc06*.dfy`, `Texts.dfy`). Validator, one-pass evaluator, declarative fixed point, the browser's
  second implementation, sanitizing, report and briefing. `Sc06Meaning` says what is stored and what is refused,
  question kind by question kind, without the evaluator.
- **SC-20 notices** (`Sc20*.dfy`). The ledger of communications with crash points, and the scan, alone and with others
  at work on the ledger; `Sc20Meaning` says what is selected and when a retry is prepared.
- **SC-04 ingestion** (`Sc04*.dfy`). Content-addressed ingestion by concurrent workers, and the recount, each count
  tied to the documents and items behind it.

## Where the code differs from what one would expect

- A resumed SC-05 execution does not compensate positions after its failed step
  (`src/core/automations/sc05/services.py:1037`), and one that cannot open its session judges residual state by step
  statuses only (lines 340-347 of the same file). Both can end with the client active and a portal still blocked; both
  lives are exhibited in `Sc05Resumption`, and one of an unblock in `Sc05SafeResumption`. The latter says before the
  resumption which operations are safe (`ResumptionRestoresIff`): those whose portals all show their recorded states;
  and, when some step row tells of a possible change, those whose second and third portals do or whose first portal
  cannot be given back, because no execution then reports success. For blocks this is stated in terms of the portals
  alone (`BlockResumptionIsCleanIff`).
- The request that creates a run dispatches it once (`src/core/automations/views.py:920-921`). If it is so late that
  the reconciler has recovered the run, a worker has left it partially failed and a person has resumed it, it
  dispatches the resumed run; when that fails it reports the run as failed
  (`src/core/automations/dispatching.py:25-60`, `src/core/automations/views.py:1161-1180`). The client is then partial
  with no operation to resume. `DeliveryStranding` shows that this is the only such step and gives a whole life in
  which it happens.
- An answer of white space is not empty but is stored as the empty text (`src/core/automations/sc06/rules.py:236`,
  `542`), and the validator admits comparisons with the empty text. Sanitizing is idempotent exactly when no stored
  text is empty. Browser and server agree exactly when the server's decisions do not depend on answered empty texts
  (`Sc06Agreement.BrowserAgreesIff`), and so always when no condition compares with the empty text.
- A SC-04 document can be left without ever being new in any run (`src/core/automations/sc04/services.py:375-470`), in
  exactly two ways (`Sc04Ingestion.OrphanedExactlyBy`): its worker stops between creating it and writing its item, or
  two workers race on one attachment and the one that only found the document writes first.

## Modelling choices

- Identifiers drawn at random (task identifiers) are modelled as never repeating.
- Whether a stale run is old enough is left to the caller: the reconciler may act at any time on any run that its
  status and publication make a candidate. The theorems therefore hold for every setting of the time limits.
- The configured number of recoveries is at least one, as the settings check demands
  (`src/core/automations/checks.py:79`).
- Text functions of the host language, date and e-mail syntax, the test for declared partners and the patterns for
  sensitive data are parameters.
- A run may be dispatched by any number of requests at any time, where the program dispatches once on creation and
  once on each resumption; the theorems over all executions therefore cover more than the program does, and where
  something is shown to happen, the execution given respects the program's order.
- A row of `DeliveryRows` has a ghost bound on the tokens that were given out; a new token is not below it.
- Deduplication keys are structured values; the strings they stand for are injective in them.

## Model

| member | source | states |
|---|---|---|
| `Sc05Portals.ServeFrame` | src/core/sc05_simulator/views.py:201-301 | A call on one portal leaves what the other two show, and the task rows, exactly as they were, whatever the scripted fault. |
| `Sc05Portals.ServeTruthful` | src/core/automations/sc05/playwright.py:339-483 | A state that a gateway call confirms is the state the portal then shows; an inspection changes nothing. |
| `Sc05Portals.Simulator.TasksAction` | src/core/sc05_simulator/views.py:156-198 | Accepts a task action or refuses an inconsistent mix of rows without changing any; accepted, a block takes over the open rows and an unblock gives the marked ones back. |
| `Sc05Portals.Simulator.ServiceAccountAction` | src/core/sc05_simulator/views.py:201-250 | Sets the flag of exactly the account addressed. |
| `Sc05Portals.Simulator.Perform` | src/core/automations/sc05/playwright.py:354-374 | Submits an action with its scripted fault and confirms only the state it re-reads. |
| `Sc05Portals.Simulator.Call` | src/core/automations/sc05/playwright.py:375-483 | The three entry points of a gateway: inspect, apply, and restore, which refuses when the portal does not show the expected state. |
| `Sc05Portals.BlockOpenTasks` | src/core/sc05_simulator/views.py:251-261 | In place: every open task gets the blocked marker and remembers its assignee, the others stay; counts the rows changed. |
| `Sc05Portals.UnblockTasks` | src/core/sc05_simulator/views.py:263-273 | In place: every marked task, open or closed, gets its remembered assignee back, the others stay; counts the rows changed. |
| `Sc05Worker.Worker.Invoke` | src/core/automations/sc05/services.py:805-860 | One gateway call: a refusal, a break after the change, a failed screenshot or a death of the worker give the signal and the portal state that the specification says. |
| `Sc05Worker.Worker.Checkpoint` | src/core/automations/sc05/services.py:303-305 | Between two steps the worker may die and others may edit the portals. |
| `Sc05Worker.Worker.SetStatus` | src/core/automations/sc05/services.py:639-665 | Changes the status of one step row only. |
| `Sc05Worker.Worker.ApplyStep` | src/core/automations/sc05/services.py:551-635 | Inspects, records the before and desired states once and together, applies and confirms; as the specification of one step. |
| `Sc05Worker.Worker.ApplyObserved` | src/core/automations/sc05/services.py:577-608 | What follows the inspection: unchanged, conflict, marker without snapshot, or apply. |
| `Sc05Worker.Worker.ApplyRecorded` | src/core/automations/sc05/services.py:608-635 | Applies on a recorded pair of states and marks the step applied or failed. |
| `Sc05Worker.Worker.ForwardOne` | src/core/automations/sc05/services.py:303-321 | One turn of the loop over the steps: continue, fail at this step, or lose the worker. |
| `Sc05Worker.Worker.RunForward` | src/core/automations/sc05/services.py:303-321 | The loop over all steps in their order, up to the first failure. |
| `Sc05Worker.Worker.CompensateStep` | src/core/automations/sc05/services.py:1040-1128 | Restores one recorded portal after inspecting it, or finds it already restored, or reports that it could not. |
| `Sc05Worker.Worker.Compensate` | src/core/automations/sc05/services.py:1027-1130 | The loop backwards from the failed step; later positions are not looked at. |
| `Sc05Worker.Worker.Execute` | src/core/automations/sc05/services.py:279-367 | A whole execution: session failure, success, failure with or without residual state, or a lost worker, with the portals, step rows and call log of the specification; recorded states are kept and every changing call follows the inspection that allows it. |
| `Sc05Worker.Worker.AfterFailure` | src/core/automations/sc05/services.py:322-336 | Compensation after a failed step and the verdict it gives. |
| `Sc05Worker.BuildRestoreAssignees` | src/core/automations/sc05/services.py:736-765 | The dictionary of assignees to restore, built by a loop; fails exactly on a blank or repeated reference of an open task of the snapshot. |
| `Sc05Worker.IndexTasks` | src/core/automations/sc05/services.py:766-778 | The dictionary from reference to position, or the error for a repeated reference. |
| `Sc05Worker.GiveBack` | src/core/automations/sc05/services.py:779-796 | Edits a copied task list in place: each open task of the snapshot gets its assignee back, open or closed since, and all else stays; fails exactly when one is missing or was reassigned. |
| `Sc05Worker.ComputeTaskUnblockState` | src/core/automations/sc05/services.py:736-796 | The loops with dictionaries compute the state that the specification of an unblock desires. |
| `Sc05Snapshots.ExecutionKeepsSnapshots` | src/core/automations/sc05/services.py:557-608 | In one execution, whatever fails and whoever edits the portals: before and desired states are written once and together, each apply follows an inspection of that portal that returned the recorded before-state, each restore one that returned the desired state. |
| `Sc05Operations.AdvanceKeepsSnapshots` | src/core/automations/sc05/services.py:557-608 | The same for every event of an operation: execution, quarantine, resumption, outside edit. |
| `Sc05Operations.LifeKeepsSnapshots` | src/core/automations/sc05/services.py:1043-1093 | The same over any number of resumptions: recorded states never change again, and no portal is changed on a stale view of it. |
| `Sc05Rows.OperationRow.constructor` | src/core/automations/sc05/services.py:135-163 | A new operation is queued with one pending step per portal in the order of its action. |
| `Sc05Rows.OperationRow.FindStep` | src/core/automations/sc05/services.py:1149-1150 | The step row of a portal, by a scan. |
| `Sc05Rows.OperationRow.FinishSucceeded` | src/core/automations/sc05/services.py:1133-1160 | A finished block marks the client blocked and keeps the task state recorded before it; a finished unblock marks it active and forgets it. |
| `Sc05Rows.OperationRow.FinishFailed` | src/core/automations/sc05/services.py:1191-1233 | A failure marks the client unknown, partial, or as before the operation, and the run accordingly. |
| `Sc05Rows.OperationRow.Execute` | src/core/automations/sc05/services.py:279-367 | One delivery on the stored rows: steps, client, run and portals end as the specification of an execution says; recorded states are kept, and a first execution that ends failed with the client as before leaves every portal as it was. |
| `Sc05Rows.OperationRow.CloseInterruptedSteps` | src/core/automations/sc05/services.py:523-548 | The loop that closes running steps changes those and no others. |
| `Sc05Rows.OperationRow.Quarantine` | src/core/automations/sc05/services.py:436-470 | A lost worker leaves the run partially failed, the client partial and no step running. |
| `Sc05Rows.OperationRow.Resume` | src/core/automations/sc05/services.py:200-236 | A resumption queues the run again and counts itself; the recorded states stay. |
| `Sc05Rows.LatestBlockState` | src/core/automations/sc05/services.py:714-733 | Scans backwards for the account state recorded before the latest block that succeeded. |
| `Sc05Compensation.ExecuteEffect` | src/core/automations/sc05/services.py:279-367 | Without outside edits: a failure without residual state leaves every portal up to the failed position in its recorded before-state and never touched the later ones. |
| `Sc05Compensation.LifeChangesRecorded` | src/core/automations/sc05/services.py:608-630 | A portal on which a changing call was ever made has a recorded before-state, through the whole life of an operation. |
| `Sc05Compensation.ReportedRestorationIsReal` | src/core/automations/sc05/services.py:1027-1130 | For any execution, resumed or not, whose compensation reports success: every portal up to the failed position shows its recorded before-state or was never changed by this operation. |
| `Sc05Compensation.FirstExecutionIsAllOrNothing` | src/core/automations/sc05/services.py:1191-1233 | For every pattern of portal and screenshot failures without outside edits, a first execution that gives the client its prior status back leaves all three portals exactly as at the start. |
| `Sc05Compensation.ResumedRestorationIsComplete` | src/core/automations/sc05/services.py:1037-1041 | What compensation leaves out: a restoration that an execution reports is complete iff the positions after the failed one showed their recorded states before it. (In terms of the failed position; `ResumptionRestoresIff` says it before the execution.) |
| `Sc05SafeResumption.ResumptionRestoresIff` | src/core/automations/sc05/services.py:1027-1130 | Which operations, blocks and unblocks, can be resumed safely, decided before the resumption: over every pattern of failures a reported restoration is complete iff every portal shows its recorded state; or some step row tells of a possible change and either the second and third portals show theirs or the first one cannot be given back. |
| `Sc05SafeResumption.SafeResumptionRestores` | src/core/automations/sc05/services.py:1027-1130 | One direction, for any execution, resumed or not, of a block or an unblock. |
| `Sc05SafeResumption.UnsafeResumptionLies` | src/core/automations/sc05/services.py:340-347 | The other direction: without the condition, an execution without a session, or one refused at its first call, reports a restoration that is none. |
| `Sc05SafeResumption.StuckFailsResidually` | src/core/automations/sc05/services.py:1099-1130 | When the first portal cannot be given back, every failure of an execution with a session leaves residual state on record, whatever else happens. |
| `Sc05SafeResumption.BlockResumptionIsCleanIff` | src/core/automations/sc05/services.py:1191-1233 | For every block left partially failed, however it got there: each resumption that ends failed with an active client leaves all portals as before the block iff the accounting and task portals already show that before it, and the files portal too unless some step row tells of a possible change. |
| `Sc05SafeResumption.UnblockLosesTrack` | src/core/automations/sc05/services.py:340-347 | A reachable life of an unblock whose first portal cannot be given back: the worker dies after the tasks command, the resumption has no session, and the run ends failed with the client blocked although its task was given back. |
| `Sc05BlockRuns.FirstBlockIsNeverPartial` | src/core/automations/sc05/services.py:577-635 | A first block whose calls are refused only while applying and before any change ends blocked everywhere, or failed with everything as before; never partial. |
| `Sc05BlockRuns.LiveBlock` | src/core/automations/sc05/services.py:551-635 | What every execution, quarantine and resumption of a block keeps: each recorded pair is a state and its blocked form, and each portal shows one of the two. |
| `Sc05BlockRuns.ResumedBlockCompletes` | src/core/automations/sc05/services.py:1055-1097 | From any partially failed block, however reached, one resumption whose calls all work ends with every portal blocked and the original task state kept. |
| `Sc05Unblock.UnblockDesires` | src/core/automations/sc05/services.py:736-796 | The state the saga computes for an unblock is the state that the simulator's rows produce, after any closing of tasks and adding of unmarked ones. |
| `Sc05Unblock.UnblockProduces` | src/core/sc05_simulator/views.py:263-273 | Unblocking the edited rows restores exactly the assignees of the snapshot and leaves closed and new tasks alone. |
| `Sc05Unblock.UnblockUndoesBlock` | src/core/automations/sc05/services.py:668-796 | After a block that succeeded in any number of attempts, and any closing and adding of tasks, an unblock whose calls work restores both accounts and every open assignee, keeps closures and new tasks, and gives back the very state before the block when nothing was edited. |
| `Sc05Resumption.SessionFailureLosesTrack` | src/core/automations/sc05/services.py:340-347 | A reachable life: the resumed execution cannot open its session, and the run ends failed with the client active although a portal is still blocked. |
| `Sc05Resumption.LaterPositionsAreNotCompensated` | src/core/automations/sc05/services.py:1037-1041 | A reachable life: a resumed execution compensates only up to its failed step and reports full restoration with a later portal still blocked. |
| `RunLog.RecordKeepsLog` | src/core/automations/traceability.py:158-224 | Recording keeps every earlier event, numbers events exactly 1..n, never repeats a key; it adds an event iff the key is new, and conflicts iff the key holds other content, with the log unchanged. |
| `RunLog.RecordAgain` | src/core/automations/traceability.py:181-189 | Repeating a recorded call at any later time, from any request, returns the first event and adds nothing. |
| `RunLog.ChainedSnoc` | src/core/automations/traceability.py:158-183 | Appending an event with the right previous status keeps the chain of statuses and gives the status then replayed. |
| `RunLog.Log.First` | src/core/automations/traceability.py:181-185 | The scan for a key finds its only event. |
| `RunLog.Log.MaxSequence` | src/core/automations/traceability.py:190-190 | The loop computes the highest sequence number. |
| `RunLog.Log.RecordRunEvent` | src/core/automations/traceability.py:73-224 | The service on the stored log: the new event, the existing one, or the conflict, as specified, always keeping sequences and keys. |
| `DeliveryHistories.LogReplaysStatus` | src/core/automations/sc05/services.py:507-519 | For every SC-05 and SC-20 run and every sequence of dispatches, deliveries, worker transactions, reconciliations, resumptions and reschedulings: the stored status is the last one in the log, each stated previous status is the one logged before, sequences are 1..n, keys unique. |
| `DeliveryHistories.ApplySound` | src/core/automations/run_tracking.py:25-40 | Every one of these steps keeps the log a correct account of the row, and an active run's token present and unspent. |
| `DeliveryHistories.NoTokenNoMatch` | src/core/automations/run_tracking.py:25-31 | Although a run without a token matches any delivery, an active run has one, so a delivery matches it iff it carries that token. |
| `DeliveryHistories.StartSound` | src/core/automations/sc05/services.py:370-519 | A delivery executes iff the run is queued with its token, and quarantines iff it is a redelivery of the running token. |
| `DeliveryHistories.FinishSound` | src/core/automations/sc05/services.py:1133-1188 | A finishing transaction commits iff the run is running with the worker's token. |
| `DeliveryHistories.DispatchSound` | src/core/automations/dispatching.py:25-85 | A queued run that was not yet dispatched is always claimed with its own token; any other is refused or answered with the existing token. |
| `DeliveryHistories.DispatchFailureSound` | src/core/automations/dispatching.py:112-160 | A dispatch failure is recorded iff the run is still queued with that token. |
| `DeliveryHistories.ReconcileSound` | src/core/automations/reconciliation.py:213-251 | Reconciliation skips iff the run is not stale, never conflicts with the log, and requeues only under a token never used before. |
| `DeliveryHistories.NewTokenIsUnused` | src/core/automations/run_tracking.py:25-40 | A fresh token appears in no key of the log, so the status-changing keys built from it are used at most once. |
| `DeliveryHistories.RecoveryHandsOver` | src/core/automations/reconciliation.py:293-357 | After a recovery the new token executes and no earlier token does, one attempt later, and the publication is pending again. |
| `DeliveryHistories.ResumptionHandsOver` | src/core/automations/sc05/services.py:193-260 | After a resumption the run can be dispatched, its new token executes, no earlier token does, and all recoveries are available again. |
| `DeliveryHistories.ConfirmedIsLeftAlone` | src/core/automations/reconciliation.py:254-272 | A queue whose publication was confirmed is not reconciled. |
| `DeliveryBounds.RecoveryIsBounded` | src/core/automations/reconciliation.py:232-251 | Attempts never exceed the maximum (SC-04) or the maximum plus one (SC-05, SC-20), and between resets a run is requeued or resumed at most as often as attempts were left. |
| `DeliveryBounds.RecoveryTerminates` | src/core/automations/reconciliation.py:404-443 | The termination measure: only a reset raises it; each reconciliation of a stale run and each redelivery of a running one lowers it. |
| `DeliveryBounds.TriageTerminates` | src/core/automations/sc04/services.py:594-704 | A SC-04 run interrupted again is resumed with a lower measure, or failed without a token when its attempts are used up. |
| `DeliveryBounds.ExecutedAtMostOnce` | src/core/automations/sc20/services.py:252-353 | Over every interleaving a SC-20 run is executed at most once, and a SC-05 run at most once more than it was resumed; the executions are exactly the started events. |
| `DeliverySteps.StepFollows` | src/core/automations/reconciliation.py:68-181 | Every step of the whole system changes the row of at most one run, by one of the transactions on a run. |
| `DeliverySteps.ReachableRunsAreAccounted` | src/core/automations/traceability.py:158-224 | The log, recovery and execution properties hold of every run in every reachable state of the whole system. |
| `DeliveryFencing.ApplyMoves` | src/core/automations/run_tracking.py:34-40 | A transaction keeps a run's token, drops it, or replaces it by a new one; logs only grow. |
| `DeliveryFencing.DeliverMoves` | src/core/automations/sc05/services.py:370-419 | A delivery executes only if its token was never started before. |
| `DeliveryFencing.FencedTransaction` | src/core/automations/sc05/services.py:874-931 | A guarded transaction of a worker whose token has moved on changes no run, no client and no attempt. |
| `DeliveryFencing.FencedForGood` | src/core/automations/sc05/services.py:805-861 | From that moment, over every further interleaving, the token never comes back and the worker makes at most the one gateway call it had prepared. |
| `DeliveryFencing.ReachableIsFenced` | src/core/automations/run_tracking.py:25-82 | In every reachable state an active run has a token, no two workers hold the same token of a run, and each worker made at most one call after losing its token. |
| `DeliverySagas.NextSagasOk` | src/core/automations/sc05/services.py:105-163 | Every step of the system keeps the rules that tie operations to their clients. |
| `DeliverySagas.OneLiveSagaPerClient` | src/core/automations/sc05/services.py:105-260 | In every reachable state at most one operation of a client is pending, queued, running or partially failed; a partially failed or resumed one implies a partial client; blocked implies a task snapshot, active implies none. |
| `DeliveryStranding.StrandedExactlyBy` | src/core/automations/dispatching.py:112-160 | A step leaves some partial client without any operation to resume iff it is the dispatcher of the creating request reporting a failure on a resumed run. |
| `DeliveryStranding.PartialClientsCanBeResumed` | src/core/automations/views.py:1161-1180 | Along every execution without that step, each partial client has an operation that is live or can be resumed. |
| `DeliveryStranding.StrandedLife` | src/core/automations/views.py:920-921 | Such a life from the empty system: creation, recovery by the reconciler before the creating request dispatches, execution that leaves residual state, resumption, late dispatch, failure. |
| `DeliveryStranding.LateDispatcherStrands` | src/core/automations/dispatching.py:25-60 | Wherever an operation is partially failed and the request that created it has not dispatched it yet: a resumption, that late dispatch, its failure and the report of it leave the client partial, the run failed, and neither resuming nor a new operation accepted. |
| `DeliveryRows.RunRow.constructor` | src/core/automations/sc20/services.py:71-117 | A new run is queued with a token and its first two events, and starts out with all that the methods below keep. |
| `DeliveryRows.RunRow.Record` | src/core/automations/traceability.py:158-224 | Records an event for the changed row, or rolls the whole transaction back on a conflict. |
| `DeliveryRows.RunRow.DispatchRun` | src/core/automations/dispatching.py:25-66 | A SC-05 or SC-20 run is claimed iff it is queued, not published and not yet dispatched; and then under the token it has. |
| `DeliveryRows.RunRow.RecordDispatchFailure` | src/core/automations/dispatching.py:112-160 | The run fails iff it is queued with that token; otherwise nothing changes. |
| `DeliveryRows.RunRow.RecordDispatchSuccess` | src/core/automations/dispatching.py:162-189 | A run becomes published only by a confirmation of its own token. |
| `DeliveryRows.RunRow.RecordRecoveryPublishFailure` | src/core/automations/reconciliation.py:720-760 | Notes the failed publication of a recovery and changes nothing else. |
| `DeliveryRows.RunRow.Quarantining` | src/core/automations/sc05/services.py:436-500 | Takes the token away, counts the attempt and leaves the run partially failed. |
| `DeliveryRows.RunRow.PrepareOperation` | src/core/automations/sc05/services.py:370-519 | A SC-05 or SC-20 worker executes iff the run is queued with its token, isolates it iff it is running with that token and the delivery is repeated, and else changes no column. |
| `DeliveryRows.RunRow.StartTriageRun` | src/core/automations/sc04/services.py:571-749 | A SC-04 worker executes only a run that is its own or nobody's; a running one only as a redelivery, one attempt later, while attempts are left. |
| `DeliveryRows.RunRow.TakeUpRun` | src/core/automations/sc04/services.py:594-704 | A redelivered SC-04 run is resumed with one more attempt, or failed when the maximum is reached. |
| `DeliveryRows.RunRow.BeginAttempt` | src/core/automations/sc05/services.py:874-904 | Starts an attempt only while the run is running with the worker's token. |
| `DeliveryRows.RunRow.EndAttempt` | src/core/automations/sc05/services.py:909-972 | Finishes an attempt only while the run is running with the worker's token. |
| `DeliveryRows.RunRow.Conclude` | src/core/automations/sc05/services.py:1133-1188 | Finishes the run iff it is running with the worker's token, and changes its status only. |
| `DeliveryRows.RunRow.Resume` | src/core/automations/sc05/services.py:193-257 | Queues the run iff it is partially failed, with all its attempts, under a token that no earlier delivery matches. |
| `DeliveryRows.RunRow.PrepareScheduledRun` | src/core/automations/sc20/services.py:157-205 | Queues a run again iff it failed to be published and never started, under a token that no earlier delivery matches. |
| `DeliveryRows.RunRow.Claim` | src/core/automations/reconciliation.py:293-357 | Requeues the run under a new token with one more attempt. |
| `DeliveryRows.RunRow.FenceOff` | src/core/automations/reconciliation.py:446-485 | Fails the run and takes its token away. |
| `DeliveryRows.RunRow.ReconcileOne` | src/core/automations/reconciliation.py:213-251 | A stale SC-05 or SC-20 run is claimed under a token that no earlier delivery matches, one attempt later and within the maximum, or ends without a token; one that is not stale is left alone. |
| `EventDetails.DetailsAreMinimized` | src/core/automations/traceability.py:316-392 | Accepted details have at most 40 entries in all and nest at most 4 deep, and minimizing them again returns them unchanged, also when trimmed keys collided. |
| `EventDetails.MinimizeIsMinimal` | src/core/automations/traceability.py:332-387 | Every accepted value is trimmed, free of what the patterns refuse, and its entries were all counted. |
| `EventDetails.MinimalIsKept` | src/core/automations/traceability.py:332-387 | A minimal value that still fits is returned as it is and counts exactly its entries. |
| `EventDetails.PutFacts` | src/core/automations/traceability.py:344-361 | A key that collides after trimming keeps its place, takes the later value, and never makes the result larger than what was counted. |
| `EventDetails.Assign` | src/core/automations/traceability.py:356-361 | A dictionary assignment on the ordered entries, by a scan from the end. |
| `EventDetails.MinimizeValue` | src/core/automations/traceability.py:332-387 | The recursive walk with its shared counter computes the minimized value and count, or refuses. |
| `EventDetails.MinimizeMapping` | src/core/automations/traceability.py:341-361 | The loop over a mapping does the same for its entries. |
| `EventDetails.MinimizeList` | src/core/automations/traceability.py:362-377 | The loop over a list does the same for its elements. |
| `EventDetails.MinimizeEventDetails` | src/core/automations/traceability.py:316-329 | The whole: only objects, and at most 4096 encoded bytes. |
| `Sc20Ledger.NextOk` | src/core/automations/sc20/services.py:456-704 | Every scan, retry, send, crash and certificate edit keeps attempts numbered 1..n, all but the last failed, the communication status equal to the last, and the pending one owned by the only delivery that may still send. |
| `Sc20Ledger.AtMostOnceNotices` | src/core/automations/sc20/services.py:456-704 | Over every interleaving with crashes: no attempt is sent twice, and a communication is sent at most once more than it was explicitly retried. |
| `Sc20Ledger.SendFollowsFailuresOnly` | src/core/automations/sc20/services.py:618-640 | Whatever is sent is the newest attempt, pending and not sent before, and all attempts before it have failed. |
| `Sc20Ledger.SettledForGood` | src/core/automations/sc20/services.py:470-512 | A communication that was sent, or whose last attempt never got an answer, is never attempted or sent again. |
| `Sc20Scan.ScanCounts` | src/core/automations/sc20/services.py:386-417 | A completed scan satisfies selected = sent + failed + deduplicated, sends once to each selected certificate without a communication, and keeps the others. |
| `Sc20Interleaved.InterleavedScanCounts` | src/core/automations/sc20/services.py:386-453 | The same with others at work between any two transactions and calls of the scan: selected = sent + failed + deduplicated, and the scan has made, sent and settled exactly sent + failed notices. |
| `Sc20Interleaved.InterleavedSecondScanSendsNothing` | src/core/automations/sc20/services.py:386-453 | A second scan sends nothing, whatever other deliveries, retries and edits of other certificates happen during the first, in between and during the second. |
| `Sc20Interleaved.ScanOneCounts` | src/core/automations/sc20/services.py:420-453 | One certificate of such a scan: deduplicated without a notice, or one notice, sent and settled; its communication exists afterwards. |
| `Sc20Interleaved.CoversUpTo` | src/core/automations/sc20/services.py:386-436 | After a scan during which none of its certificates was edited each has a communication; and if each had one before, the scan deduplicates all. |
| `Sc20Scan.ScanOfKnown` | src/core/automations/sc20/services.py:420-436 | A scan of certificates that all have a communication sends nothing and deduplicates all. |
| `Sc20Scan.SecondScanSendsNothing` | src/core/automations/sc20/services.py:386-436 | A second scan with the same base date and unchanged certificates sends nothing, whatever was added since and whatever the provider would answer. |
| `Sc20Scan.LaterScanSendsOnlyNew` | src/core/automations/models.py:1160-1167 | A scan from another base date leaves the communications of the first selection as they were. |
| `Sc20Scan.NotifyOk` | src/core/automations/sc20/services.py:420-436 | One notice is deduplicated, or creates one attempt that ends sent or failed as the provider answers. |
| `Sc20Scan.NotificationService.NextSequence` | src/core/automations/sc20/services.py:538-538 | One more than the highest sequence, by a scan. |
| `Sc20Scan.NotificationService.PrepareNewDelivery` | src/core/automations/sc20/services.py:457-487 | Creates the communication and its first pending attempt iff there is none. |
| `Sc20Scan.NotificationService.PrepareRetryDelivery` | src/core/automations/sc20/services.py:490-529 | Adds a pending attempt iff the communication failed and its certificate is active and unchanged. |
| `Sc20Scan.NotificationService.FinalizeDelivery` | src/core/automations/sc20/services.py:642-704 | Records the outcome of a pending attempt once; an attempt already decided keeps its status. |
| `Sc20Scan.NotificationService.NotifyCertificate` | src/core/automations/sc20/services.py:420-436 | Prepare, send and finalize for one certificate. |
| `Sc20Scan.NotificationService.ExpiringBetween` | src/core/automations/sc20/services.py:393-400 | The active certificates in the inclusive window, in order. |
| `Sc20Scan.NotificationService.NotifyAll` | src/core/automations/sc20/services.py:400-417 | The loop with its four counters. |
| `Sc20Scan.NotificationService.ExecuteScan` | src/core/automations/sc20/services.py:386-417 | The whole scan, with the law of its counters. |
| `Sc04Ingestion.NothingIsDuplicated` | src/core/automations/sc04/services.py:375-470 | Over every interleaving of ingestions in any runs, stopping anywhere: one document per hash, one intake per origin, one item per run and intake, and at most one new item per document over all runs. |
| `Sc04Ingestion.IngestingAgain` | src/core/automations/sc04/services.py:390-407 | Ingesting a list changes nothing iff each request is already done; in particular re-ingesting an ingested list in the same run changes nothing. |
| `Sc04Ingestion.UninterruptedIngestion` | src/core/automations/sc04/services.py:375-470 | A worker that nobody interleaves with ingests as one transaction would. |
| `Sc04Ingestion.OrphanedExactlyBy` | src/core/automations/sc04/services.py:375-470 | A step leaves a document without a new item for good iff it stops the worker that created it before that worker writes, or is that worker's write finding its origin taken by another. |
| `Sc04Ingestion.OrphanIffLost` | src/core/automations/sc04/services.py:375-470 | Over every execution from the empty archive: a document is an orphan iff some step of it lost the document in one of these two ways. |
| `Sc04Ingestion.OrphanStays` | src/core/automations/sc04/services.py:375-470 | Once a document has neither a new item nor a worker that could still write one, this stays so: whoever brings the content later finds a duplicate. |
| `Sc04Ingestion.StoppedCreatorLosesDocument` | src/core/automations/sc04/services.py:420-445 | A whole execution: the worker stops between creating the document and writing its item. |
| `Sc04Ingestion.RaceLosesDocument` | src/core/automations/sc04/services.py:434-465 | A whole execution in which nobody stops: two workers ingest one attachment, and the one that found the document writes first. |
| `Sc04Ingestion.WriteOk` | src/core/automations/sc04/services.py:434-465 | Writing the intake and its item, or finding that another worker was faster, keeps everything unique. |
| `Sc04Counts.EveryItemIsAccounted` | src/core/automations/sc04/services.py:1302-1338 | received = routed + awaiting review + in progress + duplicates + (failed - failed duplicates), in every reachable state. |
| `Sc04Counts.VerdictMeans` | src/core/automations/sc04/services.py:1346-1362 | A run is reported succeeded iff all it received was routed or a duplicate and no duplicate's document failed, and failed iff it is over, routed nothing and something failed. |
| `Sc04Counts.Triage.LookUp` | src/core/automations/sc04/services.py:390-394 | The intake of an origin, by a scan. |
| `Sc04Counts.Triage.GetOrCreateItem` | src/core/automations/sc04/services.py:398-402 | One item per run and intake. |
| `Sc04Counts.Triage.IngestDocument` | src/core/automations/sc04/services.py:375-470 | One ingestion on the stored rows, with its outcome. |
| `Sc04Counts.Triage.CountItems` | src/core/automations/sc04/services.py:1305-1307 | The items of a run that are new, or are not. |
| `Sc04Counts.Triage.CountDocuments` | src/core/automations/sc04/services.py:1308-1316 | The distinct new documents of a run with given statuses. |
| `Sc04Counts.Triage.CountFailedDuplicates` | src/core/automations/sc04/services.py:1317-1325 | The distinct failed documents that are duplicates in a run. |
| `Sc04Counts.Triage.Recompute` | src/core/automations/sc04/services.py:1294-1362 | The recount and the status it leads to, both as said of the documents, keeping a final status when asked. |
| `Texts.StripIdempotent` | src/core/automations/sc06/rules.py:542-542 | Trimming twice is trimming once. |
| `Sc06Theorems.CoerceIdempotent` | src/core/automations/sc06/rules.py:525-566 | A coerced answer is its own coercion. |
| `Sc06Theorems.EvaluateFrame` | src/core/automations/sc06/rules.py:136-165 | A validated condition never raises, and depends only on answers to earlier questions; empty text and no answer differ for it only if it compares with the empty text. |
| `Sc06Theorems.SanitizeIsTheFixedPoint` | src/core/automations/sc06/rules.py:213-243 | For every accepted schema and answers on which a draft is sanitized, the one-pass result is the unique map in which a question is present iff its section and question conditions hold on that map and its answer is not empty, with the coerced value. |
| `Sc06Theorems.FixedPointUnique` | src/core/automations/sc06/rules.py:480-481 | Two such maps are equal, because conditions refer only to earlier questions. |
| `Sc06Theorems.ProblemsExact` | src/core/automations/sc06/rules.py:230-243 | The problems reported are exactly those of the questions active on the final result. |
| `Sc06Agreement.BrowserAgreesIff` | src/static_src/app.js:486-546 | For every accepted schema and answers that are empty, lists or already coerced: browser and server agree on all sections and questions iff the server decides at each of them as if no empty text had been answered. |
| `Sc06Agreement.AgreementIffIndifferent` | src/static_src/app.js:486-546 | The same up to any question, so they part at the first question where the server decides otherwise. |
| `Sc06Agreement.BrowserAgreesWithServer` | src/static_src/app.js:486-546 | In particular, on a schema that never compares with the empty text the browser shows exactly the sections and questions the server activates. |
| `Sc06Agreement.EmptyComparisonSplitsBrowserAndServer` | src/static_src/app.js:486-546 | With a comparison to the empty text they disagree: a concrete accepted schema and answer. |
| `Sc06Agreement.BrowserPassSame` | src/static_src/app.js:526-542 | On accepted schemas the two evaluators make the same pass over the same contributions. |
| `Sc06Agreement.SanitizeIsIdempotent` | src/core/automations/sc06/rules.py:213-263 | Sanitizing what was stored stores it again, in draft and complete mode, iff no stored value is the empty text. |
| `Sc06Agreement.CompletingFromDraft` | src/core/automations/sc06/services.py:110-146 | Completing from a saved draft gives what completing at once gives, errors included, when the draft stored no empty text, on any accepted schema; when completing at once succeeds, only then. |
| `Sc06Agreement.CompletingFromDraftIff` | src/core/automations/sc06/services.py:110-146 | On every accepted schema: completing from a draft and completing at once agree iff the draft stored no empty text; or completing at once is rejected, the same required questions are active and unanswered on the stored answers and on what is read back from them, and the partner rule decides alike on both. |
| `Sc06Agreement.CompletingWithoutEmptyComparison` | src/core/automations/sc06/services.py:110-146 | On a schema that never compares with the empty text, this is: no empty text stored, or rejected at once with no required question stored as the empty text. |
| `Sc06Agreement.MissingIsReported` | src/core/automations/sc06/rules.py:230-243 | When nothing given is invalid, completing reports exactly the required questions that are active on the result and have no answer there. |
| `Sc06Agreement.ReportCoversStored` | src/core/automations/sc06/rules.py:303-329 | The active questions recomputed from the stored answers are those of sanitizing, and the report has exactly one row per stored key, in schema order. |
| `Sc06Engine.CheckConditionCorrect` | src/core/automations/sc06/rules.py:435-498 | Looking a condition's field up in the validator's dictionaries is looking for it among the earlier questions, at every depth. |
| `Sc06Engine.CheckWhen` | src/core/automations/sc06/rules.py:113-120 | An optional condition is accepted iff it obeys the rules before this position. |
| `Sc06Engine.IndexSection` | src/core/automations/sc06/rules.py:88-106 | The first pass over a section accepts iff its ids are new and its questions valid, and fills the dictionaries. |
| `Sc06Engine.IndexSections` | src/core/automations/sc06/rules.py:50-107 | The first pass over all sections accepts iff identifiers are valid and unique and no section is empty. |
| `Sc06Engine.CheckSection` | src/core/automations/sc06/rules.py:109-133 | The second pass over a section accepts iff its conditions refer to earlier questions only. |
| `Sc06Engine.CheckSections` | src/core/automations/sc06/rules.py:108-133 | The second pass over all sections. |
| `Sc06Engine.AcceptedBySections` | src/core/automations/sc06/rules.py:37-133 | The two passes together check exactly what the rules ask of the flat list of questions. |
| `Sc06Engine.ValidateTemplateSchema` | src/core/automations/sc06/rules.py:37-133 | The validator accepts a schema iff it obeys the rules. |
| `Sc06Passes.SectionStep` | src/core/automations/sc06/rules.py:213-243 | Evaluating a section's condition once, before its questions, gives what evaluating it at every question gives. |
| `Sc06Passes.SanitizeSection` | src/core/automations/sc06/rules.py:224-243 | The loop over one section, filling answers and errors. |
| `Sc06Passes.SanitizeAnswers` | src/core/automations/sc06/rules.py:213-263 | The nested loops give exactly the result of the one pass, its errors and the rule between two answers. |
| `Sc06Passes.ActivateSection` | src/core/automations/sc06/rules.py:181-196 | The loop over one active section. |
| `Sc06Passes.GetActiveQuestions` | src/core/automations/sc06/rules.py:168-210 | The nested loops give the active questions in schema order, or reject the schema. |
| `Sc06Passes.FormatRows` | src/core/automations/sc06/rules.py:310-329 | The active questions that have an answer, in order. |
| `Sc06Passes.FormatAnswers` | src/core/automations/sc06/rules.py:303-329 | The report on any answers. |
| `Sc06Passes.ReportCountsStored` | src/core/automations/sc06/services.py:156-163 | The report of what was stored has exactly as many rows as there are stored answers. |
| `Sc06Passes.ShowSection` | src/static_src/app.js:490-503 | The browser's loop over one section. |
| `Sc06Passes.Visibility` | src/static_src/app.js:486-506 | The browser's nested loops compute what its pass over sections shows. |
| `Sc06Passes.VisibilityAsEvaluated` | src/static_src/app.js:486-506 | On an accepted schema these loops, which evaluate a section once, show what evaluating it at every question shows. |
| `Sc06Passes.BrowserShowsServerQuestions` | src/static_src/app.js:486-506 | Under the condition above, the questions that the browser's loops show are exactly those that the server's loops return, in the same order, and the sections likewise. |
| `Sc06Passes.Briefing.constructor` | src/core/automations/sc06/services.py:54-106 | A briefing starts as an empty draft. |
| `Sc06Passes.Briefing.SaveDraft` | src/core/automations/sc06/services.py:109-124 | Saves the sanitized answers iff the briefing is a draft and they can be sanitized; else nothing changes. |
| `Sc06Passes.Briefing.Complete` | src/core/automations/sc06/services.py:127-187 | Completes iff the briefing is a draft and the answers are complete; the count reported is that of the stored answers. |
| `Sc06Passes.Briefing.Cancel` | src/core/automations/sc06/services.py:190-226 | Only a draft is cancelled, and its answers stay. |
| `Sc06Passes.CompleteFromDraft` | src/core/automations/sc06/services.py:109-146 | Two briefings, one completed at once and one through a draft, end with the same status and answers when no stored text is empty. |
| `Sc05Residue.PartialFailureIsRemembered` | src/core/automations/sc05/services.py:1271-1278 | A partially failed execution is not forgotten: resumed with any history and any plan but without a session, the run ends partially failed again and the client partial. |
| `Sc05Residue.PartialFailureIsNeverForgotten` | src/core/automations/sc05/services.py:340-348 | The same over any number of such resumptions, with step rows and portals untouched. |
| `Sc05Residue.CompensateRemembers` | src/core/automations/sc05/services.py:1027-1130 | A compensation that reports a failure leaves a step on record as such; one that reports success leaves every recorded step compensated, or failed and found as it had been; later positions are untouched. |
| `Sc05Residue.RestorationMeans` | src/core/automations/sc05/services.py:1055-1128 | A restoration is either found by one inspection, and then a failed step stays failed, or made by one command that the portal confirms. |
| `Sc05Residue.SessionlessOutcome` | src/core/automations/sc05/services.py:340-348 | Without a session nothing changes, and the client is partial exactly when some step row is running, applied or could not be compensated. |
| `Sc05Residue.LostWorkerIsRemembered` | src/core/automations/sc05/services.py:523-548 | A first execution lost on its way forward, isolated and resumed without a session: the client stays partial when a portal had been changed before the last call, and gets its status back when nothing had been changed. |
| `Sc05Residue.CompleteUndoIsForgotten` | src/core/automations/sc05/services.py:1271-1278 | A first execution that failed and undid everything leaves nothing on record, also when its worker is lost right afterwards. |
| `Sc05Residue.MarksSurviveLostWorkers` | src/core/automations/sc05/services.py:608-635 | An execution that finds a portal as an earlier one left it keeps the mark of the change, so that a later resumption without a session still leaves the client partial. |
| `Sc05UnblockRuns.RestoreMarksAgain` | src/core/automations/sc05/playwright.py:470-523 | After the tasks were given back, a restore to what the portal showed before submits a block and confirms exactly that state. |
| `Sc05UnblockRuns.FirstUnblockIsNeverPartial` | src/core/automations/sc05/services.py:577-635 | A first unblock of tasks as the block left them, whose calls are refused only while applying and before any change, ends active with the assignees given back, or failed and blocked with everything as before; never partial. |
| `Sc05Scenarios.ScenariosEnd` | src/core/sc05_simulator/views.py:287-301 | Each demonstration scenario of a first block ends as announced: blocked everywhere; everything as before; or with the files blocked and the client partial; and a portal with nothing to block refuses nothing. |
| `Sc05Scenarios.MarkedTasksMakeClientUnknown` | src/core/automations/sc05/services.py:1191-1233 | A first block that finds a task marked already ends failed with the client unknown and every portal as it was. |
| `Sc05Meaning.TasksCommandMeans` | src/core/sc05_simulator/views.py:251-273 | What a command does to each task row, and when it is refused. |
| `Sc05Meaning.RestoreMeans` | src/core/automations/sc05/playwright.py:459-483 | A restore acts only on the state it expects and on a target of its kind for an active client, and never confirms another state. |
| `Sc05Meaning.InvokeMeans` | src/core/automations/sc05/services.py:805-860 | What each fault around a call means for the portal, the worker and the log of calls. |
| `Sc05Meaning.AliveComesToVerdict` | src/core/automations/sc05/services.py:279-367 | An execution whose worker does not die comes to a verdict; without a session it fails at once and changes nothing. |
| `Sc05Meaning.BlockDesireMeans` | src/core/automations/sc05/services.py:668-712 | A block wants both accounts blocked and every open task of an active client marked, and nothing else. |
| `Sc05Meaning.UnblockDesireMeans` | src/core/automations/sc05/services.py:736-796 | An unblock wants each remembered task back with its assignee and all others as they are; it refuses exactly when a task was lost, hidden, reassigned or marked by somebody else, or the references are of no use. |
| `Sc05Meaning.AccountDesireMeans` | src/core/automations/sc05/services.py:714-733 | An unblock wants of an account what its own portal showed before the latest block that succeeded. |
| `Sc05Outcomes.ExecutionEnds` | src/core/automations/sc05/services.py:1133-1233 | The run, the client and the kept task state after an execution, for each way in which it can end. |
| `Sc05Outcomes.QuarantineAndResumeMean` | src/core/automations/sc05/services.py:436-470 | A lost worker leaves a resumable run, no running step and a partial client; a resumption only queues and counts, and drops the demonstration scenario. |
| `Sc05Outcomes.OutcomesAgree` | src/core/automations/sc05/services.py:1133-1233 | The saga and the system of deliveries agree on the status of the run and on the client, for every outcome. |
| `RunLog.RecordMeans` | src/core/automations/traceability.py:158-224 | A new event holds the next number, its content, its context and its own or the present time; a known key is answered with its event iff content and stated time agree. |
| `DeliveryDecisions.AttemptsMean` | src/core/automations/sc05/services.py:874-972 | A new attempt starts, and a started one is finished, iff the run is running with the worker's token; then its event is in the log with the right outcome and nothing else changes. |
| `DeliveryDecisions.StartMeans` | src/core/automations/sc05/services.py:370-519 | For every delivery in every reachable state of a run: what is decided, the whole row and the event that follow. |
| `DeliveryDecisions.TriageMeans` | src/core/automations/sc04/services.py:571-749 | The same for a SC-04 delivery. |
| `DeliveryDecisions.DispatchMeans` | src/core/automations/dispatching.py:25-66 | A queued run is claimed once under its token, then answered with that token, and any other run is refused. |
| `DeliveryDecisions.DispatchFailureMeans` | src/core/automations/dispatching.py:112-160 | When a failed dispatch ends a run, and the row and the event that follow. |
| `DeliveryDecisions.DispatchSuccessMeans` | src/core/automations/dispatching.py:162-189 | When a confirmation marks a run as published, and that it changes nothing else. |
| `DeliveryDecisions.FinishMeans` | src/core/automations/sc05/services.py:1133-1188 | When a worker finishes a run, and that only its status changes. |
| `DeliveryDecisions.ResumeMeans` | src/core/automations/sc05/services.py:193-257 | When a run is resumed, and its whole row afterwards. |
| `DeliveryDecisions.RescheduleMeans` | src/core/automations/sc20/services.py:157-205 | When a scheduled run is queued again, and its whole row afterwards. |
| `DeliveryDecisions.ReconcileMeans` | src/core/automations/reconciliation.py:213-251 | In every reachable state: a queue that was never confirmed is recovered while attempts are left, then isolated if it may hide external changes, else failed; a running worker is isolated; all else is left alone. |
| `DeliveryDecisions.ReconcileTriageMeans` | src/core/automations/reconciliation.py:232-251 | For SC-04: a run whose upload never got in is failed, one whose upload did is recovered, and an interrupted worker is recovered until the attempts are used up. |
| `DeliveryLives.CreationMeans` | src/core/automations/sc05/services.py:105-163 | A block is accepted iff the client is active, an unblock iff it is blocked, and never while another operation is under way. |
| `DeliveryLives.NotingMeans` | src/core/automations/dispatching.py:112-189 | What is noted about a publication, for each publisher and each answer of the broker. |
| `DeliveryLives.RedeliveryIsolates` | src/core/automations/sc05/services.py:421-500 | A message that comes again while its worker runs isolates the run, makes its client partial and interrupts exactly its open attempts. |
| `DeliveryLives.PreparationMeans` | src/core/automations/sc05/services.py:874-904 | A worker that still has its run starts a new attempt: the worker is prepared, the attempt open and in the log. |
| `DeliveryLives.ConclusionMeans` | src/core/automations/sc05/services.py:909-972 | It concludes the attempt with the outcome of its call. |
| `DeliveryLives.FinishingMeans` | src/core/automations/sc05/services.py:1133-1233 | How run and client stand after each outcome of an operation. |
| `DeliveryLives.ExhaustionMeans` | src/core/automations/reconciliation.py:232-251 | An operation that could never be published is failed with its client left alone when nothing can have been done for it, and isolated otherwise. |
| `DeliveryLives.UndisturbedLife` | src/core/automations/views.py:900-935 | From any state in which an operation can be requested, a life that nobody disturbs: created, dispatched, published, delivered, one attempt, one call, and the end that its outcome says, for run, client, attempt and worker. |
| `EventMeaning.AcceptedExactly` | src/core/automations/traceability.py:332-392 | A value is accepted iff it is clean, nests at most 4 deep and its entries, repeated keys included, fit into what is left of 40; and each of them is counted. |
| `EventMeaning.PutMeans` | src/core/automations/traceability.py:344-361 | An assignment gives its key the new value and leaves all others; a known key keeps its place and a new one comes last. |
| `EventMeaning.EntriesBecome` | src/core/automations/traceability.py:341-361 | Each key of the result holds the minimized value of the last entry given under it once trimmed, and nothing else is there. |
| `EventMeaning.DetailsAcceptedExactly` | src/core/automations/traceability.py:316-329 | No details are an empty object; details are accepted iff they are a clean object of at most 40 entries that encodes in at most 4096 bytes. |
| `Sc20Meaning.SelectionMeans` | src/core/automations/models.py:1156-1167 | The selection is the active certificates that expire within the window, both ends included, each once and in order. |
| `Sc20Meaning.RetryMeans` | src/core/automations/sc20/services.py:490-530 | A retry is prepared iff the communication failed, its certificate is active and unchanged and the run has not tried it yet; as the next attempt, pending. |
| `Sc20Meaning.NoticeLife` | src/core/automations/sc20/services.py:420-436 | A certificate without a communication: prepared, sent once, and recorded as the provider answered. |
| `Sc20Meaning.RetryLife` | src/core/automations/sc20/services.py:439-453 | A failed communication: one attempt more, sent once and recorded. |
| `Sc04Ingestion.IngestMeans` | src/core/automations/sc04/services.py:375-470 | The five things an ingestion can do to documents, intakes and items, by what is known of its origin and its content. |
| `Sc04Ingestion.FindingMeans` | src/core/automations/sc04/services.py:375-470 | The second step of a worker, on what is stored by then: the document is found or created, or its original refused. |
| `Sc04Ingestion.WritingMeans` | src/core/automations/sc04/services.py:375-470 | The third step: if another worker has taken the origin since, the run still gets its item, once; else the origin is recorded, as new for the worker that created the document. |
| `Sc04Counts.CountsAndStatusMean` | src/core/automations/sc04/services.py:1294-1362 | In every reachable state each count is the number of distinct documents with that status that are new in the run, or of items, and the status is the one decided on those documents. |
| `Sc04Counts.SucceededMeansRouted` | src/core/automations/sc04/services.py:1346-1362 | Succeeded says exactly that every new document is routed and nothing failed. |
| `Texts.StripTrims` | src/core/automations/sc06/rules.py:542-542 | Trimming drops white space at both ends, all of it, and nothing else. |
| `Sc06Meaning.WhatIsStored` | src/core/automations/sc06/rules.py:213-263 | The stored answers are exactly the given answers to the active questions: yes and no as such, all else as its trimmed text, an option, a date, an address, within its bounds; on completion every active required question has one. |
| `Sc06Meaning.WhatIsRefused` | src/core/automations/sc06/rules.py:213-263 | Answers are refused iff an active question is answered wrongly or, on completion, a required one is not answered or the partners disagree; and the report names each with its problem. |
| `Sc06Meaning.OptionsCanBeChosen` | src/core/automations/sc06/rules.py:367-405 | Every option of an accepted schema can be answered and is stored as it stands. |
| `Sc06Meaning.ReportKeepsOrder` | src/core/automations/sc06/rules.py:304-330 | Whatever answers are stored, the rows of the report stand in schema order. |
| `Sc06Meaning.QuestionMeans` | src/core/automations/sc06/rules.py:351-432 | What the validator asks of a question, among it that some answer is possible. |
| `Sc06Meaning.ConditionMeans` | src/core/automations/sc06/rules.py:435-523 | The validator accepts exactly the conditions that compare earlier questions with answers these can have, nested at most ten deep. |

## Left out

- Browser driving, object storage, mail, classification, optical recognition and PDF code: foreign calls, reduced to
  success or failure.
- Views, forms, templates, administration, migrations, logging, trace context, health endpoints, seed and
  demonstration commands.
- The JSON shape checks of a questionnaire schema (allowed keys, labels, titles, help texts): schemas are typed values
  here.
- Step after-states, screenshots and artifact rows of the saga, summaries, error texts and finishing times.
- Portal pages that cannot be parsed into a state, and outside edits that land inside one gateway call; edits between
  calls are covered.
- Normalizing of white space in texts read from portal pages.
- Failing database writes: a transaction commits or is rolled back by one of the errors modelled.
- Heartbeats, and step rows saved after a check that does not lock: fencing is about run, client and attempt rows.
- The events of a delivery that carry no status (received and finished) and failed inspections of the reconciler.
- The events of SC-04 runs beyond the log service itself: an upload that finishes late overwrites the status without a
  guard, so status replay is claimed for SC-05 and SC-20 only.
- Idempotency keys of requests that create runs: a repeated request returns the earlier run and changes nothing.
- Resets by the demonstration command, which are outside the protocols.
- The column with the previous assignee of a task, which the simulator clears on unblocking, is not part of what the
  portals show; undo is exact for what they show.
- Sc05BlockRuns.FirstBlockIsNeverPartial: the scripted scenario that also fails the compensation is excluded, since
  its faults are not confined to the apply phase.
- Sc06Agreement.BrowserAgreesWithServer: answers that still need coercion are outside the claim, because the browser
  does not coerce; schemas that compare with the empty text are the subject of BrowserAgreesIff.
- Sc06Agreement.CompletingFromDraft: says nothing of a rejected completion from a draft with an empty text; that is in
  CompletingFromDraftIff.
- The SC-05 theorems without outside edits suppose that the one gateway call that a superseded worker may still have
  outstanding does not land after a later execution inspected that portal.
- Sc05Portals.Simulator.Call: no outside edit falls between the inspection inside a restore and its command, because a
  call is one step here.
- Sc05Compensation.ResumedRestorationIsComplete: its condition names the position at which the execution failed; the
  condition known before is in Sc05SafeResumption.
- DeliveryHistories.NoTokenNoMatch: a delivery without any task identifier, which the program lets match every run
  (src/core/automations/run_tracking.py:26-27), is not represented.
- Sc20Scan.ScanCounts: the scan runs alone here; with others in between it is Sc20Interleaved.InterleavedScanCounts.
- Sc20Scan.NotificationService.ExecuteScan: the loop runs alone; the interleaved scan is stated on values, because
  others change the ledger between its steps.
- Sc06Engine.ValidateTemplateSchema: the shape checks on the JSON text are omitted, as said above.
- Blank fields: the test for blank text knows four white-space characters, where the program strips every Unicode
  white space.
- When the reconciler isolates an exhausted queue it closes open attempts in the model; the program closes them only
  on its path for running runs.
