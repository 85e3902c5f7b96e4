# Verified model of go-bt-evolve's coordination protocols

go-bt-evolve runs behavior-tree agents as long-lived daemons: a dashboard that executes sprints of
approved tasks, a daemon that rebuilds and restarts itself and its siblings when the repository
moves, agents that auction work to each other over A2A, and a few small stores they share. This
project models the decisions those parts make and proves what they keep over every run.

`dafny verify dfyconfig.toml` checks everything. The modules follow the program:

- `ExecutionErrors` - error trees and the typed diagnostics every retry decision asks about.
- `TaskStore`, `SprintState`, `SprintExecution`, `Idempotency` - claiming tasks, running a batch in
  place on the shared sprint state, reconciling what could not be recorded, replaying admissions.
- `Admission`, `SprintAdmission` - the gate, the limiter and the reservations, path by path;
  `AdmissionPaths` - the same paths as runs of the protocol below.
- `DashboardProtocol` (the transition system), `DashboardSafety` (its invariant, step family by step
  family), `DashboardTheorems`, `DashboardBatch` and `DashboardReplay` (what holds on all runs) - any number of
  handlers, callbacks and restart requesters, split at every lock, channel, limiter and gate
  operation.
- `RebuildGuard`, `DriftWatch` (one pass as a value), `DriftSafety` (all passes), `DriftWatcher`
  (the same pass in place) - drift detection, rebuild backoff, smoke test, rollback, restart.
- `RestartHandoff`, `RestartOwner` - asking a sibling to restart itself over a lossy channel, and
  `RestartPaths` - its handler as a run of that protocol.
- `TaskReplies`, `AgentEndpoint`, `Delegation`, `Auction`, `HonestBidding` - at-most-once delegation
  and the auction above it.
- `FileLock`, `BreakerStore`, `BreakerSaves` - the unlink-on-release lock, circuit breakers, and any
  number of processes merging them into one file.
- `MemoryStore`, `EventBus`, `NotificationThrottle` - bounded memory, event bus, notification roll-up.
- `Sorting`, `Common` - shared vocabulary.

Assumptions, each where the code makes it: a failed Submit never runs its callback, and an accepted
one is eventually taken up (`DashboardProtocol`); HEAD is fixed within one pass and one watcher
writes its binaries (`DriftWatch`); a peer declares non-admission only of requests it did not admit,
and one SendMessage is one round trip (`Delegation.Honest`; `AgentEndpoint` is this repository's own
side of that); the clock increases strictly between writes (`MemoryStore`).

Where the code does less than its own comments say, the code is modelled and both halves are proved:

- "Every decision is fail-open" (notification throttle) is false when only the write fails:
  `FailedWriteDropsTheRun`; `DriftOfOneEvent` and `UnreadableFileForgetsOthers` say exactly when.
- `BuiltAt` speaks for the watcher's own binary only. A rolled-back sibling can be restarted on its
  old binary and stamped as adopted: `StampCanNameARevisionNotOnDisk`, `SiblingAdoptsWhatIsOnDisk`.
- A rollback puts back what the pass started with, which after a partial rebuild is the broken
  revision itself: `RollbackCanKeepTheBrokenRevision`, `RollbackRestoresThePassStart`.
- The attempt limit does not bound rebuilds of a head whose binaries build but do not start:
  `CrashingHeadIsRebuiltForEver`, `SmokeFailuresAreRetried`.
- A restart gate that reports ready without a finish callback is answered "rejected" while it stays
  sealed, which the requester reads as deferred: `DeferralCanHideASeal`, `DeferralMeansUndone`.
- A breaker file that exists but cannot be opened, or does not parse, is overwritten without the
  other owners' entries: `UnreadableFileDropsOthers`; exactly when they survive:
  `SaveKeepsOthersIfReadable`.
- A save reads a breaker's state, count and time under three separate locks, so it can publish an
  entry no breaker ever had: `TornEntry`; what a published entry does mean:
  `EachKeyHasItsLastWriter`.
- A full memory whose least recent key is the empty string refuses every new key however many
  other keys are written: `RefusalNeedsTheEmptyKey`, `RefusalLasts`.
- A delegated run that succeeds without output comes back as uncertain: `MuteSuccessIsDoubted`. An
  outcome no table knows that equals the wire name of its own state reads as a plain failure. When
  exactly a disposition is lost: `DispositionSurvivesTheWire`.
- A second Close of the bus panics exactly if somebody subscribed before the first: `Close`.
- An announcement without tags is not awarded by focus: `OpenDemandGoesByName`.

## Model

| member | source | states |
|---|---|---|
| ExecutionErrors.HasMeansOccurs | internal/reliability/execution_persistence.go:18-47 | each errors.As test finds exactly the trees in which such a diagnostic occurs somewhere, under any wrapping or join |
| ExecutionErrors.KindIsMostConservative | internal/reliability/execution_persistence.go:175-195 | the kind carried across HTTP is uncertain iff any node is uncertain, else stopped iff any node stopped, else persistence, else none; a typed node anywhere makes the error terminal |
| ExecutionErrors.VisitIsStrongest | internal/reliability/execution_persistence.go:92-126 | the recursive walk ends with the highest-ranked candidate of the whole tree, whatever its shape |
| ExecutionErrors.StopOutcomeIsWorstBranch | internal/reliability/execution_persistence.go:89-126 | the joined disposition of a stopped error is the outcome some branch reported and no branch outranks it |
| ExecutionErrors.PauseHidesNothing | internal/reliability/execution_persistence.go:138-149 | with typed evidence present, a pause means no branch is uncertain, lost its record, or stopped harder than the pause |
| TaskStore.CountMeansNoneMissing | internal/dashboard/tasks.go:389-410 | with unique ids, the matched count equals the batch size iff every named task exists |
| TaskStore.DuplicateIdsHideAMissingTask | internal/dashboard/tasks.go:178-194 | without unique ids that count accepts a result for a missing task; Create refuses the duplicate that would allow it |
| TaskStore.ClaimIsPrioritized | internal/dashboard/tasks.go:473-489 | a claim hands out exactly the approved, audited tasks, each once, most urgent and then earliest sprint first, equally urgent ones in file order |
| TaskStore.ClaimedBatchIsDistinct | internal/dashboard/tasks.go:463-490 | no claimed batch names a task twice |
| TaskStore.ClaimEmptiesTheQueue | internal/dashboard/tasks.go:475-480 | what a claim has moved to in_progress cannot be claimed again |
| TaskStore.TaskStore.Create | internal/dashboard/tasks.go:178-194 | a task is added iff its id is new and the write succeeds, so ids stay unique |
| TaskStore.TaskStore.CommitExecutionBatch | internal/dashboard/tasks.go:371-415 | a batch of results is recorded as a whole or not at all; exactly when every result is recordable, every named task exists and is still claimed, and the write succeeds |
| TaskStore.TaskStore.ClaimApproved | internal/dashboard/tasks.go:463-490 | all approved tasks become in_progress together with the returned batch, or nothing changes |
| SprintState.RefusedIsRetained | cmd/bt-dashboard/sprint_execution.go:139-176 | a result the store refused is retained as an uncommitted diagnostic once, and nothing else is added for its task |
| SprintState.RetainedResultsAreObserved | cmd/bt-dashboard/sprint_execution.go:143-160 | every retained result is one the batch observed |
| SprintState.ErrorKindIsMostConservative | cmd/bt-dashboard/sprint_execution.go:161-193 | the sprint error kind is the most conservative kind any counted entry observed, over the whole batch |
| SprintState.ErrorAndUncertaintyAreExact | cmd/bt-dashboard/sprint_execution.go:143-176 | a batch reports an error iff some entry counts, and becomes uncertain iff some outcome could not be established |
| SprintState.ApprovedOnlyIfDeferred | cmd/bt-dashboard/main.go:1847-1855 | a run returns its task to approved iff the breaker skipped it or it was an expected quota carryover, and then no branch failed, was lost or is unknown |
| SprintState.ResultsAreRecordable | cmd/bt-dashboard/sprint_execution.go:129-138 | the store's validation never rejects what a batch observed |
| SprintState.LoggedMentions | cmd/bt-dashboard/sprint_execution.go:139-142 | each entry of a batch adds one commit for its task iff the store accepted it |
| SprintState.ReconcileConserves | cmd/bt-dashboard/sprint_execution.go:33-54 | reconciliation moves retained results into the store one commit each; per task, recorded plus retained is conserved, and full success leaves nothing retained |
| SprintExecution.BatchKeepsEveryResult | cmd/bt-dashboard/sprint_execution.go:67-177 | from a batch's account: every accounted task ends with exactly one result, recorded or retained, and it is the one observed; a task is unaccounted only behind a panic, which sets Uncertain; a task returns to approved only if never run or deferred |
| SprintExecution.BatchMentions | cmd/bt-dashboard/sprint_execution.go:84-142 | each accounted task is recorded once iff its commit was accepted, including the single commit of the unstarted rest |
| SprintExecution.BatchUncertaintyIsObserved | cmd/bt-dashboard/sprint_execution.go:155-176 | a batch leaves the sprint uncertain iff it was before, a panic ended it, or some executed task's error was uncertain |
| SprintExecution.BatchRecordsWhatItObserved | cmd/bt-dashboard/sprint_execution.go:129-140 | whatever a batch writes for a task is the result it observed for it |
| SprintExecution.FinishAccount | cmd/bt-dashboard/sprint_execution.go:84-88 | a batch whose budget ended accounts for every remaining task as unstarted, with one verdict |
| SprintExecution.SharedSprint.Reconcile | cmd/bt-dashboard/sprint_execution.go:33-54 | only record writes are retried, in order; success iff nothing is uncertain and every retained result is now in the store, and nothing but diagnostics changes |
| SprintExecution.SharedSprint.RetryCommit | cmd/bt-dashboard/sprint_execution.go:38-51 | one retained result is committed and marked, or refused with the reason kept; a changed owner is refused |
| SprintExecution.SharedSprint.ExecuteTasks | cmd/bt-dashboard/sprint_execution.go:67-178 | the batch loop on the shared state: its account, the final state as the fold of that account, the store log, the panic and budget exits, and that on a quiet store every claimed task is recorded |
| SprintExecution.SharedSprint.RunTask | cmd/bt-dashboard/sprint_execution.go:89-176 | one task: dispatched, observed, committed and noted; on a quiet store its claim is recorded |
| SprintExecution.SharedSprint.NoteRun | cmd/bt-dashboard/sprint_execution.go:143-176 | the section after a commit is the specified effect of that entry |
| SprintExecution.SharedSprint.ReturnUnstarted | cmd/bt-dashboard/sprint_execution.go:197-221 | the unstarted rest is returned in one commit with one diagnostic per task |
| SprintExecution.SharedSprint.Close | cmd/bt-dashboard/sprint_execution.go:68-83 | Running is cleared on every exit; a panic leaves the sprint uncertain and failed |
| SprintExecution.Observe | cmd/bt-dashboard/sprint_execution.go:104-138 | an unexplained failure becomes a typed stop or uncertainty, and the result is always recordable |
| SprintExecution.CommitOne | cmd/bt-dashboard/sprint_execution.go:139-142 | one result is committed iff the store accepts it, whatever operators edited meanwhile |
| Idempotency.AdmitKeepsValid | cmd/bt-dashboard/main.go:1088-1096 | map and order list stay a duplicate-free bijection of size at most 1000 and the eviction never indexes an empty list |
| Idempotency.SurvivesItsElders | cmd/bt-dashboard/main.go:1088-1096 | a remembered key that is p-th in age survives exactly p evictions |
| Idempotency.RetryWindow | cmd/bt-dashboard/main.go:1038-1044 | a retry with an admitted key returns the original job iff fewer than 1000 later keyed admissions have happened |
| DashboardReplay.ReplayWindow | cmd/bt-dashboard/main.go:1038-1096 | in every interleaving: after a publication under a key, a retry is answered with its job while fewer than 1000 further keyed publications have happened, and is new work with the 1000th |
| DashboardReplay.PublicationAdmits | cmd/bt-dashboard/main.go:1087-1096 | whoever publishes finds its key unknown and a list to evict from, so the memory admits it as specified |
| Idempotency.IdempotencyMemory.Replay | cmd/bt-dashboard/main.go:1039-1044 | a lookup answers exactly the remembered job of a non-empty key |
| Idempotency.IdempotencyMemory.Remember | cmd/bt-dashboard/main.go:1088-1096 | a keyed admission is remembered, evicting the oldest key when full |
| DashboardSafety.StepKeepsInv | cmd/bt-dashboard/main.go:1027-1112 | every step of any handler, callback, agent run, pipeline run or restart requester keeps the whole invariant (who holds which lease, slot, lock, admission and decision) |
| DashboardSafety.OthersKept | cmd/bt-dashboard/main.go:1027-1112 | no step of one request disturbs what another holds |
| DashboardSafety.GlobalKept | internal/reliability/restart_admission.go:21-55 | lease and slot counters equal what is outstanding, a sealed gate has no lease, Running means a live batch |
| DashboardSafety.ReachableInv | cmd/bt-dashboard/main.go:1027-1112 | the invariant holds in every state that any interleaving reaches |
| DashboardTheorems.OneBatchAtATime | cmd/bt-dashboard/main.go:1045-1104 | in every interleaving at most one batch is being executed, and Running is true while it is |
| DashboardTheorems.LocksExclude | cmd/bt-dashboard/main.go:1033-1038 | at most one request holds the state mutex and at most one the sprint admission |
| DashboardTheorems.WindowStaysClean | cmd/bt-dashboard/main.go:1045-1087 | between the Running check and the publication, across the gap without the lock, no batch runs, nothing is uncertain or unrecorded, and the key stays unknown |
| DashboardTheorems.PublishLosesNothing | cmd/bt-dashboard/main.go:1087-1104 | publishing a batch clears only committed diagnostics, never happens after uncertainty, and admits the key as specified |
| DashboardTheorems.ReplayMemoryStaysValid | cmd/bt-dashboard/main.go:2115-2117 | the idempotency memory is valid in every reachable state |
| DashboardTheorems.UncertaintyIsFinal | cmd/bt-dashboard/sprint_execution.go:33-36 | once Uncertain is set no further batch is ever published, on any continuation |
| DashboardTheorems.LiveBatchIsSoleWriter | cmd/bt-dashboard/sprint_execution.go:67-178 | while a batch is live only its own callback changes the sprint state, whatever else runs |
| DashboardBatch.NotingKeepsStep | cmd/bt-dashboard/sprint_execution.go:139-176 | noting one entry moves the sprint state by exactly that entry of the account |
| DashboardBatch.CallbackKeepsBatch | cmd/bt-dashboard/sprint_execution.go:84-177 | every callback step keeps the sprint state equal to the published state folded over the account, and the account plus the rest equal to the handed batch |
| DashboardBatch.StepKeepsBatch | cmd/bt-dashboard/main.go:1027-1112 | so does every step of anybody else |
| DashboardBatch.BatchesStayInStep | cmd/bt-dashboard/sprint_execution.go:67-178 | in every interleaving a live batch is where its account says it is |
| DashboardBatch.BatchesAreDistinct | cmd/bt-dashboard/main.go:1073-1104 | no batch that is claimed, published or handed over in any run names a task twice |
| DashboardBatch.ClosedBatchKeepsItsAccount | cmd/bt-dashboard/sprint_execution.go:67-83 | when a batch closes in any run, even one whose first task panics: every handed task is settled in order unless a panic ended it; each refused result is retained exactly once and nothing is for any other task; the sprint is uncertain iff a panic or a settled result made it so |
| DashboardTheorems.SlotsAreReturnedOnce | cmd/bt-dashboard/sprint_admission.go:69-91 | a limiter slot is returned at most once, by a finished request exactly once if it took one, with every lease back and the capacity never exceeded |
| DashboardTheorems.OneDecision | cmd/bt-dashboard/sprint_admission.go:28-48 | a callback is sent at most one decision and exactly one once its request is gone, a send never waits, and a callback executes only a batch it was handed |
| DashboardTheorems.SealedMeansIdle | cmd/bt-dashboard/deploy_activity.go:12-23 | while the gate is sealed no batch, agent run or pipeline run executes and no request is inside |
| DashboardTheorems.NoLeaseMeansIdle | cmd/bt-dashboard/deploy_activity.go:32-41 | without leases no slot is held, no sprint runs and the state lock is free, so the restart check's look at limiter and sprint adds nothing and cannot deadlock |
| DashboardTheorems.LeaselessCallbacksOnlyDrain | cmd/bt-dashboard/deploy_activity.go:25-31 | what can keep the worker pool busy without any lease is a callback that was abandoned or is about to return, and it executes nothing |
| DashboardTheorems.NestedLeaseIsNeverRefused | cmd/bt-dashboard/sprint_admission.go:51-54 | behind the middleware the second lease is never refused |
| DashboardTheorems.KeptSealIsFinal | internal/reliability/restart_admission.go:34-55 | a kept seal is never reopened and nothing executes, takes capacity or changes the sprint after it |
| DashboardTheorems.HolderMoves | cmd/bt-dashboard/main.go:1038-1104 | whoever holds the state mutex can give it back without waiting |
| DashboardTheorems.NobodyIsStuck | cmd/bt-dashboard/main.go:1027-1112 | no deadlock: every unfinished request can move or waits only for the mutex, whose holder can |
| Admission.AdmissionGate.Acquire | internal/reliability/restart_admission.go:21-29 | a lease is granted iff the gate is not sealed |
| Admission.AdmissionGate.BeginRestart | internal/reliability/restart_admission.go:40-46 | sealing succeeds iff the gate is open, no lease is out and the owner is not busy |
| Admission.Handoff.Finish | internal/reliability/restart_admission.go:46-54 | the first call of a handoff's callback reopens the gate unless the handoff is kept; no later call changes it |
| Admission.Lease.End | internal/reliability/restart_admission.go:28 | a lease is returned once however often it is ended |
| Admission.Limiter.Release | internal/reliability/reliability.go:1413-1425 | a release frees one slot and is silent when none is active |
| SprintAdmission.SprintReservation.Release | cmd/bt-dashboard/sprint_admission.go:69-74 | slot and lease are given back by the first call only |
| SprintAdmission.SprintReservation.Abort | cmd/bt-dashboard/sprint_admission.go:36-38 | an undecided reservation is abandoned and returned; after a start the deferred abort changes nothing |
| SprintAdmission.SprintReservation.Start | cmd/bt-dashboard/sprint_admission.go:40-48 | a start sends the batch iff nothing was decided |
| SprintAdmission.SprintReservation.Callback | cmd/bt-dashboard/sprint_admission.go:75-83 | the callback runs exactly the batch it was handed, or none, and releases either way |
| SprintAdmission.ReserveSprint | cmd/bt-dashboard/sprint_admission.go:50-96 | either slot, lease and callback are all reserved, or gate and limiter are as before, although a refused submit ends its lease twice |
| SprintAdmission.AdmitBatch | cmd/bt-dashboard/main.go:1073-1104 | without a batch the capacity is back when the handler returns; with one the callback keeps it |
| SprintAdmission.ExecuteAgent | cmd/bt-dashboard/execution_admission.go:23-81 | every refused agent run leaves gate and limiter as before; a transferred one leaves both to its callback |
| SprintAdmission.AgentCallback | cmd/bt-dashboard/execution_admission.go:55-72 | the callback returns the slot and then the lease, on every exit |
| AdmissionPaths.ReserveRunAgrees | cmd/bt-dashboard/sprint_admission.go:50-96 | the protocol's steps taken in one go have the effect of reserveSprint: all reserved under the same condition, or gate and limiter as before |
| AdmissionPaths.StartRunAgrees | cmd/bt-dashboard/sprint_admission.go:40-48 | and of starting a batch: capacity stays held, the deferred abort changes nothing |
| AdmissionPaths.AbortRunAgrees | cmd/bt-dashboard/sprint_admission.go:28-38 | and of the deferred abort: slot and lease are back before the handler leaves |
| AdmissionPaths.AgentRunAgrees | cmd/bt-dashboard/execution_admission.go:23-81 | and of admitting an agent run, on every path |
| RebuildGuard.ShiftIsExact | internal/agent/rebuild.go:277-283 | the 64-bit shift equals the mathematical delay iff that fits in 63 bits |
| RebuildGuard.DelayIsCappedExponential | internal/agent/rebuild.go:277-283 | whenever the delay is consulted it is min(Base*2^(k-1), MaxDelay), if the largest reachable one fits |
| RebuildGuard.OverflowWaivesTheDelay | internal/agent/rebuild.go:272-283 | one doubling beyond 63 bits makes the delay negative and the next attempt immediate |
| RebuildGuard.DefaultsFit | internal/agent/rebuild.go:238-244 | the production limits stay far inside that range |
| RebuildGuard.FailuresAreBoundedAndSpaced | internal/agent/rebuild.go:214-300 | in a paced log failures of one head in a row never exceed MaxAttempts (one is always granted) and the next after k of them comes no sooner than min(Base*2^(k-1), MaxDelay) |
| RebuildGuard.SmokeFailuresAreRetried | internal/agent/rebuild.go:305-312 | after a rebuild that completed and then failed its smoke test the same head is allowed again at some time iff more than one attempt is allowed |
| RebuildGuard.RebuildBackoff.Allow | internal/agent/rebuild.go:256-273 | the guard's decision and new state |
| RebuildGuard.RebuildBackoff.RecordFailure | internal/agent/rebuild.go:287-300 | a failure advances the count of its head and clears the built mark |
| RebuildGuard.RebuildBackoff.RecordSuccess | internal/agent/rebuild.go:305-312 | a success clears the count and sets the built mark |
| DriftSafety.RebuildCoversSelf | internal/agent/rebuild.go:96-119 | a rebuild without error put the daemon's own binary on disk from head |
| DriftSafety.SweepLeavesSelf | internal/agent/deploy_drift.go:417-446 | the sibling sweep touches neither the guard nor the daemon's own binary |
| DriftSafety.PassKeepsInv | internal/agent/deploy_drift.go:319-456 | every pass keeps: built implies the own binary on disk is from that head; all restart requests safe; failures paced |
| DriftSafety.EveryPassIsSafe | internal/agent/deploy_drift.go:319-456 | over any sequence of passes: every self restart adopts a binary from its head, smoke-tested in that pass, with nothing in flight and sealed if guarded; BuiltAt(h) implies the own binary is from h; failed attempts keep limit and delays |
| DriftSafety.SealIsKeptOnlyForAHandoff | internal/agent/deploy_drift.go:396-406 | finish is called iff a guarded restart was requested, with true iff it was accepted or is uncertain |
| DriftSafety.SelfTestNeedsATarget | internal/agent/deploy_drift.go:372-386 | a self restart is smoke-tested iff the daemon is in its own target list |
| DriftSafety.RollbackRestoresThePassStart | internal/agent/deploy_drift.go:338-384 | what every pass ending in a smoke failure leaves on disk, rebuilt in that pass or before, restored or not; the broken revision is gone iff what is put back is another one |
| DriftSafety.RollbackCanKeepTheBrokenRevision | internal/agent/deploy_drift.go:353-384 | a two-pass run: after a partial rebuild the rollback of the next pass puts the broken revision back over itself and no backup of the old one is left |
| DriftSafety.SiblingAdoptsWhatIsOnDisk | internal/agent/deploy_drift.go:418-444 | a sibling is asked only unstamped and smoke-tested; the binary it adopts is from the head iff this pass rebuilt it or the disk already held it |
| DriftSafety.StampCanNameARevisionNotOnDisk | internal/agent/deploy_drift.go:431-444 | a two-pass run that stamps a sibling as adopted while its rolled-back binary is the old one |
| DriftSafety.CrashCosts | internal/agent/deploy_drift.go:372-384 | a pass that rebuilds and then fails its smoke test costs one build and leaves one recorded failure |
| DriftSafety.CrashingHeadIsRebuiltForEver | internal/agent/deploy_drift.go:356-384 | such passes one base delay apart rebuild the same head every time: smoke failures have no total bound |
| DriftSafety.RebuildBacksUpWhatWasLive | internal/agent/rebuild.go:104-118 | with distinct paths each rebuilt binary is from head and its backup is what was live before |
| DriftSafety.DefaultTargetsAreDistinct | internal/agent/rebuild.go:46-53 | the fleet list names the daemon and gives each binary its own path |
| DriftSafety.OwnTargetIsEnough | internal/agent/rebuild.go:62-78 | the one-binary lists of dashboard and gardener meet the same conditions |
| DriftWatcher.Watcher.RebuildBinaries | internal/agent/rebuild.go:89-120 | the loop swaps exactly the targets before the first failure and leaves later ones untouched |
| DriftWatcher.Watcher.SweepSiblings | internal/agent/deploy_drift.go:417-446 | the sweep in place equals its specification |
| DriftWatcher.Watcher.RebuildIfNeeded | internal/agent/deploy_drift.go:338-360 | the rebuild stage in place, with the guard told of every attempt |
| DriftWatcher.Watcher.Adopt | internal/agent/deploy_drift.go:372-455 | the adoption stage in place: smoke test, re-check, seal, siblings, self last |
| DriftWatcher.Watcher.FindSelf | internal/agent/deploy_drift.go:229-236 | the own path is that of the first target of the daemon's name |
| DriftWatcher.Watcher.DriftWatchOnce | internal/agent/deploy_drift.go:319-456 | one pass in place equals its specification |
| DriftWatcher.Watcher.Watch | internal/agent/deploy_drift.go:483-532 | the background loop keeps the invariant over all ticks |
| RestartHandoff.StepKeepsInv | internal/agent/restart_control.go:132-236 | every step of requester, channel, handler, own work and process exit keeps the invariant of every request |
| RestartHandoff.ReachableInv | internal/agent/restart_control.go:132-236 | it holds on every run with any number of concurrent requests |
| RestartHandoff.VerdictsAreSound | internal/agent/restart_control.go:189-236 | under loss at any step: plain error means nobody was reached; success means an accepted restart with admission sealed for it, or the revision already runs; deferred means nothing pending and, iff the gate did not leak, no seal; all else is uncertain |
| RestartHandoff.SettledVerdictsStay | internal/agent/restart_control.go:132-187 | a verdict that is not uncertain stays true whatever happens later |
| RestartHandoff.PendingRestartsAreExclusive | internal/agent/restart_control.go:160-187 | at most one restart is pending, sealed by its own request, with no lease of the target's own work |
| RestartHandoff.DeferralMeansUndone | internal/agent/restart_control.go:165-184 | with a gate that always hands out finish, deferred means the seal was reopened |
| RestartHandoff.DeferralCanHideASeal | internal/agent/restart_control.go:160-167 | with a gate that does not, a concrete run is told deferred while admission stays sealed |
| RestartOwner.Owner.Serve | internal/agent/restart_control.go:132-187 | the handler in place: what it dispatches, when the seal survives it, and what its status then says |
| RestartPaths.ServeRunAgrees | internal/agent/restart_control.go:132-187 | the protocol's moves of one handler taken in one go give the same answer on every path and leave gate and pending restarts alike |
| TaskReplies.BridgeRoundTrip | internal/a2a/task_bridge.go:15-61 | states survive the round trip through outcomes; only the three pauses share a state; every outcome but running maps to a final or paused state |
| TaskReplies.StoppedDiagnosticKind | internal/a2a/execution_metadata.go:78-95 | a task that did not complete is stopped with its reported outcome iff that outcome fits its state, else uncertain |
| TaskReplies.FailuresAreTyped | internal/a2a/client.go:154-199 | every interpreted reply that is not a success carries a typed diagnostic |
| TaskReplies.SuccessIsHonest | internal/a2a/client.go:154-199 | no error means real text from a message, or from a completed task whose metadata, if any, reports no error and a fitting outcome |
| TaskReplies.DispositionSurvivesTheWire | internal/a2a/execution_metadata.go:16-95 | publishing any run's outcome, diagnostic and result and interpreting it again keeps success, lost record, stop with its outcome, or uncertainty, in both directions, exactly unless the run was healthy with an empty result, or its diagnostic has an empty text, or its outcome is unknown, equals the wire name of failed and carries no more than a lost record; the first two read as uncertain, the last as a failure, none as a success |
| TaskReplies.MuteSuccessIsDoubted | internal/a2a/server.go:233-241 | the failing input: a delegated run that succeeds without output is reported as uncertain |
| Delegation.UnprovedIsUncertain | internal/a2a/client.go:89-100 | a failed attempt that is not uncertain was not admitted |
| Delegation.RetriesAdmitAtMostOnce | internal/reliability/errors.go:664-709 | over all retries the peer admits at most one request; a reply means exactly one; an untyped error means none |
| Delegation.PollingIsHonest | internal/a2a/client.go:109-128 | polling follows one task to a state that is read honestly, or ends in doubt; every failure is typed |
| Delegation.DelegationIsAtMostOnce | internal/a2a/client.go:50-129 | one delegation is admitted at most once whatever replies are lost; a result has text and exactly one admission; an error not typed uncertain, stopped or persistence means no admission |
| Delegation.DispatchIsAtMostOnce | internal/a2a/auction.go:388-427 | the outer retry keeps that across whole delegations: it repeats only one that admitted nothing |
| Delegation.FallbackMeansNothingAdmitted | internal/a2a/auction.go:545-577 | the signal to fall back to another executor is given only when the winner admitted nothing |
| Delegation.Transport.RoundTrip | internal/a2a/client.go:257-267 | non-admission is believed only of a non-2xx same-origin reply that declares it |
| Delegation.Transport.SendOnce | internal/a2a/client.go:89-100 | one attempt in place: its reply, its error and what the peer admitted |
| Delegation.Transport.SendWithRetry | internal/a2a/client.go:82-103 | the retry loop in place equals its specification, admissions included |
| Delegation.Await | internal/a2a/client.go:109-128 | the polling loop in place equals its specification |
| Delegation.SendTask | internal/a2a/client.go:50-129 | one delegation in place: result, error and admissions as specified, and at most once |
| Delegation.DispatchToWinner | internal/a2a/auction.go:395-427 | the winner dispatch in place equals its specification |
| Delegation.AuctionDelegate | internal/a2a/auction.go:545-577 | what the delegating action sees, on every way an auction can end |
| AgentEndpoint.HandleAgentEndpoint | internal/a2a/server.go:528-561 | non-admission is declared of every failing request that does not reach the executor and of no other |
| Auction.Evaluate | internal/a2a/auction.go:142-174 | the single pass finds the eligible bid that beats every other by cost, then confidence, then name, or none iff none is eligible |
| Auction.AwardIsUnique | internal/a2a/auction.go:142-174 | the same bids have one award in whatever order they are listed |
| Auction.CollectBids | internal/a2a/auction.go:738-798 | exactly the valid same-task answers are kept, under the candidate's own name, sorted by name |
| Auction.HoldAuction | internal/a2a/auction.go:359-377 | the award of a whole auction beats every other candidate's kept answer, and there is none iff no answer is eligible |
| Auction.AwardIgnoresArrivalOrder | internal/a2a/auction.go:749-797 | any two arrival orders give the same award, and the winner is always a candidate key |
| HonestBidding.CardCoversTags | internal/a2a/card.go:126-142 | a card covers a demand iff every required tag is among its skills' tags |
| HonestBidding.ScoreAnnouncement | internal/a2a/auction.go:188-231 | the bidder's loops compute focus and waste of the distinct tags, or no bid |
| HonestBidding.EligibleBidders | internal/a2a/card.go:110-122 | exactly the covering agents, each once, sorted |
| HonestBidding.SmallerIsBetter | internal/a2a/auction.go:207-219 | among covering cards fewer distinct tags means strictly cheaper and no less confident |
| HonestBidding.HonestAnswersAreKept | internal/a2a/auction.go:770-785 | an honest score always survives the auctioneer's validation |
| HonestBidding.AuctionFindsTheSpecialist | internal/a2a/auction.go:176-231 | with honest bidders the award goes to the covering candidate with the fewest distinct tags that is confident enough, ties by name; none iff none qualifies |
| HonestBidding.OpenDemandGoesByName | internal/a2a/auction.go:193-194 | a demand without tags is awarded by name alone |
| FileLock.StepKeepsInv | internal/reliability/reliability.go:269-310 | every open, flock, verify, unlink, close or crash keeps: a verified holder owns the flock of the inode the path names |
| FileLock.AtMostOneHolder | internal/reliability/reliability.go:228-311 | at most one opener is past verification in every interleaving |
| FileLock.VerificationIsNeeded | internal/reliability/reliability.go:292-300 | a concrete run in which two openers hold flocks at once and only the verification tells them apart |
| BreakerStore.OneProbe | internal/reliability/reliability.go:81-117 | a cooled-down breaker grants one probe and refuses until it is recorded |
| BreakerStore.OpensAtThreshold | internal/reliability/reliability.go:160-175 | a closed breaker opens exactly at its threshold of consecutive failures |
| BreakerStore.RoundTrip | internal/agent/scheduler_cb.go:259-267 | save and restore keep counts, state up to half-open becoming open, and the last failure in whole seconds |
| BreakerStore.SaveKeepsOthersIfReadable | internal/agent/scheduler_cb.go:250-269 | a save leaves every untracked key alone iff the file was absent or parsed, or could not be opened and hid only tracked keys, or did not parse and what it held and what the decoder filled in agree on every untracked key |
| BreakerStore.UnreadableFileDropsOthers | internal/agent/scheduler_cb.go:250-256 | the failing inputs: behind a file that cannot be opened, or has a syntax error, every untracked entry is gone after one save |
| BreakerStore.Store.Get | internal/agent/scheduler_cb.go:135-145 | the breaker is created on first use; the store stays in its key space iff the key is its own |
| BreakerStore.Store.Merge | internal/agent/scheduler_cb.go:250-269 | the merge loop writes every tracked breaker over what was read |
| BreakerStore.Store.Load | internal/agent/scheduler_cb.go:300-341 | exactly the owned entries of a readable file are restored, all else is untouched |
| BreakerStore.SaveThenLoad | internal/agent/scheduler_cb.go:232-341 | saving and loading restores exactly the tracked breakers of the own key space and the owned entries that were in the file, whatever keys the store tracks, and each admits a request after its cooldown |
| BreakerSaves.StepKeepsInv | internal/agent/scheduler_cb.go:232-295 | every step of any process's save, each field of each breaker being read separately, keeps the file equal to the replay of the published saves and every save to what it read when |
| BreakerSaves.SavesAreAtomic | internal/agent/scheduler_cb.go:225-231 | although each save takes many steps the file is always the merge of whole saves in their order |
| BreakerSaves.EachKeyHasItsLastWriter | internal/agent/scheduler_cb.go:250-271 | each key holds what the last save tracking it wrote: state, count and time each as the breaker had them when that field was read, in this order, and the breaker itself if nothing was recorded between those three reads; untracked keys hold what the first file gave a reader |
| BreakerSaves.TornEntry | internal/agent/scheduler_cb.go:259-267 | a run of one save in which a failure between two of its reads publishes a closed breaker with a full count, which no breaker ever was and whose loader admits requests |
| BreakerSaves.SavesStayInTheirKeySpace | internal/agent/scheduler_cb.go:135-145 | if every process asks its store only for its own keys, every save of any run writes only keys of its process |
| BreakerSaves.KeySpacesNeverClobber | internal/agent/scheduler_cb.go:190-196 | in any interleaving of such processes each entry is the one its last owner wrote, or that of the first file if no process owns the key; of the scheduler's and the auction's stores only one kind ever writes a key |
| MemoryStore.BoundedIsMostRecent | internal/agent/memory.go:284-300 | forgetting as one goes equals keeping the first maxSize places of the full recency list |
| MemoryStore.RecentHoldsLatest | internal/agent/memory.go:77-104 | that list holds each written key once with its latest value |
| MemoryStore.RecentIsNewestFirst | internal/agent/memory.go:77-104 | in the order of their last writes, newest first |
| MemoryStore.WriteIsRemember | internal/agent/memory.go:71-107 | with a positive bound and no empty key the store's write is the list's write |
| MemoryStore.RefusalNeedsTheEmptyKey | internal/agent/memory.go:297-299 | within its bound a new key is refused iff the memory is full and its oldest key is the empty string |
| MemoryStore.RefusalLasts | internal/agent/memory.go:284-300 | such a memory refuses every new key through any further writes of other keys; nothing but a write of the empty key or a deletion can end it |
| MemoryStore.RunsFit | internal/agent/memory.go:71-107 | whatever is written and deleted the memory never outgrows its bound nor names a key twice |
| MemoryStore.PutsAreRemembered | internal/agent/memory.go:71-107 | a whole run of named writes leaves what the bounded list says |
| MemoryStore.MemoryHoldsTheMostRecent | internal/agent/memory.go:71-122 | after any run of named writes, with reads anywhere between, the memory holds exactly the latest values of the most recently written keys its bound allows |
| MemoryStore.Oldest | internal/agent/memory.go:284-295 | the scan finds an entry with the oldest stamp |
| MemoryStore.Memory.EvictLRU | internal/agent/memory.go:284-300 | eviction removes the least recently written key |
| MemoryStore.Memory.Write | internal/agent/memory.go:71-107 | what a write stores, evicts and refuses, with every other entry kept |
| MemoryStore.Memory.Read | internal/agent/memory.go:111-122 | a read counts the hit and refreshes nothing |
| MemoryStore.Memory.Delete | internal/agent/memory.go:247-257 | a delete removes one key and keeps the order of the rest |
| MemoryStore.Query | internal/agent/memory.go:126-153 | the best matches in order; a match is missing only beyond the limit and behind every result |
| EventBus.OfferIsFaithful | internal/agent/bus.go:86-92 | a non-blocking send keeps what a subscriber has seen an in-order subsequence missing exactly the events that met a full buffer |
| EventBus.GaplessUntilFull | internal/agent/bus.go:86-100 | a subscriber whose buffer was never full when an event came has missed nothing |
| EventBus.HistoryGrows | internal/agent/bus.go:80-83 | truncating at each publication keeps exactly the last maxHistory events |
| EventBus.ListsReachMatching | internal/agent/bus.go:85-100 | the two lists reach exactly the matching subscriptions, each once and none closed |
| EventBus.PublishingIsSound | internal/agent/bus.go:67-101 | a publication keeps every subscription's record exact |
| EventBus.CloseLists | internal/agent/bus.go:118-131 | closing an open bus closes everybody and never closes twice |
| EventBus.AgentBus.Subscribe | internal/agent/bus.go:48-64 | a fresh channel joins its list, or is born closed on a closed bus |
| EventBus.AgentBus.Publish | internal/agent/bus.go:67-101 | history, every matching channel and nothing else change; a closed bus ignores it |
| EventBus.AgentBus.Receive | internal/agent/bus.go:48-64 | reading takes the oldest buffered event |
| EventBus.AgentBus.History | internal/agent/bus.go:104-115 | the last events of the whole run up to the limit |
| EventBus.AgentBus.Close | internal/agent/bus.go:118-131 | the first Close closes every channel and never panics; a second one panics iff there is a subscriber, and changes nothing |
| EventBus.AgentBus.SubscriberSees | internal/agent/bus.go:66-101 | at any time: seen events are the kept part of all that matched since the subscription, complete while the buffer was never full |
| NotificationThrottle.Throttle.DecideEvent | internal/agent/notification_throttle.go:44-86 | the decision and the new file, on every branch and I/O outcome |
| NotificationThrottle.RoutineRunsAreConserved | internal/agent/notification_throttle.go:44-86 | routine runs equal those delivered plus pending plus reported, so none is lost or reported twice |
| NotificationThrottle.OthersAreUntouched | internal/agent/notification_throttle.go:48-53 | decisions about other agents never touch an agent's state |
| NotificationThrottle.LastSentIsLastDelivery | internal/agent/notification_throttle.go:56-85 | the remembered delivery time is that of the last delivered notification |
| NotificationThrottle.HeldBackOnlyWithinADay | internal/agent/notification_throttle.go:13-17 | whatever reads and writes fail, a routine run is held back only within 24 hours of a delivered notification of its agent, in the run or remembered from before it |
| NotificationThrottle.DriftOfOneEvent | internal/agent/notification_throttle.go:44-104 | an event is held back iff the file could be read and says so; exactly how one event unbalances the account under each I/O failure |
| NotificationThrottle.FailedWriteDropsTheRun | internal/agent/notification_throttle.go:58-65 | a suppression whose write fails delivers nothing and counts nothing |
| NotificationThrottle.UnreadableFileForgetsOthers | internal/agent/notification_throttle.go:88-100 | an event leaves another agent's state alone iff the file could be read or could not be replaced, or held nothing of that agent |
| NotificationThrottle.BalanceOfARun | internal/agent/notification_throttle.go:44-104 | under any I/O failures the account of a run is out of balance by exactly the sum of what its single events cost |

## Left out

- SprintExecution.SharedSprint.ExecuteTasks: does not mirror task states into the workflow view, whose updates no decision reads.
- Error and log texts, except where code branches on them: the classification of an error by its text is an oracle of the world records.
- HonestBidding.AuctionFindsTheSpecialist: does not model rounding of float64 confidence, which is a real here.
- BreakerStore.RoundTrip: does not spell out the RFC 3339 text of section 5.6; a stamp without fraction is its whole seconds.
- RebuildGuard.RebuildBackoff.Allow: does not saturate time differences beyond 292 years.
- DashboardProtocol: worker count and queue length of the pool (any queued callback may be taken up at any time, and a restart may begin although the pool still holds abandoned ones, which the pool check would put off), fairness and wall-clock liveness.
- DashboardProtocol: a panic of a request goroutine inside a locked section; the server would leave the mutex held.
- DriftWatch: intermediate and temporary file names, git and the Go toolchain; a rebuild's steps succeed or fail as the world says, renames are atomic.
- RestartHandoff: peer credential checks and connection slots, which can only refuse a connection and so look like a lost request.
- BreakerSaves: a file that becomes unreadable in the middle of a run; BreakerStore states what one such save loses.
- EventBus: blocking receives and goroutine scheduling; channels are handles whose readers take one event at a time.
- MemoryStore: persistence text, the injected context blocks and statistics.
- HTTP, JSON, YAML and socket framing, card signing, credential forwarding, MCP tools, evolution, knowledge and alerting code.
