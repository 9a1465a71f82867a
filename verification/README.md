# FleetForge rollout engine: model and proofs

FleetForge rolls firmware out to devices in releases. A `Service` keeps releases, devices and tasks in three maps,
changes the records in place, logs every change as a full record, and rebuilds itself from a snapshot plus the log.
This project models that engine in Dafny and proves what its commands, its whole runs, its crashes and its concurrent
claimants keep.

The layers, bottom up:

- `Domain`, `Text`: the records as values, the transition tables, lease and retry arithmetic, Go's string order and trimming.
- `Projection`: events, `Apply`, replay from empty and replay on top of any base state.
- `Commands`, `Dispatch`: what each command does to a projected state: its error return and the records it emits, in order.
  Map iteration orders, picks among ties and fresh ids are arguments, so every theorem holds for all of them.
- `Lifecycle`: thirteen moves of a task and seven of a release, the log entries they allow, and `ValidLog`: a log each of
  whose entries was lawful in the state before it. `CommandLaws` proves that every command emits only lawful entries.
- `Runs`, `Releases`: theorems over every valid log: retry budget, bounded status changes, one owner, lease ends, concurrency
  cap, completed releases, and how a release leaves completion.
- `Guarantees`, `Restart`: theorems about single commands, and about commands cut off by a crash.
- `Effects`, `Claiming`, `Rollouts`: what every command does, without the functions it is computed by: exactly when it is
  accepted, the whole state after it, and what the next calls then find. A claimant's path from claim to confirmation, the
  backoffs, pausing and resuming.
- `Calls`, `Completion`: all commands as one transition system, whose steps are calls that a crash may cut off after any of
  their records; which calls unsettle a completed release, and which end its completion. `Witnesses`: for each property the
  code does not keep, an input that a run of calls reaches.
- `Claimants`: N goroutines in `ClaimWithTTL` as an interleaving state machine.
- `Journal`, `Store`, `Encoding`: lines, torn tails, the scanner loop, the log with its atomically replaced snapshot, and
  every durable state a crash can leave; an encoding of the records that meets what is asked of one. `Recovery`: what replay
  on top of a snapshot gives.
- `Records`, `Ids`, `Service`: the heap model. Live records are objects changed in place; `Emit` appends, applies (which swaps the
  live object for a decoded copy) and snapshots; every command is a method. `Entries` and `Loops` hold the value-level step
  lemmas of its invariants and loops. `Sorting` stands for `sort.Slice`. `Reruns`: a rollback, a crash, a new process, and the
  rollback again.
- `Plan`, `Audit`, `Integrity`: the read-side plan, audit summaries, and the referential check.

`Service.Valid` says: the live maps are the replay of the log, the log is a `ValidLog`, the audit list is the log, and every
durable state passed through so far, also in the middle of a command, is a sound crash point. A new service has it
(`Service.Open`), every command by any agent keeps it unless it panics, the passing of time keeps it (`Service.Service.Wait`),
and a restart from any durable state it recorded has it again (`Service.Reboot`), unless just the newline of the last record
was lost. So every theorem of `Runs`, `Releases` and `Guarantees` applies to every state the service reaches, through crashes
and recoveries. Three things break it. A panic of RejectTask or FailTask leaves a changed record behind that was never logged;
from then on only a restart is covered, which undoes the change. A tail that lost only its newline. A clock set to before the
last record. When each happens is stated exactly.

Where the code does not do what it is for, the model follows the code and states exactly when it does:

- The claim gate counts installing and awaiting tasks but not leased ones, so `MaxConcurrent` can be exceeded
  (`Witnesses.GateExceedsCap`). The cap holds through a run exactly when every claim had `Release.Capacity` left.
- Completed releases do not stay settled under three calls: `UpdateTask("reject")`, which has no guard
  (`Witnesses.RejectUnsettles`), and RejectTask or FailTask by an agent without a name, whom `VerifyLease` passes on every task
  nobody owns (`Witnesses.UnnamedFailUnsettles`). `Completion.StepSettlesExactly` gives the guard for every call and crash.
- A release can leave completion without an operator's order: when such a call makes the reconciliation find more failures
  than an automatic policy allows (`Witnesses.UnnamedFailReopens`). `Completion.StepEndsCompletionExactly` gives the guard.
- An agent without a name can fail a task nobody ever claimed, and a retry queues it again, for ever
  (`Witnesses.UnnamedFailsCycle`); status changes are bounded without such calls, operator rejects and rollback.
- RejectTask and FailTask by an agent without a name panic exactly on unowned tasks nobody has ever claimed
  (`Guarantees.PanicsExactly`, `Witnesses.RejectPanics`).
- `ClaimRollback` does not ask for the agent's name, and the HTTP server passes an empty one when it cannot decode the request:
  the task is then active and nobody owns it (`Witnesses.UnownedRollback`). Only a rollback is ever leased like that, and the lease still ends.
- `Recover` ignores the error of `Load`: with a corrupt or wrong-version snapshot the service starts empty beside an intact log
  (`Recovery.RebuildsExactly`).
- A crash that loses only the newline of a record leaves a valid line, and the next record is glued onto it
  (`Journal.AppendAfterTear`). The repository's documentation says a corrupt tail is ignored; that is exact for every other tear.
- `RequestRollback` lets a completed release past its first guard and then refuses it
  (`Guarantees.CompletedRefusesRollbackRequests`).
- `CompleteRollback` can return an error after having rolled its task back (`Witnesses.CompleteRollbackErrs`).
- `audit.Merge` of two windows open on different ends announces a window that does not cover both, and counts twice in a map
  that is both the actors of the first summary and the aggregates of one of them.
- `recovery.Check` fails on a release created for an empty device name, which `CreateRelease` accepts (`Witnesses.CheckFails`).
- The documentation names the log `data/events.log`; `DurableStore` writes `events.jsonl`.

## Model

| member | source | states |
|---|---|---|
| Text.LessTransitive | internal/service/dispatch.go:61-70 | the string order behind the dispatch tie-break is transitive |
| Text.LessTotal | internal/service/dispatch.go:61-70 | of two different ids one is less |
| Text.LessExactly | internal/service/dispatch.go:61-70 | one string is less than another if and only if it is smaller where they first differ, or a proper prefix |
| Text.TrimSpaceExactly | internal/service/workflow.go:61-75 | trimming cuts off nothing but spaces, and leaves none at either end |
| Projection.ReplayOverlays | internal/service/service.go:31-51 | replaying a log on any base gives the base overlaid with the replay from empty: the last event of a key wins |
| Projection.ReplayStep | internal/service/service.go:61-95 | one more event of the log is one more `apply` |
| Records.LiveTask.Transition | internal/domain/lifecycle.go:17-26 | moves in place exactly along the table of internal/domain/state.go (or stays), else changes nothing |
| Records.LiveTask.Lease | internal/domain/lifecycle.go:28-43 | succeeds exactly for a nonempty agent on a queued task past its backoff; a rejected task passes the first guard and is refused by the table |
| Records.LiveTask.ScheduleRetry | internal/domain/lifecycle.go:57-70 | over the limit the task fails for good, else it is rejected until now + base * 2^min(attempts-1, 8); the lease is gone |
| Records.LiveRelease.Transition | internal/domain/lifecycle.go:100-106 | moves in place exactly along the release table, else changes nothing |
| Ids.SequenceID.New | internal/ports/id.go:9-15 | the id is the prefix, the wall time and the count joined by dashes, and no id made so far by this process, or by one that ended at an earlier wall time, is the same |
| Ids.FormatInjective | internal/ports/id.go:12-15 | whatever the prefixes, two ids are the same only if prefix, wall time and count are |
| Lifecycle.TaskStepSound | internal/domain/lifecycle.go:17-70 | every move keeps lease discipline: active tasks hold a lease that ends within an hour, with an owner unless it is a rollback's; lease holders have attempts, queued tasks are within the retry limit, attempts never drop |
| Lifecycle.LawfulKeepsCoherent | internal/service/service.go:61-95 | every lawful log entry keeps the index coherent: keys are ids, every task has its release, tasks per release fit the device list |
| Lifecycle.ValidLogCoherent | internal/service/service.go:31-51 | every state replayed from any prefix of a valid log is coherent at every later instant |
| CommandLaws.NewTasksLawful | internal/service/service.go:104-109 | each task record of a release under creation is lawful when it is emitted, for its own device and within the device count |
| CommandLaws.CreateReleaseLawful | internal/service/service.go:96-111 | CreateRelease emits a lawful run for any fresh ids |
| CommandLaws.ClaimLawful | internal/service/dispatch.go:71-130 | a claim's records are lawful entries one by one, and it never panics |
| CommandLaws.SweepLoopLawful | internal/service/rollback.go:163-199 | the records emitted while ranging over the task map are lawful one by one, and their joint effect does not depend on the order |
| CommandLaws.ReapExpiredLawful | internal/service/rollback.go:163-199 | the reaper's whole emission, reconciliations included, is lawful |
| CommandLaws.QueueRollbackLawful | internal/service/rollback.go:68-100 | QueueRollback emits a lawful run in any map order |
| CommandLaws.CompleteRollbackLawful | internal/service/rollback.go:126-161 | CompleteRollback emits a lawful run and never dereferences a missing release |
| CommandLaws.FailTaskLawful | internal/service/rollback.go:38-66 | whatever agent calls it, what FailTask emits is a lawful run; it can panic only for an agent without a name |
| CommandLaws.UpdateTaskLawful | internal/service/service.go:122-152 | each operator action, and the reconciliation after it, is a lawful entry |
| CommandLaws.ReleaseCommandsLawful | internal/service/service.go:180-202 | SetRelease and RequestRollback emit lawful release entries: identity and terms stay, and the status moves as an operator's pause, resume, rollback order or an agent's rollback request moves it |
| CommandLaws.ClaimRollbackLawful | internal/service/rollback.go:102-124 | whatever agent calls it, named or not, what it emits is a lawful entry: one of the task moves |
| CommandLaws.RetryTaskLawful | internal/service/reporting.go:92-109 | what it emits is, in the state it is emitted in, a lawful entry: one of the task moves; a missing release is never dereferenced |
| CommandLaws.ReportPreflightLawful | internal/service/reporting.go:10-31 | what it emits is, in the state it is emitted in, a lawful entry: one of the task moves, then the reconciled release |
| CommandLaws.ConfirmInstallLawful | internal/service/reporting.go:34-57 | what it emits is, in the state it is emitted in, a lawful entry: one of the task moves, then the reconciled release |
| CommandLaws.RenewLeaseLawful | internal/service/rollback.go:15-36 | what it emits is, in the state it is emitted in, a lawful entry: one of the task moves |
| CommandLaws.ReportProgressLawful | internal/service/workflow.go:77-99 | what it emits is, in the state it is emitted in, a lawful entry: one of the task moves |
| CommandLaws.RejectTaskLawful | internal/service/workflow.go:61-75 | whatever agent calls it, what it emits is, in the state it is emitted in, a lawful entry: one of the task moves |
| CommandLaws.StartTaskLawful | internal/service/workflow.go:46-59 | what it emits is, in the state it is emitted in, a lawful entry: one of the task moves |
| Runs.RetryBudget | internal/service/rollback.go:179-186 | over any run one task is claimed at most RetryLimit + 1 times, and never more often than it has attempts |
| Runs.OwnerKept | internal/domain/lifecycle.go:28-53 | while a task stays leased, installing, awaiting or rolling back it keeps one and the same owner, who has a name unless it is rolling back all that time |
| Runs.OnlyGrantsProlong | internal/domain/lifecycle.go:28-53 | only a claim, a renewal or a rollback claim moves the end of a lease further away, and then to at most an hour from now |
| Runs.LeasesEndBy | internal/service/rollback.go:15-36 | over any stretch of a run without a claim, renewal or rollback claim every lease ends within an hour of its start |
| Runs.MeasureDrops | internal/service/reporting.go:92-109 | every status change outside rollback, operator rejects, and fails and rejects by agents without a name strictly decreases 7 * (remaining attempts) + rank of status and kept lease |
| Runs.StatusChangesBounded | internal/service/reporting.go:92-109 | so a task changes status at most 7 * (RetryLimit + 1) times in a run in which none of these touches it |
| Runs.BusyStep | internal/service/dispatch.go:114-120 | only a claim adds a leased, installing or awaiting task, and it adds exactly one |
| Runs.CapHoldsExactly | internal/domain/policy.go:10-25 | the number of busy tasks stays within MaxConcurrent throughout a run if and only if every claim was made with Release.Capacity left |
| Guarantees.CapHoldsUnderGate | internal/service/dispatch.go:18-45 | the cap holds through every run in which no claim overlaps another lease of its release: the gate each logged claim went through suffices |
| Runs.CompletedIsSettledExactly | internal/service/service.go:172-174 | over log entries: throughout a run completed releases have one completed, unleased task per device if and only if no entry takes a completed task of a completed release back |
| Runs.RunExtends | internal/service/service.go:61-95 | nothing is lost along a run; identities and release terms never change; attempts never drop |
| Runs.ProgressStaysConsistent | internal/service/reporting.go:69-90 | once a release has all its tasks, ReleaseProgress is consistent for good and completed + failed fits the total |
| Rollouts.ConfirmCounts | internal/service/reporting.go:69-90 | confirming an install moves one task to the completed count of ReleaseProgress and leaves the others |
| Rollouts.FailCounts | internal/service/reporting.go:69-90 | a final failure moves one task to the failed count and leaves the others |
| Dispatch.PrecedesIsStrictTotal | internal/service/dispatch.go:61-67 | the dispatch comparator is a strict total order on distinct ids, so the head does not depend on map order |
| Dispatch.HeadExists | internal/service/dispatch.go:61-67 | every nonempty set of eligible tasks has a least one |
| Loops.SortedIsStrict | internal/service/dispatch.go:61-70 | in the sorted list each eligible task strictly precedes the later ones |
| Dispatch.ClaimTakesTheHead | internal/service/dispatch.go:95-129 | with good arguments a claim succeeds if and only if the least eligible task is queued, and leases that task; a rejected head makes it fail |
| Dispatch.GateIsLooser | internal/service/dispatch.go:24-35 | the gate's capacity is never below Release.Capacity and equals it when no task of the release is leased |
| Guarantees.Fenced | internal/domain/lifecycle.go:45-53 | no agent command of an agent that does not own the lease emits anything |
| Guarantees.FencedThroughout | internal/domain/lifecycle.go:45-53 | from a claim until the task stops being active, in any valid run, every agent command of another agent emits nothing |
| Claiming.EligibleExactly | internal/service/dispatch.go:47-69 | a device can get exactly the tasks that wait for it, are past their backoff, and whose release is neither finished, paused nor rolling back and has fewer installs than MaxConcurrent |
| Claiming.SomeoneIsFirst | internal/service/dispatch.go:61-67 | if a device can get any task, one of them is first in line: the oldest release, then the smaller id |
| Claiming.ClaimAnswers | internal/service/dispatch.go:71-92 | the first thing wrong with a claim decides its answer, and it is told there is no task if and only if the device can get none |
| Claiming.ClaimEffect | internal/service/dispatch.go:92-130 | a good claim is accepted if and only if the first task in line is queued; then the task is the agent's for exactly ttl, has one attempt more, a queued release is in preflight, and nothing else changed |
| Claiming.ClaimantHolds | internal/domain/lifecycle.go:28-53 | from the claim on the claimant passes the lease check and may start the task up to now + ttl and not later, no other agent passes it, and the reaper takes the task exactly after that |
| Claiming.FencedFromClaim | internal/domain/lifecycle.go:28-53 | from the claim call until the task stops being active, in any valid run, every agent command of every agent but the caller emits nothing, and the caller passes the lease check until the lease ends |
| Claiming.InstallPath | internal/service/reporting.go:34-57 | claim, start, report 100 percent, confirm: each accepted at any later time within the lease, and the task is then completed, free and counted; confirming after the lease ended is refused |
| Guarantees.LiveLeaseKept | internal/service/rollback.go:163-199 | a running lease keeps its task out of claims, rollback claims, reaping and rollback queueing |
| Guarantees.ReaperComplete | internal/service/rollback.go:163-199 | after a reap no active task has an expired lease, and a task changed if and only if it was active and its owner's VerifyLease reports expiry |
| Guarantees.ReapIsIdempotent | internal/service/rollback.go:163-199 | a second reap at the same instant emits nothing |
| Rollouts.ReapEffect | internal/service/rollback.go:163-199 | the whole state after a reap: each active task whose lease has ended is freed and queued again, failed over the limit, or queued for rollback; exactly the releases of such tasks are recounted |
| Rollouts.ReapedWaits | internal/service/rollback.go:179-186 | a requeued task is had by no device for a minute per attempt, and from then on exactly while its release takes claims; every other task keeps its backoff |
| Guarantees.IdleHourReapsAll | internal/service/rollback.go:163-199 | after any run whose entries of the last hour and more contain no claim, renewal or rollback claim, other commands allowed, one reap leaves no task active |
| Guarantees.ReconcileStable | internal/service/service.go:153-179 | the counters fit the device list, completion and automatic rollback exclude each other when MaxFailures is not negative, and reconciling again changes neither |
| Guarantees.BackoffInRange | internal/domain/lifecycle.go:57-70 | in every reachable state the owner's retry waits between base and 256 * base |
| Effects.RejectBackoff | internal/domain/lifecycle.go:57-70 | a rejected task waits one second after its first attempt, twice as long after each further one up to the ninth, and 256 seconds from then on, and no device gets it before |
| Effects.FailBackoff | internal/domain/lifecycle.go:57-70 | the same for a retryable FailTask |
| Effects.StartTaskEffect | internal/service/workflow.go:46-59 | accepted exactly from the holder of a running lease on a leased or installing task, which then is installing under the same lease |
| Effects.ReportProgressEffect | internal/service/workflow.go:77-99 | accepted exactly for 0 to 100 percent from the holder of the lease while installing or awaiting; 100 awaits confirmation, and a detail replaces the error |
| Effects.RenewLeaseEffect | internal/service/rollback.go:15-36 | accepted exactly for up to an hour from the holder of an active task, whose lease then ends ttl from now |
| Effects.ConfirmInstallEffect | internal/service/reporting.go:34-57 | accepted exactly on completed tasks, without effect, and from the owner of an awaiting task up to the end of its lease; then the task is completed and free and its release recounted |
| Effects.ReportPreflightEffect | internal/service/reporting.go:10-31 | accepted exactly on leased and installing tasks; a good verdict awaits confirmation under the same lease, a bad one fails the task with its detail, and the release is recounted |
| Effects.RejectTaskEffect | internal/service/workflow.go:61-75 | accepted exactly from the holder of a running lease on a task with an attempt, or of none on one nobody owns; the task is sent back, or failed over the limit, with the trimmed reason |
| Effects.FailTaskEffect | internal/service/rollback.go:38-66 | a repeated request changes nothing; else accepted exactly as a reject, or if final from the holder alone, and the release is recounted |
| Effects.UpdateTaskEffect | internal/service/service.go:122-152 | when an operator's ack, reject or complete is accepted, and the task it makes, with a minute of backoff per attempt and one more for a reject; the release is recounted |
| Effects.RetryTaskEffect | internal/service/reporting.go:92-109 | accepted exactly on failed and rejected tasks within the limit, which then wait in the queue with no backoff and their attempts |
| Effects.SettleEffect | internal/service/service.go:153-179 | after a task record the release counts exactly its completed and failed tasks, is rolled back over MaxFailures if automatic, else completed when all are, and nothing else changed |
| Guarantees.PanicsExactly | internal/domain/lifecycle.go:67-67 | RejectTask and a retryable FailTask shift by a negative count if and only if an empty agent acts on an unleased task nobody has ever claimed, FailTask also only if that failure is not already recorded |
| Guarantees.ClaimWithinCapExactly | internal/service/dispatch.go:71-130 | an accepted claim keeps its release within MaxConcurrent if and only if Release.Capacity was left |
| Witnesses.GateExceedsCap | internal/scheduler/limits.go:5-13 | from a state that registration and CreateRelease reach, two accepted claims exceed MaxConcurrent = 1 |
| Guarantees.RejectUnsettlesExactly | internal/service/service.go:134-137 | from a reachable state whose completed releases are settled, an accepted UpdateTask unsettles one if and only if it rejects a task of a completed release |
| Guarantees.FailUnsettlesExactly | internal/service/rollback.go:38-66 | from a reachable state whose completed releases are settled, FailTask on a task of one is accepted only without a name, and leaves all settled if and only if the failure is final and the policy is automatic with MaxFailures 0 |
| Guarantees.UnnamedRejectUnsettles | internal/service/workflow.go:61-75 | an accepted RejectTask on a task of a completed, settled release comes without a name and unsettles it |
| Guarantees.CompleteRollbackExactly | internal/service/rollback.go:126-161 | when CompleteRollback emits, when it also rolls the release back, and exactly when it errs after rolling the task back |
| Rollouts.CreateEffect | internal/service/service.go:96-111 | accepted exactly for good parameters; the release then has the caller's version, devices, batch size, cap, retry limit and policy and zero counts, each device has one untried task, and nothing else changed |
| Rollouts.CreatedRunsAtOnce | internal/service/service.go:104-109 | each device of a new release can get its task at once |
| Rollouts.SetReleaseEffect | internal/service/service.go:180-202 | pause exactly while not finished, resume exactly when paused, rollback always; each sets its own status and nothing else, and an unknown action changes nothing |
| Rollouts.PauseStopsDispatch | internal/service/service.go:184-188 | after a pause no device can get a task of the release at any time, and every other task exactly as before |
| Rollouts.NothingToClaim | internal/service/dispatch.go:89-92 | a claim on a device all of whose tasks belong to releases that take no claims is told there is no task |
| Rollouts.ResumeReopens | internal/service/service.go:189-193 | a resumed release is queued and takes claims if and only if it has fewer installs than MaxConcurrent |
| Rollouts.PauseThenResume | internal/service/service.go:184-193 | pause and resume only send the release back to the queue |
| Rollouts.RequestRollbackEffect | internal/service/workflow.go:101-115 | accepted exactly while the release is not finished; it is then pending with one more failure |
| Rollouts.QueueRollbackEffect | internal/service/rollback.go:68-100 | accepted exactly while the release is not finished; then exactly its completed and failed tasks wait for rollback, free and with the reason, it is pending, and nothing else changed, in any map order |
| Rollouts.ClaimRollbackEffect | internal/service/rollback.go:102-124 | no task exactly if none waits for rollback on the device, else the one that has waited longest, for five minutes, as one more attempt |
| Rollouts.CompleteRollbackEffect | internal/service/rollback.go:126-161 | the whole state after it: the task rolled back and free, the release with it if it was the last and still pending, and when it errs |
| Rollouts.RegisterEffect | internal/service/service.go:112-118 | accepted exactly with an id; the device is then known as given, online and seen now |
| Rollouts.HeartbeatEffect | internal/service/reporting.go:59-67 | accepted exactly for known devices; only the online flag and the time last seen change |
| Rollouts.OfflineGetsNothing | internal/service/dispatch.go:78-84 | a claim is told the device is offline if and only if its last heartbeat said so |
| Rollouts.DecisionMeans | internal/service/dispatch.go:18-45 | the gate's numbers add up, it gives a reason exactly when shut, and which |
| Rollouts.CapacityMeans | internal/domain/policy.go:10-25 | capacity is at most a batch and at most what the busy tasks leave of the cap, one of the two unless zero, and positive exactly while they are fewer than the cap |
| Releases.StatusesStaySound | internal/service/service.go:153-202 | in every reachable state no release is Installing, Awaiting or Failed, a preflight release has a task that was attempted, and no completed release has automatic rollback with a negative MaxFailures |
| Releases.QuietStep | internal/service/service.go:153-179 | tasks of a completed release hold no lease and wait for no rollback: every lawful entry keeps that |
| Releases.CompletedStaysQuiet | internal/service/service.go:153-179 | it holds of every reachable state |
| Releases.CompletedLeftExactly | internal/service/service.go:153-202 | in every run a release entry ends completion if and only if it is an order to roll back, or a reconciliation that finds more failed tasks than an automatic policy allows |
| Calls.CallLawful | internal/service/service.go:31-60 | every call of every command, by whichever agent, with whatever ids, visit orders and picks, emits only lawful entries |
| Calls.CallRunLogged | internal/service/service.go:31-60 | every state reached by calls, each of which a crash may cut off after any of its records, is the replay of a valid log |
| Completion.CallRevokesNothing | internal/domain/lifecycle.go:45-53 | from a reachable state only UpdateTask reject, and RejectTask and FailTask without a name, on that very task, take a completed task of a completed release back |
| Completion.StepSettlesExactly | internal/service/service.go:122-179 | a call, cut off or not, leaves the completed releases settled if and only if it is not one of those three that emitted its task record on a completed release, final failures under an automatic policy with MaxFailures 0 excepted when reconciled |
| Completion.RunSettledExactly | internal/service/service.go:122-179 | throughout a run of calls and crashes completed releases stay settled if and only if no step meets that guard |
| Completion.StepEndsCompletionExactly | internal/service/service.go:169-202 | from any reachable state a call takes a release out of completion if and only if it is an operator's order, or a reject or unnamed fail on one of its tasks after which the automatic policy counts too many failures |
| Completion.CompletionEndsExactly | internal/service/service.go:169-202 | the same at every step of every run of calls and crashes |
| Witnesses.RejectUnsettles | internal/service/service.go:134-137 | a reachable completed and settled release is unsettled by an accepted reject |
| Witnesses.UnnamedFailReopens | internal/service/rollback.go:38-66 | an unnamed agent fails a task of a reachable completed release, and it becomes rollback-pending without any order |
| Witnesses.UnnamedFailUnsettles | internal/service/rollback.go:38-66 | a reachable completed, settled release that an accepted FailTask without a name unsettles |
| Witnesses.UnnamedFailsCycle | internal/service/reporting.go:92-109 | FailTask without a name and RetryTask take a task that was never claimed to failed and back to queued with no attempt spent, and can do so again |
| Witnesses.UnownedRollback | internal/service/rollback.go:102-124 | a reachable state in which a task is rolling back and nobody owns it |
| Witnesses.RejectPanics | internal/service/workflow.go:61-75 | an unnamed agent's RejectTask panics on a task that was just created |
| Witnesses.CompleteRollbackErrs | internal/service/rollback.go:126-161 | a reachable state in which CompleteRollback logs the rolled back task and then errs, because the release was paused meanwhile |
| Witnesses.CheckFails | internal/recovery/check.go:8-18 | a reachable state that the recovery check refuses |
| Restart.QueueRollbackOutcome | internal/service/rollback.go:68-100 | accepted exactly along the release table; then exactly the completed and failed tasks of the release are queued and it is pending, in any map order |
| Restart.RollbackRestarts | internal/service/rollback.go:68-100 | crash after any number of its records, recover and rerun in any order: accepted again, with the statuses of the uninterrupted command |
| Reruns.RollbackAgain | internal/service/rollback.go:68-100 | on the heap: from any durable state recorded while or after QueueRollback ran, a new process accepts it again, and tasks and release have the statuses of the uninterrupted run |
| Reruns.RollbackLogs | internal/service/rollback.go:68-100 | an accepted QueueRollback of a live service leaves the log that the rerun starts from |
| Restart.CreateReleaseProgress | internal/service/service.go:96-111 | CreateRelease cut after n tasks: progress reports n tasks, inconsistent if and only if some are missing |
| Claimants.ClaimsLinearize | internal/service/dispatch.go:71-130 | any interleaving of N claimants ends in the log, state and results of the critical sections run in lock order |
| Claimants.SerialLeasesOnce | internal/service/dispatch.go:89-96 | no task is leased twice by concurrent claimants |
| Claimants.OneLeasePerSuccess | internal/service/dispatch.go:71-130 | the log holds exactly one lease record per claimant that was answered Ok under the lock |
| Journal.KeptIsGood | internal/store/durable.go:174-192 | cutting after the longest readable prefix leaves exactly those lines, all readable |
| Journal.LoadEncoded | internal/store/durable.go:170-196 | loading n appended records returns these n records, followed by whatever a torn tail decodes to |
| Journal.TornLoad | internal/store/durable.go:174-192 | a crash in the middle of an append loses at most the record being appended |
| Journal.AppendAfterTear | internal/store/durable.go:61-84 | append and reload after a tear return all records if and only if the crash did not lose just the final newline |
| Journal.SplitLines | internal/store/store.go:81-96 | FileStore's splitter yields exactly the nonempty lines |
| Encoding.EnvelopeCodecFaithful | internal/store/durable.go:61-84 | there is an encoding of whole log records that decodes what it encoded, keeps to one line, and decodes neither a cut record nor two glued ones |
| Store.DurableStore.Append | internal/store/durable.go:61-84 | whatever the log holds, one more record line, refused exactly without id, type or timestamp; on a sound log every partial write is recorded as a possible crash |
| Store.DurableStore.Snapshot | internal/store/durable.go:86-119 | the snapshot is replaced atomically and the log is untouched, whatever state is given; a sound one keeps the store sound |
| Store.DurableStore.TruncateFrom | internal/store/durable.go:199-208 | cuts the log at the offset and reports the bytes removed |
| Store.DurableStore.ScanLog | internal/store/durable.go:170-196 | the scanner loop: events, corrupt records, offsets and truncation against their recursive definitions |
| Store.DurableStore.LoadReport | internal/store/durable.go:132-197 | truncating: the records of the longest valid prefix, exactly those bytes left, exact counts and offsets; otherwise all readable records, an unchanged log, and the offsets of all unreadable lines and of the end of the last readable one |
| Store.ReloadIsClean | internal/store/durable.go:132-197 | a second load finds the same records, no corruption, and leaves the log alone |
| Store.ForeignLines | internal/store/durable.go:174-184 | a line that holds an encoded record is read if and only if it was written by this version and the record has an id, and then as that record |
| Store.SpanIsKept | internal/store/durable.go:188-191 | LastValidOffset is one past the kept bytes exactly when these lack a final newline |
| Store.BadOffsetsMean | internal/store/durable.go:170-190 | without truncation there is one corrupt offset for every unreadable line, and at each such a line starts |
| Recovery.RecoverForgetsSnapshot | internal/service/service.go:31-51 | on any sound snapshot, however new or stale, recovery gives the replay of the log from empty and the audit list is the log |
| Recovery.RecoverForgetsExactly | internal/service/service.go:31-51 | the maps are the replay from empty if and only if the snapshot holds no key the log lacks |
| Recovery.CrashRecovers | internal/service/service.go:31-60 | from any sound crash point load and replay give the projection of the surviving records |
| Recovery.RebuildsExactly | internal/service/service.go:31-51 | over a snapshot file that is sound if it loads, recovery gives the replay of the log if and only if the file loads or the log is empty |
| Entries.LogGrows | internal/service/service.go:52-60 | lawful changes, freshly stamped, extend a valid log to a valid log with the expected projection |
| Entries.EntryAdded | internal/service/service.go:52-60 | one emitted entry keeps ids new, times ordered, and the live keys covered by the log, even when live records are ahead of it |
| Entries.StampedLater | internal/service/service.go:52-60 | a log stamped by now is stamped by every later instant: the passing of time breaks nothing |
| Entries.PrefixSound | internal/service/service.go:31-60 | every prefix of a sound log is a sound log with the maps it replays to |
| Service.Service.Apply | internal/service/service.go:61-95 | adds to the audit list and installs a decoded copy under the record's id |
| Service.Service.Emit | internal/service/service.go:52-60 | append, apply and snapshot: one entry, under the id of its record, the live maps take exactly that change, and every durable state passed is sound |
| Service.Service.Reconcile | internal/service/service.go:153-179 | counts by a loop over the map and emits exactly the reconciled release |
| Service.Service.Settle | internal/service/service.go:149-150 | task event then reconciliation |
| Service.Service.CreateRelease | internal/service/service.go:96-111 | refuses exactly bad parameters; else, under fresh ids, a valid log grew by the release and one task per device in device order, and the live maps are its replay |
| Service.Service.RegisterDevice | internal/service/service.go:112-118 | the live maps stay the replay of a valid log that grew by exactly the records of `Commands.RegisterDevice`; a refusal leaves every object untouched |
| Service.Service.UpdateTask | internal/service/service.go:122-152 | the live maps stay the replay of a valid log that grew by exactly the records of `Commands.UpdateTask`; a refusal leaves every object untouched |
| Service.Service.SetRelease | internal/service/service.go:180-202 | the live maps stay the replay of a valid log that grew by exactly the records of `Commands.SetRelease`; a refusal leaves every object untouched |
| Service.Service.RenewLease | internal/service/rollback.go:15-36 | the live maps stay the replay of a valid log that grew by exactly the records of `Commands.RenewLease`; a refusal leaves every object untouched |
| Service.Service.FailTask | internal/service/rollback.go:38-66 | for any agent: the live maps stay the replay of a valid log that grew by exactly the records of `Commands.FailTask`; a refusal leaves every object untouched; a panic leaves the task changed in place and nothing logged, with log and disk fit for a restart |
| Service.Service.QueueRollback | internal/service/rollback.go:68-100 | the loop visits every task once although each emit swaps the map's objects and every snapshot has the release ahead of the log; at the end the live maps are the replay of a valid log again; the queued tasks are returned sorted by device |
| Service.Service.ClaimRollback | internal/service/rollback.go:102-124 | the candidate taken has waited longest; for any agent the live maps stay the replay of a valid log that grew by exactly its lease; a refusal leaves every object untouched |
| Service.Service.CompleteRollback | internal/service/rollback.go:126-161 | the live maps stay the replay of a valid log that grew by exactly the records of `Commands.CompleteRollback`, also when it errs after its first record; when it emits nothing every object is untouched |
| Service.Service.ReapExpiredDetailed | internal/service/rollback.go:163-199 | both loops keep the live maps the replay of a valid log; requeued + failed is the number of tasks changed; the touched releases are returned sorted |
| Service.Service.DispatchDecision | internal/service/dispatch.go:18-45 | the decision from counted active tasks, with its reason and capacity |
| Service.Service.EligibleTasks | internal/service/dispatch.go:47-69 | exactly the eligible tasks of the device, each once, in dispatch order |
| Service.Service.LeaseNext | internal/service/dispatch.go:95-119 | leases the head or changes nothing; the second look at the gate under the lock never fails |
| Service.Service.ClaimWithTTL | internal/service/dispatch.go:71-130 | the live maps stay the replay of a valid log that grew by exactly the lease of the least eligible task and the release's move to preflight; a refusal leaves every object untouched |
| Service.Service.ReportPreflight | internal/service/reporting.go:10-31 | the live maps stay the replay of a valid log that grew by exactly the records of `Commands.ReportPreflight`; a refusal leaves every object untouched |
| Service.Service.ConfirmInstall | internal/service/reporting.go:34-57 | the live maps stay the replay of a valid log that grew by exactly the records of `Commands.ConfirmInstall`; a refusal leaves every object untouched; idempotent on completed tasks |
| Service.Service.DeviceHeartbeat | internal/service/reporting.go:59-67 | the live maps stay the replay of a valid log that grew by exactly the records of `Commands.DeviceHeartbeat`; a refusal leaves every object untouched |
| Service.Service.ReleaseProgress | internal/service/reporting.go:69-90 | the counts and whether the index holds one task per device |
| Service.Service.RetryTask | internal/service/reporting.go:92-109 | the live maps stay the replay of a valid log that grew by exactly the records of `Commands.RetryTask`; a refusal leaves every object untouched; the release it reads always exists |
| Service.Service.StartTask | internal/service/workflow.go:46-59 | the live maps stay the replay of a valid log that grew by exactly the records of `Commands.StartTask`; a refusal leaves every object untouched |
| Service.Service.RejectTask | internal/service/workflow.go:61-75 | for any agent: the live maps stay the replay of a valid log that grew by exactly the records of `Commands.RejectTask`; a refusal leaves every object untouched; a panic leaves the task changed in place and nothing logged, with log and disk fit for a restart |
| Service.Service.ReportProgress | internal/service/workflow.go:77-99 | the live maps stay the replay of a valid log that grew by exactly the records of `Commands.ReportProgress`; a refusal leaves every object untouched |
| Service.Service.RequestRollback | internal/service/workflow.go:101-115 | the live maps stay the replay of a valid log that grew by exactly the records of `Commands.RequestRollback`; a refusal leaves every object untouched |
| Service.Service.Recover | internal/service/service.go:31-51 | whatever the files hold, the load error is ignored and the live maps are the snapshot's, or empty if it does not load, overlaid with the readable records in order; the audit list is those records unless there are none |
| Service.Service.RecoverAt | internal/service/service.go:31-60 | after a crash at any sound point, lost newlines included, the rebuilt live maps are the replay of the fully written records; the service is valid again unless just the newline was lost |
| Service.Service.Wait | internal/ports/fakeclock.go:9-9 | moving the clock keeps the service valid if and only if it does not move behind the last record or to the zero time |
| Service.Service.EveryCrashRecovers | internal/service/service.go:31-60 | every durable state any run of commands passed through is a sound crash point, and recovers to the replay of a valid, sound prefix of its log |
| Service.Open | internal/service/service.go:26-30 | on an empty disk the new service is valid and empty |
| Service.Reboot | internal/service/service.go:26-51 | a new process started on any durable state the dead service left, also after a panic, shows the replay of the surviving records, and is valid again unless just the newline was lost |
| Service.ClaimWaitCrash | internal/service/service.go:31-60 | a run that claims, waits, dies with any part of the next record written and comes back: the claim is there and the service is valid |
| Plan.CapacityOf | internal/domain/policy.go:10-25 | what is left of MaxConcurrent after the busy tasks of the list, between 0 and BatchSize |
| Plan.BuildPlan | internal/scheduler/plan.go:21-44 | one item for every ready task of every ready release and no other, sorted by priority, then by readiness time |
| Plan.PlanVersusGate | internal/scheduler/plan.go:21-44 | outside rolling-back releases the planned tasks are exactly the eligible tasks of their device with Release.Capacity left |
| Plan.PlanIsGateWhenNothingLeased | internal/domain/lifecycle.go:110-116 | with nothing leased the plan misses no eligible task |
| Plan.PlanMeans | internal/scheduler/plan.go:21-44 | a plan has one item for each task that could be dispatched and no other, each describing its task, ordered by how many tasks its release has under way, then by readiness |
| Audit.Build | internal/audit/summary.go:20-48 | total and counts of the events in the window, and the last events of some ordering by time |
| Audit.Merge | internal/audit/summary.go:50-83 | the merged totals, window and last 20 of both recent lists, and the summed counts, written into the first summary's maps in place; exactly what happens when its actors are also a map of aggregates |
| Audit.LastOfMerge | internal/audit/summary.go:77-81 | the last k of a merged order need only the last i and j of its parts, for i and j not below k |
| Audit.MergeIsHomomorphic | internal/audit/summary.go:50-83 | merging two summaries of one window is the summary of the joined log: totals and counts always, recent events up to ties in time |
| Audit.WindowCoversExactly | internal/audit/summary.go:53-58 | the announced window covers both parts if and only if they agree on which ends are open |
| Audit.BuiltMeans | internal/audit/summary.go:20-48 | the totals of a summary count the events from since to until: all, by type, by aggregate, and by trimmed nonempty text |
| Audit.RecentMeans | internal/audit/summary.go:36-47 | the recent list is in order of time, as long as the limit allows, 20 without one, and no event left out is later than one listed |
| Integrity.Check | internal/recovery/check.go:8-18 | passes if and only if every task names an existing release and a device |
| Integrity.CheckPassesExactly | internal/recovery/check.go:8-18 | on every reachable state it passes if and only if no task has an empty device name |

## Left out

- One command reads the clock once: the source reads it several times, which is the same under its `FakeClock` between two `Advance` calls.
- Map iteration orders, the order among equal elements of `sort.Slice`, and in `Commands` fresh ids are parameters.
- Ids.SequenceID.New: the counter does not wrap around at 2^64, and the wall clock never goes back.
- File-system failures: a store call fails only on an invalid event; mkdir, fsync, temporary files and the read and permission errors are not modelled.
- JSON: records are written by any codec that decodes what it encoded, writes nonempty lines without newline, and decodes neither a cut record nor two glued ones. `Encoding.EnvelopeCodecFaithful` shows there is one.
- CRLF line ends, the 8 MB line limit of the scanner, and `CorruptionDetail` texts (offsets are kept).
- Service.Service.ClaimWithTTL: the class runs it as one step; the mutex and interleavings are in `Claimants`, on values.
- Unlocked commands racing with each other: each command other than a claim is one step, apart from its crash points.
- Service.Service.CreateRelease: the returned records of this and other commands are not modelled, only ids and errors.
- Audit.Merge: the map of event types is another map than the other two; the sharing of backing arrays between `Recent` slices is not modelled.
- Service.Service.RejectTask: what commands do after it panicked, until the next restart.
- Service.Service.FailTask: the same.
- Plan.BuildPlan: visits releases in any order, since the order of `ListReleases` shows only among ties of the final sort.
- `MemoryStore` and its shared maps, `FileStore.Append` and `Load`, export and import, journal statistics.
- HTTP, CLI, configuration, the ticker goroutine, metrics, health, pagination, `GroupByDevice`, `ReleasePlan`, `Release.Recount` and the progress rates built on it.
- Pause windows and batch windows: no command reads them for dispatch.
