/**
  What each service command does to a projected state: its error return and the records it emits, in order.
  A command reads the clock as one instant. Map iteration orders, tie-breaking picks and fresh ids are arguments.
 */
module Commands {
  import opened Domain
  import opened Projection
  import opened Text

  datatype Outcome = Outcome(verdict: Verdict, changes: seq<Change>)

  datatype TaskAction = Ack | Reject | Complete | UnknownTaskAction
  datatype ReleaseAction = Pause | Resume | Rollback | UnknownReleaseAction

  function Refuse(why: Error): Outcome { Outcome(Refused(why), []) }
  function Accept(changes: seq<Change>): Outcome { Outcome(Ok, changes) }

  // ---- counting

  function TasksOf(s: State, rid: string): set<string> {
    set k | k in s.tasks && s.tasks[k].releaseId == rid
  }

  function WithStatus(s: State, rid: string, status: TaskStatus): set<string> {
    set k | k in s.tasks && s.tasks[k].releaseId == rid && s.tasks[k].status == status
  }

  // ---- reconcile

  /** The release record reconcile writes; a failure overflow overrides completion. */
  function Reconciled(s: State, rid: string, now: Time): Release
    requires rid in s.releases
  {
    var r := s.releases[rid];
    var done, fail := |WithStatus(s, rid, TaskCompleted)|, |WithStatus(s, rid, TaskFailed)|;
    var status := if done == |r.devices| then StatusCompleted else r.status;
    r.(completed := done, failed := fail, updatedAt := now,
       status := if fail > r.rollback.maxFailures && r.rollback.auto then StatusRollbackPending else status)
  }

  function Reconcile(s: State, rid: string, now: Time): seq<Change> {
    if rid in s.releases then [Rewritten(Reconciled(s, rid, now))] else []
  }

  /** Emit the task, then reconcile its release. */
  function Settle(s: State, t: Task, now: Time): seq<Change> {
    [Updated(t)] + Reconcile(Apply(s, Updated(t)), t.releaseId, now)
  }

  // ---- devices and releases

  function RegisterDevice(id: string, firmware: string, capabilities: seq<string>, now: Time): Outcome {
    if id == "" then Refuse(BadArgument)
    else Accept([Change(DeviceRegistered, DeviceData(Device(id, firmware, capabilities, now, now, true)))])
  }

  function DeviceHeartbeat(s: State, id: string, online: bool, now: Time): Outcome {
    if id !in s.devices then Refuse(NotFound)
    else Accept([Change(DeviceRegistered, DeviceData(s.devices[id].(online := online, lastSeen := now)))])
  }

  function NewTask(id: string, rid: string, device: string, now: Time): Task {
    Task(id, rid, device, TaskQueued, "", ZERO_TIME, 0, ZERO_TIME, now, "")
  }

  function NewRelease(version: string, devices: seq<string>, batch: int, conc: int, retries: int,
                      policy: RollbackPolicy, rid: string, now: Time): Release {
    Release(rid, version, devices, batch, conc, retries, policy, StatusQueued, now, now, 0, 0)
  }

  function NewTasks(rid: string, devices: seq<string>, tids: seq<string>, now: Time): (cs: seq<Change>)
    requires |tids| == |devices|
  {
    seq(|devices|, i requires 0 <= i < |devices| =>
      Change(TaskCreated, TaskData(NewTask(tids[i], rid, devices[i], now))))
  }

  predicate BadRelease(version: string, devices: seq<string>, batch: int, conc: int, retries: int) {
    version == "" || devices == [] || batch < 1 || conc < 1 || retries < 0
  }

  function CreateRelease(version: string, devices: seq<string>, batch: int, conc: int, retries: int,
                         policy: RollbackPolicy, rid: string, tids: seq<string>, now: Time): Outcome
    requires !BadRelease(version, devices, batch, conc, retries) ==> |tids| == |devices|
  {
    if BadRelease(version, devices, batch, conc, retries) then Refuse(BadArgument)
    else
      var r := NewRelease(version, devices, batch, conc, retries, policy, rid, now);
      Accept([Change(ReleaseCreated, ReleaseData(r))] + NewTasks(rid, devices, tids, now))
  }

  function SetRelease(s: State, id: string, action: ReleaseAction, now: Time): Outcome {
    if id !in s.releases then Refuse(NotFound)
    else
      var r := s.releases[id].(updatedAt := now);
      match action
      case Pause => if CanPause(r) then Accept([Rewritten(r.(status := StatusPaused))]) else Refuse(CannotPause)
      case Resume => if r.status == StatusPaused then Accept([Rewritten(r.(status := StatusQueued))])
        else Refuse(NotPaused)
      case Rollback => Accept([Rewritten(r.(status := StatusRollbackPending))])
      case UnknownReleaseAction => Refuse(UnknownAction)
  }

  function RequestRollback(s: State, id: string, now: Time): Outcome {
    if id !in s.releases then Refuse(NotFound)
    else
      var r := s.releases[id];
      if Terminal(r) && r.status != StatusCompleted then Refuse(Conflict)
      else if !ValidReleaseTransition(r.status, StatusRollbackPending) then Refuse(InvalidReleaseTransition)
      else Accept([Rewritten(r.(status := StatusRollbackPending, updatedAt := now, failed := r.failed + 1))])
  }

  // ---- operator commands on a task

  datatype Attempt = Denied(why: Error) | Done(task: Task)

  /** The switch of UpdateTask on one task. */
  function Acted(t: Task, action: TaskAction, reason: string, now: Time): Attempt {
    match action
    case Ack =>
      if t.status != TaskLeased then Denied(TaskNotLeased)
      else Done(t.(status := TaskInstalling, updatedAt := now))
    case Reject =>
      Done(t.(status := TaskRejected, error := reason, nextRetry := now + (t.attempts + 1) * MINUTE, updatedAt := now))
    case Complete =>
      if t.status != TaskInstalling && t.status != TaskAwaiting then Denied(TaskNotActive)
      else Done(Released(t).(status := TaskCompleted, updatedAt := now))
    case UnknownTaskAction => Denied(UnknownAction)
  }

  function UpdateTask(s: State, id: string, action: TaskAction, reason: string, now: Time): Outcome {
    if id !in s.tasks then Refuse(NotFound)
    else
      match Acted(s.tasks[id], action, reason, now)
      case Denied(e) => Refuse(e)
      case Done(u) => Accept(Settle(s, u, now))
  }

  function ReportPreflight(s: State, id: string, ok: bool, detail: string, now: Time): Outcome {
    if id !in s.tasks then Refuse(NotFound)
    else
      var t := s.tasks[id].(updatedAt := now);
      if t.status != TaskInstalling && t.status != TaskLeased then Refuse(Conflict)
      else if ok then Accept(Settle(s, t.(status := TaskAwaiting, error := ""), now))
      else Accept(Settle(s, t.(status := TaskFailed, error := detail), now))
  }

  function RetryTask(s: State, id: string, now: Time): Outcome {
    if id !in s.tasks then Refuse(NotFound)
    else
      var t := s.tasks[id];
      if t.status != TaskFailed && t.status != TaskRejected then Refuse(Conflict)
      else if t.releaseId !in s.releases then Refuse(Panic)
      else if t.attempts > s.releases[t.releaseId].retryLimit then Refuse(RetryLimitReached)
      else Accept([Updated(t.(status := TaskQueued, nextRetry := now, error := "", updatedAt := now))])
  }

  // ---- agent commands on a task

  function StartTask(s: State, id: string, agent: string, now: Time): Outcome {
    if id !in s.tasks then Refuse(NotFound)
    else
      var t := s.tasks[id];
      match VerifyLease(t, agent, now)
      case Refused(e) => Refuse(e)
      case Ok =>
        if !CanMove(t.status, TaskInstalling) then Refuse(InvalidTaskTransition)
        else Accept([Updated(t.(status := TaskInstalling, updatedAt := now))])
  }

  function RejectTask(s: State, id: string, agent: string, reason: string, now: Time): Outcome {
    if id !in s.tasks then Refuse(NotFound)
    else
      var t := s.tasks[id];
      match VerifyLease(t, agent, now)
      case Refused(e) => Refuse(e)
      case Ok =>
        if t.releaseId !in s.releases then Refuse(ReleaseMissing)
        else
          var limit := s.releases[t.releaseId].retryLimit;
          if !CanScheduleRetry(t, limit) then Refuse(Panic)
          else Accept([Updated(RetryScheduled(t, now, SECOND, limit, TrimSpace(reason)))])
  }

  function FailTask(s: State, id: string, agent: string, reason: string, retryable: bool, now: Time): Outcome {
    if id !in s.tasks then Refuse(NotFound)
    else
      var t := s.tasks[id];
      if t.status == TaskFailed && t.error == reason then Accept([])
      else
        match VerifyLease(t, agent, now)
        case Refused(e) => Refuse(e)
        case Ok =>
          if t.releaseId !in s.releases then Refuse(ReleaseMissing)
          else
            var limit := s.releases[t.releaseId].retryLimit;
            if !retryable then
              Accept(Settle(s, Released(t).(status := TaskFailed, error := reason, updatedAt := now), now))
            else if !CanScheduleRetry(t, limit) then Refuse(Panic)
            else Accept(Settle(s, RetryScheduled(t, now, SECOND, limit, reason), now))
  }

  function ReportProgress(s: State, id: string, agent: string, percent: int, detail: string, now: Time): Outcome {
    if percent < 0 || percent > 100 then Refuse(BadArgument)
    else if id !in s.tasks then Refuse(NotFound)
    else
      var t := s.tasks[id];
      match VerifyLease(t, agent, now)
      case Refused(e) => Refuse(e)
      case Ok =>
        if t.status != TaskInstalling && t.status != TaskAwaiting then Refuse(Conflict)
        else Accept([Updated(t.(error := if detail != "" then detail else t.error,
                                status := if percent == 100 then TaskAwaiting else t.status, updatedAt := now))])
  }

  function ConfirmInstall(s: State, id: string, agent: string, now: Time): Outcome {
    if id !in s.tasks then Refuse(NotFound)
    else
      var t := s.tasks[id];
      if t.status == TaskCompleted then Accept([])
      else if t.leaseOwner != agent || now > t.leaseUntil then Refuse(LeaseNotOwned)
      else if t.status != TaskAwaiting then Refuse(Conflict)
      else Accept(Settle(s, Released(t).(status := TaskCompleted, updatedAt := now), now))
  }

  predicate BadTtl(ttl: int) { ttl <= 0 || ttl > HOUR }

  function RenewLease(s: State, id: string, agent: string, ttl: int, now: Time): Outcome {
    if BadTtl(ttl) then Refuse(BadArgument)
    else if id !in s.tasks then Refuse(NotFound)
    else
      var t := s.tasks[id];
      match VerifyLease(t, agent, now)
      case Refused(e) => Refuse(e)
      case Ok =>
        if !IsActive(t) then Refuse(Conflict)
        else Accept([Updated(t.(leaseUntil := now + ttl, updatedAt := now))])
  }

  // ---- sweeps over the whole task map

  datatype Sweep = Reaping | Reverting(rid: string, reason: string)
  datatype Effect = Skip | Write(task: Task)

  /** What one iteration of the reaper's or of QueueRollback's loop does to the task it visits. */
  function Swept(s: State, w: Sweep, t: Task, now: Time): Effect {
    match w
    case Reaping =>
      if !IsActive(t) || !LeaseExpiredAt(t, now) || t.releaseId !in s.releases then Skip
      else
        var u := Released(t).(error := "lease expired", updatedAt := now);
        if t.status == TaskRollingBack then Write(u.(status := TaskRollbackQueued))
        else if t.attempts > s.releases[t.releaseId].retryLimit then Write(u.(status := TaskFailed))
        else Write(u.(status := TaskQueued, nextRetry := now + t.attempts * MINUTE))
    case Reverting(rid, reason) =>
      if t.releaseId != rid || (t.status != TaskCompleted && t.status != TaskFailed) then Skip
      else Write(Released(t).(status := TaskRollbackQueued, error := reason, updatedAt := now))
  }

  /** The records a sweep emits when it visits the keys of order. */
  function SweepLoop(s: State, w: Sweep, order: seq<string>, now: Time): seq<Change>
    requires forall k :: k in order ==> k in s.tasks
  {
    if order == [] then []
    else
      var k := order[|order| - 1];
      var before := SweepLoop(s, w, order[..|order| - 1], now);
      match Swept(s, w, s.tasks[k], now)
      case Skip => before
      case Write(u) => before + [Updated(u)]
  }

  predicate Distinct(order: seq<string>) {
    forall i, j :: 0 <= i < j < |order| ==> order[i] != order[j]
  }

  function KeysOf(order: seq<string>): set<string> { set k | k in order }

  /** An order in which `range` may visit the given keys. */
  predicate Visits(order: seq<string>, keys: set<string>) {
    Distinct(order) && KeysOf(order) == keys
  }

  function QueueRollback(s: State, rid: string, reason: string, order: seq<string>, now: Time): Outcome
    requires forall k :: k in order ==> k in s.tasks
  {
    if rid !in s.releases then Refuse(NotFound)
    else if !ValidReleaseTransition(s.releases[rid].status, StatusRollbackPending) then Refuse(InvalidReleaseTransition)
    else Accept(SweepLoop(s, Reverting(rid, reason), order, now)
                + [Rewritten(s.releases[rid].(status := StatusRollbackPending, updatedAt := now))])
  }

  /** The tasks the reaper changes, and their releases. */
  function Reaped(s: State, now: Time): set<string> {
    set k | k in s.tasks && Swept(s, Reaping, s.tasks[k], now).Write?
  }

  function ReapedReleases(s: State, now: Time): set<string> {
    set k | k in Reaped(s, now) :: s.tasks[k].releaseId
  }

  function ReconcileLoop(s: State, rids: seq<string>, now: Time): seq<Change> {
    if rids == [] then []
    else ReconcileLoop(s, rids[..|rids| - 1], now) + Reconcile(s, rids[|rids| - 1], now)
  }

  function ReapExpired(s: State, order: seq<string>, rids: seq<string>, now: Time): Outcome
    requires forall k :: k in order ==> k in s.tasks
  {
    var sweep := SweepLoop(s, Reaping, order, now);
    Accept(sweep + ReconcileLoop(ApplyAll(s, sweep), rids, now))
  }

  // ---- rollback of one task

  function RollbackCandidates(s: State, device: string): set<string> {
    set k | k in s.tasks && s.tasks[k].deviceId == device && s.tasks[k].status == TaskRollbackQueued
  }

  /** A candidate that an unstable sort by UpdatedAt may put first. */
  predicate Oldest(s: State, candidates: set<string>, pick: string) {
    pick in candidates && pick in s.tasks &&
    forall k :: k in candidates && k in s.tasks ==> s.tasks[pick].updatedAt <= s.tasks[k].updatedAt
  }

  function ClaimRollback(s: State, device: string, agent: string, pick: string, now: Time): Outcome
    requires RollbackCandidates(s, device) != {} ==> pick in s.tasks
  {
    if RollbackCandidates(s, device) == {} then Refuse(NoTask)
    else
      var t := s.tasks[pick];
      Accept([Updated(t.(status := TaskRollingBack, leaseOwner := agent, leaseUntil := now + 5 * MINUTE,
                         attempts := t.attempts + 1, updatedAt := now))])
  }

  predicate AllReverted(s: State, rid: string) {
    forall k :: k in s.tasks && s.tasks[k].releaseId == rid ==>
      s.tasks[k].status == TaskRolledBack || s.tasks[k].status == TaskQueued || s.tasks[k].status == TaskRejected
  }

  /** Once no task of the release is left to roll back, the release is rolled back, if its status allows it. */
  function Finish(s: State, rid: string, now: Time): Outcome {
    if !AllReverted(s, rid) then Accept([])
    else if rid !in s.releases then Refuse(Panic)
    else if !ValidReleaseTransition(s.releases[rid].status, StatusRolledBack) then Refuse(InvalidReleaseTransition)
    else Accept([Rewritten(s.releases[rid].(status := StatusRolledBack, updatedAt := now))])
  }

  function CompleteRollback(s: State, id: string, agent: string, now: Time): Outcome {
    if id !in s.tasks then Refuse(NotFound)
    else
      var t := s.tasks[id];
      if t.status == TaskRolledBack then Accept([])
      else
        match VerifyLease(t, agent, now)
        case Refused(e) => Refuse(e)
        case Ok =>
          if !CanMove(t.status, TaskRolledBack) then Refuse(InvalidTaskTransition)
          else
            var c := Updated(Released(t).(status := TaskRolledBack, updatedAt := now));
            var end := Finish(Apply(s, c), t.releaseId, now);
            Outcome(end.verdict, [c] + end.changes)
  }
}
