/** The records of internal/domain and their lifecycle rules, as values. */
module Domain {

  /** Nanoseconds; 0 is the instant for which time.Time.IsZero holds. */
  type Time = int
  const ZERO_TIME: Time := 0
  const SECOND: int := 1_000_000_000
  const MINUTE: int := 60 * SECOND
  const HOUR: int := 60 * MINUTE

  datatype TaskStatus =
    | TaskQueued | TaskLeased | TaskInstalling | TaskAwaiting | TaskCompleted
    | TaskRejected | TaskFailed | TaskRollbackQueued | TaskRollingBack | TaskRolledBack

  datatype ReleaseStatus =
    | StatusQueued | StatusPreflight | StatusInstalling | StatusAwaiting | StatusCompleted
    | StatusPaused | StatusRollbackPending | StatusRolledBack | StatusFailed

  datatype RollbackPolicy = RollbackPolicy(maxFailures: int, auto: bool)

  datatype Release = Release(
    id: string, version: string, devices: seq<string>,
    batchSize: int, maxConcurrent: int, retryLimit: int, rollback: RollbackPolicy,
    status: ReleaseStatus, createdAt: Time, updatedAt: Time, completed: int, failed: int)

  datatype Device = Device(
    id: string, firmware: string, capabilities: seq<string>,
    registeredAt: Time, lastSeen: Time, online: bool)

  datatype Task = Task(
    id: string, releaseId: string, deviceId: string, status: TaskStatus,
    leaseOwner: string, leaseUntil: Time, attempts: int,
    nextRetry: Time, updatedAt: Time, error: string)

  /** The error returns of the service. Panic is a nil dereference or a negative shift. */
  datatype Error =
    | NotFound | Conflict | NoTask | LeaseOwner | LeaseExpired | LeaseNotOwned
    | InvalidTaskTransition | InvalidReleaseTransition | BadArgument | DeviceOffline
    | TaskNotLeased | TaskNotActive | UnknownAction | BackoffActive | RetryLimitReached
    | ReleaseMissing | CannotPause | NotPaused | BadEvent | Panic

  datatype Verdict = Ok | Refused(why: Error)

  // ---- tasks

  predicate ValidTransition(from: TaskStatus, to: TaskStatus) {
    match from
    case TaskQueued => to == TaskLeased
    case TaskLeased => to == TaskInstalling || to == TaskRejected
    case TaskInstalling => to == TaskAwaiting || to == TaskCompleted || to == TaskFailed
    case TaskAwaiting => to == TaskCompleted || to == TaskFailed
    case TaskRejected => to == TaskQueued || to == TaskFailed
    case TaskCompleted => to == TaskRollbackQueued
    case TaskFailed => to == TaskRollbackQueued
    case TaskRollbackQueued => to == TaskRollingBack
    case TaskRollingBack => to == TaskRolledBack || to == TaskFailed
    case TaskRolledBack => false
  }

  /** Whether Task.Transition succeeds: staying put is always allowed. */
  predicate CanMove(from: TaskStatus, to: TaskStatus) {
    from == to || ValidTransition(from, to)
  }

  function VerifyLease(t: Task, agent: string, now: Time): Verdict {
    if t.leaseOwner != agent then Refused(LeaseOwner)
    else if t.leaseUntil != ZERO_TIME && now > t.leaseUntil then Refused(LeaseExpired)
    else Ok
  }

  function Released(t: Task): Task {
    t.(leaseOwner := "", leaseUntil := ZERO_TIME)
  }

  predicate RetryReady(t: Task, now: Time) {
    t.nextRetry == ZERO_TIME || now >= t.nextRetry
  }

  /** The outcome of Task.Lease: a Rejected task passes the first guard and is refused by Transition. */
  function LeaseVerdict(t: Task, agent: string, now: Time): Verdict {
    if agent == "" then Refused(BadArgument)
    else if t.status != TaskQueued && t.status != TaskRejected then Refused(InvalidTaskTransition)
    else if !RetryReady(t, now) then Refused(BackoffActive)
    else if !CanMove(t.status, TaskLeased) then Refused(InvalidTaskTransition)
    else Ok
  }

  function Leased(t: Task, agent: string, now: Time, ttl: int): Task {
    t.(status := TaskLeased, leaseOwner := agent, leaseUntil := now + ttl,
       attempts := t.attempts + 1, updatedAt := now)
  }

  function Min(a: int, b: int): int { if a < b then a else b }

  function Pow2(n: nat): int { if n == 0 then 1 else 2 * Pow2(n - 1) }

  /** ScheduleRetry shifts by attempts - 1, which Go refuses (panics on) when negative. */
  predicate CanScheduleRetry(t: Task, limit: int) {
    t.attempts > limit || t.attempts >= 1
  }

  function RetryScheduled(t: Task, now: Time, base: int, limit: int, reason: string): Task
    requires CanScheduleRetry(t, limit)
  {
    var u := Released(t).(error := reason, updatedAt := now);
    if t.attempts > limit then u.(status := TaskFailed, nextRetry := ZERO_TIME)
    else u.(status := TaskRejected, nextRetry := now + base * Pow2(Min(t.attempts - 1, 8)))
  }

  /** How far ScheduleRetry gets before it panics on a negative shift. */
  function Stranded(t: Task, now: Time, reason: string): Task {
    Released(t).(status := TaskRejected, error := reason, updatedAt := now)
  }

  predicate IsActive(t: Task) {
    t.status == TaskLeased || t.status == TaskInstalling || t.status == TaskAwaiting || t.status == TaskRollingBack
  }

  /** Leased, installing or awaiting: what Release.Capacity counts against MaxConcurrent. */
  predicate IsBusy(t: Task) {
    t.status == TaskLeased || t.status == TaskInstalling || t.status == TaskAwaiting
  }

  predicate LeaseExpiredAt(t: Task, now: Time) {
    t.leaseUntil != ZERO_TIME && now > t.leaseUntil
  }

  // ---- releases

  predicate ValidReleaseTransition(from: ReleaseStatus, to: ReleaseStatus) {
    from == to ||
    match from
    case StatusQueued => to in {StatusPreflight, StatusPaused, StatusRollbackPending, StatusFailed}
    case StatusPreflight => to in {StatusInstalling, StatusPaused, StatusRollbackPending, StatusFailed}
    case StatusInstalling => to in {StatusAwaiting, StatusPaused, StatusRollbackPending, StatusFailed, StatusCompleted}
    case StatusAwaiting => to in {StatusInstalling, StatusPaused, StatusRollbackPending, StatusFailed, StatusCompleted}
    case StatusPaused => to in {StatusQueued, StatusRollbackPending, StatusFailed}
    case StatusRollbackPending => to in {StatusRolledBack, StatusFailed}
    case _ => false
  }

  predicate Terminal(r: Release) {
    r.status == StatusCompleted || r.status == StatusRolledBack || r.status == StatusFailed
  }

  predicate CanPause(r: Release) {
    !Terminal(r)
  }
}
