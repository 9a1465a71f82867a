/**
  The task and release state machines as one relation on single records, the log entries they allow,
  and what every log made of such entries keeps.
 */
module Lifecycle {
  import opened Domain
  import opened Projection
  import opened Commands
  import opened Dispatch

  // ---- the moves of one task

  predicate SameLease(t: Task, u: Task) {
    u.leaseOwner == t.leaseOwner && u.leaseUntil == t.leaseUntil
  }

  predicate NoLease(t: Task) { t.leaseOwner == "" && t.leaseUntil == ZERO_TIME }

  predicate FreshLease(u: Task, now: Time) { now < u.leaseUntil <= now + HOUR }

  predicate Grants(t: Task, u: Task, now: Time) {
    && t.status == TaskQueued && u.status == TaskLeased && u.leaseOwner != "" && FreshLease(u, now)
    && u.attempts == t.attempts + 1
  }

  predicate Renews(t: Task, u: Task, now: Time) {
    && IsActive(t) && u.status == t.status && u.leaseOwner == t.leaseOwner && FreshLease(u, now)
    && u.attempts == t.attempts
  }

  predicate Advances(t: Task, u: Task) {
    && IsBusy(t) && SameLease(t, u) && u.attempts == t.attempts
    && ((u.status == TaskInstalling && t.status != TaskAwaiting) || u.status == TaskAwaiting)
  }

  predicate Finishes(t: Task, u: Task) {
    && (t.status == TaskInstalling || t.status == TaskAwaiting) && u.status == TaskCompleted
    && NoLease(u) && u.attempts == t.attempts
  }

  predicate FailsPreflight(t: Task, u: Task) {
    && (t.status == TaskInstalling || t.status == TaskLeased) && u.status == TaskFailed
    && SameLease(t, u) && u.attempts == t.attempts
  }

  /** Task.ScheduleRetry, or a permanent FailTask, by the lease owner. */
  predicate BacksOff(t: Task, u: Task, limit: int) {
    && t.leaseOwner != "" && NoLease(u) && u.attempts == t.attempts
    && (u.status == TaskFailed || (u.status == TaskRejected && t.attempts <= limit))
  }

  /** The same by an agent without a name, whom VerifyLease lets act on tasks nobody owns. */
  predicate Disowns(t: Task, u: Task, limit: int) {
    && t.leaseOwner == "" && NoLease(u) && u.attempts == t.attempts
    && (u.status == TaskFailed || (u.status == TaskRejected && t.attempts <= limit))
  }

  predicate Requeues(t: Task, u: Task, limit: int) {
    && (t.status == TaskFailed || t.status == TaskRejected) && u.status == TaskQueued
    && SameLease(t, u) && u.attempts == t.attempts <= limit
  }

  predicate Expires(t: Task, u: Task, limit: int, now: Time) {
    && IsActive(t) && LeaseExpiredAt(t, now) && NoLease(u) && u.attempts == t.attempts
    && u.status == (if t.status == TaskRollingBack then TaskRollbackQueued
                    else if t.attempts > limit then TaskFailed else TaskQueued)
  }

  predicate QueuesRollback(t: Task, u: Task) {
    && (t.status == TaskCompleted || t.status == TaskFailed) && u.status == TaskRollbackQueued
    && NoLease(u) && u.attempts == t.attempts
  }

  /** Unlike a claim, it does not ask for the name of the agent. */
  predicate ClaimsRollback(t: Task, u: Task, now: Time) {
    t.status == TaskRollbackQueued && u.status == TaskRollingBack && FreshLease(u, now) && u.attempts == t.attempts + 1
  }

  predicate RollsBack(t: Task, u: Task) {
    t.status == TaskRollingBack && u.status == TaskRolledBack && NoLease(u) && u.attempts == t.attempts
  }

  /** UpdateTask("reject"): no guard on status or owner, and the lease fields stay. */
  predicate Overrides(t: Task, u: Task) {
    u.status == TaskRejected && SameLease(t, u) && u.attempts == t.attempts
  }

  predicate SameTask(t: Task, u: Task) {
    u.id == t.id && u.releaseId == t.releaseId && u.deviceId == t.deviceId
  }

  predicate TaskStep(t: Task, u: Task, limit: int, now: Time) {
    SameTask(t, u) &&
    (Grants(t, u, now) || Renews(t, u, now) || Advances(t, u) || Finishes(t, u) || FailsPreflight(t, u)
     || BacksOff(t, u, limit) || Disowns(t, u, limit) || Requeues(t, u, limit) || Expires(t, u, limit, now)
     || QueuesRollback(t, u) || ClaimsRollback(t, u, now) || RollsBack(t, u) || Overrides(t, u))
  }

  // ---- the moves of one release

  predicate Recounts(s: State, q: Release, now: Time)
    requires q.id in s.releases
  {
    q == Reconciled(s, q.id, now)
  }

  /** Some task of the release has been claimed. */
  predicate Tried(s: State, rid: string) {
    exists k :: k in s.tasks && s.tasks[k].releaseId == rid && s.tasks[k].attempts >= 1
  }

  predicate Opens(s: State, r: Release, q: Release, now: Time) {
    r.status == StatusQueued && q == r.(status := StatusPreflight, updatedAt := now) && Tried(s, r.id)
  }

  predicate Pauses(r: Release, q: Release, now: Time) {
    !Terminal(r) && q == r.(status := StatusPaused, updatedAt := now)
  }

  predicate Resumes(r: Release, q: Release, now: Time) {
    r.status == StatusPaused && q == r.(status := StatusQueued, updatedAt := now)
  }

  /** SetRelease, from any status, and QueueRollback, from those the table allows. */
  predicate OrdersRollback(r: Release, q: Release, now: Time) {
    q == r.(status := StatusRollbackPending, updatedAt := now)
  }

  predicate RequestsRollback(r: Release, q: Release, now: Time) {
    && ValidReleaseTransition(r.status, StatusRollbackPending)
    && q == r.(status := StatusRollbackPending, updatedAt := now, failed := r.failed + 1)
  }

  predicate FinishesRollback(s: State, r: Release, q: Release, now: Time) {
    && (r.status == StatusRollbackPending || r.status == StatusRolledBack) && AllReverted(s, r.id)
    && q == r.(status := StatusRolledBack, updatedAt := now)
  }

  predicate ReleaseStep(s: State, r: Release, q: Release, now: Time)
    requires q.id in s.releases
  {
    || Recounts(s, q, now) || Opens(s, r, q, now) || Pauses(r, q, now) || Resumes(r, q, now)
    || OrdersRollback(r, q, now) || RequestsRollback(r, q, now) || FinishesRollback(s, r, q, now)
  }

  // ---- the entries a log may hold

  predicate SameTerms(r: Release, q: Release) {
    q == r.(status := q.status, updatedAt := q.updatedAt, completed := q.completed, failed := q.failed)
  }

  predicate LawfulTaskWrite(s: State, u: Task, now: Time) {
    u.id in s.tasks && s.tasks[u.id].releaseId in s.releases &&
    var t, r := s.tasks[u.id], s.releases[s.tasks[u.id].releaseId];
    && TaskStep(t, u, r.retryLimit, now)
    // only an open gate grants a lease
    && (t.status == TaskQueued && u.status == TaskLeased ==> DecisionFor(s, t.releaseId).allowed)
    // the rollback of a completed release has to be ordered first
    && (r.status == StatusCompleted ==> !QueuesRollback(t, u))
  }

  predicate LawfulReleaseWrite(s: State, q: Release, now: Time) {
    q.id in s.releases && SameTerms(s.releases[q.id], q) && ReleaseStep(s, s.releases[q.id], q, now)
  }

  predicate LawfulNewRelease(s: State, r: Release) {
    && r.id != "" && r.id !in s.releases && TasksOf(s, r.id) == {} && r.status == StatusQueued
    && r.devices != [] && r.batchSize >= 1 && r.maxConcurrent >= 1 && r.retryLimit >= 0
  }

  predicate LawfulNewTask(s: State, t: Task) {
    && t.id !in s.tasks && t.releaseId in s.releases
    && t == NewTask(t.id, t.releaseId, t.deviceId, t.updatedAt)
    && var r, n := s.releases[t.releaseId], |TasksOf(s, t.releaseId)|;
       r.status == StatusQueued && n < |r.devices| && t.deviceId == r.devices[n]
  }

  predicate Lawful(s: State, c: Change, now: Time) {
    match c
    case Change(ReleaseCreated, ReleaseData(r)) => LawfulNewRelease(s, r)
    case Change(ReleaseUpdated, ReleaseData(q)) => LawfulReleaseWrite(s, q, now)
    case Change(DeviceRegistered, DeviceData(d)) => d.id != ""
    case Change(TaskCreated, TaskData(t)) => LawfulNewTask(s, t)
    case Change(TaskUpdated, TaskData(u)) => LawfulTaskWrite(s, u, now)
    case _ => false
  }

  predicate LawfulRun(s: State, cs: seq<Change>, now: Time) {
    cs == [] || (LawfulRun(s, cs[..|cs| - 1], now) && Lawful(ApplyAll(s, cs[..|cs| - 1]), cs[|cs| - 1], now))
  }

  function LastTime(log: seq<Event>): Time { if log == [] then ZERO_TIME else log[|log| - 1].at }

  /** A new id, and a time that does not go back. */
  predicate NextStamp(log: seq<Event>, e: Event) {
    e.id != "" && e.at > ZERO_TIME && LastTime(log) <= e.at && forall i :: 0 <= i < |log| ==> log[i].id != e.id
  }

  /** A log each of whose entries was lawful in the state the entries before it project to. */
  predicate ValidLog(log: seq<Event>) {
    log == [] ||
    var n := |log| - 1;
    ValidLog(log[..n]) && NextStamp(log[..n], log[n]) && Lawful(Replay(log[..n]), ChangeOf(log[n]), log[n].at)
  }

  // ---- what every reachable state satisfies

  /** Lease discipline and retry budget of one task. */
  predicate TaskSound(t: Task, limit: int, now: Time) {
    && t.attempts >= 0
    && (t.status == TaskQueued ==> t.attempts <= limit)
    && (t.leaseOwner != "" ==> t.leaseUntil != ZERO_TIME)
    && (t.leaseUntil != ZERO_TIME ==> t.attempts >= 1 && 0 < t.leaseUntil <= now + HOUR)
    && (IsActive(t) ==> t.leaseUntil != ZERO_TIME)
    // only a rollback is ever leased to an agent without a name, and only a reject and a retry keep such a lease
    && (t.leaseOwner == "" && t.leaseUntil != ZERO_TIME ==>
      t.status == TaskRollingBack || t.status == TaskRejected || t.status == TaskQueued)
    && (t.status == TaskCompleted || t.status == TaskRolledBack || t.status == TaskRollbackQueued ==> NoLease(t))
  }

  predicate ReleaseSound(s: State, r: Release) {
    && r.devices != [] && r.batchSize >= 1 && r.maxConcurrent >= 1 && r.retryLimit >= 0
    && |TasksOf(s, r.id)| <= |r.devices|
  }

  /** Keys are ids, every task has its release, and every record is sound. */
  predicate Coherent(s: State, now: Time) {
    && (forall k :: k in s.releases ==> s.releases[k].id == k && k != "" && ReleaseSound(s, s.releases[k]))
    && (forall k :: k in s.devices ==> s.devices[k].id == k && k != "")
    && (forall k :: k in s.tasks ==>
          s.tasks[k].id == k && s.tasks[k].releaseId in s.releases &&
          TaskSound(s.tasks[k], s.releases[s.tasks[k].releaseId].retryLimit, now))
  }

  lemma TaskHasAttempts(s: State, id: string, now: Time)
    requires Coherent(s, now) && id in s.tasks
    ensures s.tasks[id].attempts >= 0
  {}

  lemma OwnerHasAttempts(s: State, id: string, now: Time)
    requires Coherent(s, now) && id in s.tasks
    ensures s.tasks[id].leaseOwner != "" ==> s.tasks[id].attempts >= 1
  {}

  lemma TaskHasRelease(s: State, id: string, now: Time)
    requires Coherent(s, now) && id in s.tasks
    ensures s.tasks[id].releaseId in s.releases
  {}

  lemma CoherentLater(s: State, now: Time, later: Time)
    requires Coherent(s, now) && now <= later
    ensures Coherent(s, later)
  {}

  lemma TaskStepSound(t: Task, u: Task, limit: int, now: Time)
    requires TaskSound(t, limit, now) && TaskStep(t, u, limit, now) && now > 0
    ensures TaskSound(u, limit, now) && u.attempts >= t.attempts
  {}

  lemma TasksOfAfterWrite(s: State, u: Task, rid: string)
    requires u.id in s.tasks && u.releaseId == s.tasks[u.id].releaseId
    ensures TasksOf(Apply(s, Updated(u)), rid) == TasksOf(s, rid)
  {}

  lemma TasksOfAfterCreate(s: State, t: Task, rid: string)
    requires t.id !in s.tasks
    ensures TasksOf(Apply(s, Change(TaskCreated, TaskData(t))), rid)
         == TasksOf(s, rid) + (if rid == t.releaseId then {t.id} else {})
  {}

  lemma NewReleaseCoherent(s: State, r: Release, now: Time)
    requires Coherent(s, now) && LawfulNewRelease(s, r)
    ensures Coherent(Apply(s, Change(ReleaseCreated, ReleaseData(r))), now)
  {
    var s' := Apply(s, Change(ReleaseCreated, ReleaseData(r)));
    forall k | k in s'.releases ensures s'.releases[k].id == k && ReleaseSound(s', s'.releases[k]) {
      assert TasksOf(s', k) == TasksOf(s, k);
    }
  }

  lemma ReleaseWriteCoherent(s: State, q: Release, now: Time)
    requires Coherent(s, now) && LawfulReleaseWrite(s, q, now)
    ensures Coherent(Apply(s, Rewritten(q)), now)
  {
    var s' := Apply(s, Rewritten(q));
    forall k | k in s'.releases ensures s'.releases[k].id == k && ReleaseSound(s', s'.releases[k]) {
      assert TasksOf(s', k) == TasksOf(s, k);
    }
    assert forall k :: k in s.releases ==> s'.releases[k].retryLimit == s.releases[k].retryLimit;
  }

  lemma DeviceWriteCoherent(s: State, d: Device, now: Time)
    requires Coherent(s, now) && d.id != ""
    ensures Coherent(Apply(s, Change(DeviceRegistered, DeviceData(d))), now)
  {
    var s' := Apply(s, Change(DeviceRegistered, DeviceData(d)));
    forall k | k in s'.releases ensures ReleaseSound(s', s'.releases[k]) {
      assert TasksOf(s', k) == TasksOf(s, k);
    }
  }

  lemma NewTaskCoherent(s: State, t: Task, now: Time)
    requires Coherent(s, now) && LawfulNewTask(s, t)
    ensures Coherent(Apply(s, Change(TaskCreated, TaskData(t))), now)
  {
    var s' := Apply(s, Change(TaskCreated, TaskData(t)));
    forall k | k in s'.releases ensures ReleaseSound(s', s'.releases[k]) {
      assert s.releases[k].id == k && ReleaseSound(s, s.releases[k]);
      NewTaskFits(s, t, k);
    }
    assert s.releases[t.releaseId].retryLimit >= 0;
    hide ReleaseSound, TasksOf;
    assert TaskSound(t, s.releases[t.releaseId].retryLimit, now);
  }

  lemma NewTaskFits(s: State, t: Task, rid: string)
    requires LawfulNewTask(s, t) && rid in s.releases && s.releases[rid].id == rid && ReleaseSound(s, s.releases[rid])
    ensures ReleaseSound(Apply(s, Change(TaskCreated, TaskData(t))), s.releases[rid])
  {
    TasksOfAfterCreate(s, t, rid);
    hide TasksOf;
  }

  lemma TaskWriteCoherent(s: State, u: Task, now: Time)
    requires Coherent(s, now) && LawfulTaskWrite(s, u, now) && now > 0
    ensures Coherent(Apply(s, Updated(u)), now)
  {
    var s' := Apply(s, Updated(u));
    TaskStepSound(s.tasks[u.id], u, s.releases[u.releaseId].retryLimit, now);
    forall k | k in s'.releases ensures ReleaseSound(s', s'.releases[k]) {
      TasksOfAfterWrite(s, u, k);
    }
  }

  lemma LawfulKeepsCoherent(s: State, c: Change, now: Time)
    requires Coherent(s, now) && Lawful(s, c, now) && now > 0
    ensures Coherent(Apply(s, c), now)
  {
    match c
    case Change(ReleaseCreated, ReleaseData(r)) => NewReleaseCoherent(s, r, now);
    case Change(ReleaseUpdated, ReleaseData(q)) => ReleaseWriteCoherent(s, q, now);
    case Change(DeviceRegistered, DeviceData(d)) => DeviceWriteCoherent(s, d, now);
    case Change(TaskCreated, TaskData(t)) => NewTaskCoherent(s, t, now);
    case Change(TaskUpdated, TaskData(u)) => TaskWriteCoherent(s, u, now);
    case _ =>
  }

  lemma {:induction false} LawfulRunKeepsCoherent(s: State, cs: seq<Change>, now: Time)
    requires Coherent(s, now) && LawfulRun(s, cs, now) && now > 0
    ensures Coherent(ApplyAll(s, cs), now)
  {
    if cs != [] {
      LawfulRunKeepsCoherent(s, cs[..|cs| - 1], now);
      LawfulKeepsCoherent(ApplyAll(s, cs[..|cs| - 1]), cs[|cs| - 1], now);
    }
  }

  /** Every state a valid log projects to is coherent at every later instant. */
  lemma {:induction false} ValidLogCoherent(log: seq<Event>, now: Time)
    requires ValidLog(log) && LastTime(log) <= now
    ensures Coherent(Replay(log), now)
  {
    if log != [] {
      var n := |log| - 1;
      ValidLogCoherent(log[..n], log[n].at);
      ReplayStep(log[..n], log[n]);
      assert log == log[..n] + [log[n]];
      LawfulKeepsCoherent(Replay(log[..n]), ChangeOf(log[n]), log[n].at);
      CoherentLater(Replay(log), log[n].at, now);
    }
  }

  lemma {:induction false} ValidLogPrefix(log: seq<Event>, n: nat)
    requires ValidLog(log) && n <= |log|
    ensures ValidLog(log[..n])
    ensures n < |log| ==> Lawful(Replay(log[..n]), ChangeOf(log[n]), log[n].at)
    ensures n < |log| ==> Replay(log[..n + 1]) == Apply(Replay(log[..n]), ChangeOf(log[n]))
  {
    if n == |log| {
      assert log[..n] == log;
    } else {
      assert log[..n + 1] == log[..n] + [log[n]];
      ReplayStep(log[..n], log[n]);
      if n < |log| - 1 {
        ValidLogPrefix(log[..|log| - 1], n);
        assert log[..|log| - 1][..n] == log[..n];
      }
    }
  }
}
