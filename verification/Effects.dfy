/**
  What the commands on one task do, said in the caller's terms: exactly when each is accepted, and the whole state after
  it. The fields are spelled out, so that nothing here rests on the functions by which the commands are computed.
 */
module Effects {
  import opened Domain
  import opened Projection
  import opened Commands
  import opened Dispatch
  import opened Lifecycle
  import opened CommandLaws
  import opened Runs
  import opened Guarantees
  import opened Text

  // ---- shapes of an effect

  /** The agent owns the task, and the lease has not ended. */
  predicate HoldsLease(t: Task, agent: string, now: Time) {
    t.leaseOwner == agent && (t.leaseUntil == ZERO_TIME || now <= t.leaseUntil)
  }

  /** Only this task changed. */
  predicate TaskSet(s: State, s': State, t: Task) {
    s' == s.(tasks := s.tasks[t.id := t])
  }

  /** Only the release changed: it counts its tasks, and its status follows from the counts. */
  predicate Recounted(s: State, s': State, rid: string, now: Time) {
    && rid in s.releases && rid in s'.releases
    && s'.devices == s.devices && s'.releases == s.releases[rid := s'.releases[rid]]
    && var r, q := s.releases[rid], s'.releases[rid];
       var done, failed := |WithStatus(s', rid, TaskCompleted)|, |WithStatus(s', rid, TaskFailed)|;
       && q == r.(status := q.status, completed := done, failed := failed, updatedAt := now)
       && q.status == if r.rollback.auto && failed > r.rollback.maxFailures then StatusRollbackPending
                      else if done == |r.devices| then StatusCompleted else r.status
  }

  /** This task changed, and its release was recounted after that. */
  predicate TaskSettled(s: State, s': State, t: Task, now: Time) {
    s'.tasks == s.tasks[t.id := t] && Recounted(s, s', t.releaseId, now)
  }

  lemma OneTaskSet(s: State, t: Task)
    ensures TaskSet(s, ApplyAll(s, [Updated(t)]), t)
  {
    ApplyOne(s, Updated(t));
  }

  lemma SettleEffect(s: State, t: Task, now: Time)
    requires t.releaseId in s.releases && s.releases[t.releaseId].id == t.releaseId
    ensures TaskSettled(s, ApplyAll(s, Settle(s, t, now)), t, now)
  {
    var s1 := Apply(s, Updated(t));
    SettleResult(s, t, now);
    hide Settle, ApplyAll;
    RecountEffect(s1, t.releaseId, now);
  }

  lemma RecountEffect(s: State, rid: string, now: Time)
    requires rid in s.releases && s.releases[rid].id == rid
    ensures var s' := Apply(s, Rewritten(Reconciled(s, rid, now))); s'.tasks == s.tasks && Recounted(s, s', rid, now)
  {
    SameCounts(s, Reconciled(s, rid, now), rid);
    hide WithStatus;
  }

  lemma SameCounts(s: State, q: Release, rid: string)
    ensures WithStatus(Apply(s, Rewritten(q)), rid, TaskCompleted) == WithStatus(s, rid, TaskCompleted)
    ensures WithStatus(Apply(s, Rewritten(q)), rid, TaskFailed) == WithStatus(s, rid, TaskFailed)
  {}

  lemma Known(s: State, id: string, now: Time)
    requires Coherent(s, now) && id in s.tasks
    ensures s.tasks[id].id == id && s.tasks[id].releaseId in s.releases
    ensures s.releases[s.tasks[id].releaseId].id == s.tasks[id].releaseId
  {}

  // ---- agent commands on a leased task

  lemma StartTaskEffect(s: State, id: string, agent: string, now: Time)
    requires Coherent(s, now)
    ensures var o := StartTask(s, id, agent, now);
      && (o.verdict == Ok <==> id in s.tasks && HoldsLease(s.tasks[id], agent, now)
                               && (s.tasks[id].status == TaskLeased || s.tasks[id].status == TaskInstalling))
      && (o.verdict == Ok ==>
            TaskSet(s, ApplyAll(s, o.changes), s.tasks[id].(status := TaskInstalling, updatedAt := now)))
      && (o.verdict != Ok ==> o.changes == [])
  {
    StartRecords(s, id, agent, now);
    if id in s.tasks {
      Known(s, id, now);
      hide *;
      OneTaskSet(s, s.tasks[id].(status := TaskInstalling, updatedAt := now));
    }
  }

  lemma StartRecords(s: State, id: string, agent: string, now: Time)
    ensures var o := StartTask(s, id, agent, now);
      && (o.verdict == Ok <==> id in s.tasks && HoldsLease(s.tasks[id], agent, now)
                               && (s.tasks[id].status == TaskLeased || s.tasks[id].status == TaskInstalling))
      && (o.verdict == Ok ==> o.changes == [Updated(s.tasks[id].(status := TaskInstalling, updatedAt := now))])
      && (o.verdict != Ok ==> o.changes == [])
  {}

  lemma ReportProgressEffect(s: State, id: string, agent: string, percent: int, detail: string, now: Time)
    requires Coherent(s, now)
    ensures var o := ReportProgress(s, id, agent, percent, detail, now);
      && (o.verdict == Ok <==> 0 <= percent <= 100 && id in s.tasks && HoldsLease(s.tasks[id], agent, now)
                               && (s.tasks[id].status == TaskInstalling || s.tasks[id].status == TaskAwaiting))
      && (o.verdict == Ok ==>
            TaskSet(s, ApplyAll(s, o.changes),
                    s.tasks[id].(status := if percent == 100 then TaskAwaiting else s.tasks[id].status,
                                 error := if detail == "" then s.tasks[id].error else detail, updatedAt := now)))
      && (o.verdict != Ok ==> o.changes == [])
  {
    if id in s.tasks {
      Known(s, id, now);
      hide Coherent, ApplyAll, TaskSet;
      OneTaskSet(s, s.tasks[id].(status := if percent == 100 then TaskAwaiting else s.tasks[id].status,
                                 error := if detail == "" then s.tasks[id].error else detail, updatedAt := now));
    }
  }

  predicate Renewable(t: Task, agent: string, ttl: int, now: Time) {
    && 0 < ttl <= 60 * 60 * 1_000_000_000 && HoldsLease(t, agent, now)
    && (t.status == TaskLeased || t.status == TaskInstalling || t.status == TaskAwaiting || t.status == TaskRollingBack)
  }

  /** The lease ends so long after the renewal, whatever was left of it. */
  lemma RenewLeaseEffect(s: State, id: string, agent: string, ttl: int, now: Time)
    requires Coherent(s, now)
    ensures var o := RenewLease(s, id, agent, ttl, now);
      && (o.verdict == Ok <==> id in s.tasks && Renewable(s.tasks[id], agent, ttl, now))
      && (o.verdict == Ok ==>
            TaskSet(s, ApplyAll(s, o.changes), s.tasks[id].(leaseUntil := now + ttl, updatedAt := now)))
      && (o.verdict != Ok ==> o.changes == [])
  {
    RenewRecords(s, id, agent, ttl, now);
    if id in s.tasks {
      Known(s, id, now);
      hide *;
      OneTaskSet(s, s.tasks[id].(leaseUntil := now + ttl, updatedAt := now));
    }
  }

  lemma RenewRecords(s: State, id: string, agent: string, ttl: int, now: Time)
    ensures var o := RenewLease(s, id, agent, ttl, now);
      && (o.verdict == Ok <==> id in s.tasks && Renewable(s.tasks[id], agent, ttl, now))
      && o.changes == if o.verdict == Ok then [Updated(s.tasks[id].(leaseUntil := now + ttl, updatedAt := now))] else []
  {}

  predicate Confirmable(t: Task, agent: string, now: Time) {
    t.status == TaskAwaiting && t.leaseOwner == agent && now <= t.leaseUntil
  }

  /** Confirming twice is confirming once; a lease that has ended, or another agent's, confirms nothing. */
  lemma ConfirmInstallEffect(s: State, id: string, agent: string, now: Time)
    requires Coherent(s, now)
    ensures var o := ConfirmInstall(s, id, agent, now);
      && (o.verdict == Ok <==>
            id in s.tasks && (s.tasks[id].status == TaskCompleted || Confirmable(s.tasks[id], agent, now)))
      && (o.verdict == Ok && s.tasks[id].status != TaskCompleted ==>
            TaskSettled(s, ApplyAll(s, o.changes), Confirmed(s.tasks[id], now), now))
      && (o.verdict != Ok || s.tasks[id].status == TaskCompleted ==> o.changes == [])
  {
    if id in s.tasks {
      Known(s, id, now);
      hide Coherent, ApplyAll, TaskSettled, Settle;
      SettleEffect(s, Confirmed(s.tasks[id], now), now);
    }
  }

  function Confirmed(t: Task, now: Time): Task {
    t.(status := TaskCompleted, leaseOwner := "", leaseUntil := 0, updatedAt := now)
  }

  /** A good verdict awaits confirmation under the same lease, a bad one fails the task. */
  lemma ReportPreflightEffect(s: State, id: string, ok: bool, detail: string, now: Time)
    requires Coherent(s, now)
    ensures var o := ReportPreflight(s, id, ok, detail, now);
      && (o.verdict == Ok <==>
            id in s.tasks && (s.tasks[id].status == TaskLeased || s.tasks[id].status == TaskInstalling))
      && (o.verdict == Ok ==>
            TaskSettled(s, ApplyAll(s, o.changes),
                        if ok then s.tasks[id].(status := TaskAwaiting, error := "", updatedAt := now)
                        else s.tasks[id].(status := TaskFailed, error := detail, updatedAt := now), now))
      && (o.verdict != Ok ==> o.changes == [])
  {
    if id in s.tasks {
      Known(s, id, now);
      hide Coherent, ApplyAll, TaskSettled, Settle;
      SettleEffect(s, s.tasks[id].(status := TaskAwaiting, error := "", updatedAt := now), now);
      SettleEffect(s, s.tasks[id].(status := TaskFailed, error := detail, updatedAt := now), now);
    }
  }

  // ---- failing and retrying

  /** The delay in seconds before the next attempt: 1, 2, 4, .., 256, and 256 from then on. */
  function DelaySeconds(attempts: int): int
    decreases attempts
  {
    if attempts <= 1 then 1 else if attempts > 9 then 256 else 2 * DelaySeconds(attempts - 1)
  }

  lemma {:induction false} DelayIs(attempts: int)
    requires attempts >= 1
    ensures SECOND * Pow2(Min(attempts - 1, 8)) == DelaySeconds(attempts) * 1_000_000_000
  {
    if 1 < attempts <= 9 { DelayIs(attempts - 1); }
    else if attempts > 9 { DelayIs(9); }
  }

  /** What a task becomes that is sent back for a retry, or fails for good once its attempts are over the limit. */
  function SentBack(t: Task, limit: int, reason: string, now: Time): Task {
    var u := t.(leaseOwner := "", leaseUntil := 0, error := reason, updatedAt := now);
    if t.attempts > limit then u.(status := TaskFailed, nextRetry := 0)
    else u.(status := TaskRejected, nextRetry := now + DelaySeconds(t.attempts) * 1_000_000_000)
  }

  lemma SentBackIs(t: Task, limit: int, reason: string, now: Time)
    requires CanScheduleRetry(t, limit) && t.attempts >= 1
    ensures RetryScheduled(t, now, SECOND, limit, reason) == SentBack(t, limit, reason, now)
  {
    DelayIs(t.attempts);
    hide DelaySeconds, Pow2;
  }

  /** With no attempt to count from, the retry cannot be scheduled. */
  lemma RetryNeedsAttempt(s: State, id: string, now: Time)
    requires Coherent(s, now) && id in s.tasks
    ensures s.tasks[id].releaseId in s.releases
    ensures CanScheduleRetry(s.tasks[id], Limit(s, id)) <==> s.tasks[id].attempts >= 1
  {
    Known(s, id, now);
    assert ReleaseSound(s, s.releases[s.tasks[id].releaseId]) && TaskSound(s.tasks[id], Limit(s, id), now);
    hide Coherent;
  }

  lemma RejectTaskEffect(s: State, id: string, agent: string, reason: string, now: Time)
    requires Coherent(s, now)
    ensures var o := RejectTask(s, id, agent, reason, now);
      && (o.verdict == Ok <==> id in s.tasks && HoldsLease(s.tasks[id], agent, now) && s.tasks[id].attempts >= 1)
      && (o.verdict == Ok ==>
            s.tasks[id].releaseId in s.releases &&
            TaskSet(s, ApplyAll(s, o.changes), SentBack(s.tasks[id], Limit(s, id), TrimSpace(reason), now)))
      && (o.verdict != Ok ==> o.changes == [])
  {
    if id in s.tasks {
      Known(s, id, now);
      RetryNeedsAttempt(s, id, now);
      hide Coherent, ApplyAll, TaskSet, RetryScheduled, SentBack, CanScheduleRetry;
      OneTaskSet(s, SentBack(s.tasks[id], Limit(s, id), TrimSpace(reason), now));
      if s.tasks[id].attempts >= 1 { SentBackIs(s.tasks[id], Limit(s, id), TrimSpace(reason), now); }
    }
  }

  /** The task has failed already, for that reason. */
  predicate Repeats(t: Task, reason: string) { t.status == TaskFailed && t.error == reason }

  /** A repeated request is accepted and changes nothing. */
  lemma FailTaskEffect(s: State, id: string, agent: string, reason: string, retryable: bool, now: Time)
    requires Coherent(s, now)
    ensures var o := FailTask(s, id, agent, reason, retryable, now);
      if id !in s.tasks then o == Refuse(NotFound)
      else if Repeats(s.tasks[id], reason) then o == Accept([])
      else
        && s.tasks[id].releaseId in s.releases
        && (o.verdict == Ok <==> HoldsLease(s.tasks[id], agent, now) && (retryable ==> s.tasks[id].attempts >= 1))
        && (o.verdict == Ok ==>
              TaskSettled(s, ApplyAll(s, o.changes), FailedBy(s.tasks[id], Limit(s, id), reason, retryable, now), now))
        && (o.verdict != Ok ==> o.changes == [])
  {
    if id in s.tasks {
      Known(s, id, now);
      RetryNeedsAttempt(s, id, now);
      FailRecords(s, id, agent, reason, retryable, now);
      assert FailedBy(s.tasks[id], Limit(s, id), reason, retryable, now).releaseId == s.tasks[id].releaseId;
      hide *;
      SettleEffect(s, FailedBy(s.tasks[id], Limit(s, id), reason, retryable, now), now);
    }
  }

  lemma FailRecords(s: State, id: string, agent: string, reason: string, retryable: bool, now: Time)
    requires id in s.tasks && s.tasks[id].releaseId in s.releases
    requires CanScheduleRetry(s.tasks[id], Limit(s, id)) <==> s.tasks[id].attempts >= 1
    ensures var o := FailTask(s, id, agent, reason, retryable, now);
      if Repeats(s.tasks[id], reason) then o == Accept([])
      else
        && (o.verdict == Ok <==> HoldsLease(s.tasks[id], agent, now) && (retryable ==> s.tasks[id].attempts >= 1))
        && o.changes == if o.verdict == Ok
                        then Settle(s, FailedBy(s.tasks[id], Limit(s, id), reason, retryable, now), now) else []
  {
    if s.tasks[id].attempts >= 1 { SentBackIs(s.tasks[id], Limit(s, id), reason, now); }
    hide Settle, RetryScheduled, SentBack, CanScheduleRetry;
  }

  function FailedBy(t: Task, limit: int, reason: string, retryable: bool, now: Time): Task {
    if retryable then SentBack(t, limit, reason, now)
    else t.(status := TaskFailed, leaseOwner := "", leaseUntil := 0, error := reason, updatedAt := now)
  }

  /** A task in s2 as in s, but with one attempt more. */
  predicate OneMoreAttempt(s: State, s2: State, id: string) {
    id in s.tasks && s2 == s.(tasks := s.tasks[id := s.tasks[id].(attempts := s.tasks[id].attempts + 1)])
  }

  /** One second after the first attempt, twice as long after each further one up to the ninth, then 256 seconds. */
  predicate Doubling(attempts: int, delay: int, next: int) {
    && (attempts == 1 ==> delay == 1_000_000_000) && (attempts < 9 ==> next == 2 * delay)
    && (attempts >= 9 ==> delay == next == 256 * 1_000_000_000)
  }

  /** No device gets the task before that. */
  ghost predicate Waits(s: State, id: string, until: Time) {
    forall device, x :: x < until ==> id !in Eligible(s, device, x)
  }

  lemma NotBefore(s: State, id: string)
    requires id in s.tasks && s.tasks[id].nextRetry > 0
    ensures Waits(s, id, s.tasks[id].nextRetry)
  {
    hide DecisionFor;
  }

  lemma BackoffOf(t: Task, t2: Task, limit: int, reason: string, now: Time)
    requires 1 <= t.attempts < limit && t2 == t.(attempts := t.attempts + 1)
    ensures var u, u2 := SentBack(t, limit, reason, now), SentBack(t2, limit, reason, now);
      Doubling(t.attempts, u.nextRetry - now, u2.nextRetry - now) && now < u.nextRetry
  {
    DelayGrows(t.attempts);
    hide DelaySeconds;
  }

  /** The backoff of a rejected task, seen in two states that differ in one attempt. */
  lemma RejectBackoff(s: State, s2: State, id: string, agent: string, reason: string, now: Time)
    requires Coherent(s, now) && Coherent(s2, now) && now > 0 && OneMoreAttempt(s, s2, id)
    requires RejectTask(s, id, agent, reason, now).verdict == Ok
    requires id in s.tasks && s.tasks[id].releaseId in s.releases && s.tasks[id].attempts < Limit(s, id)
    ensures RejectTask(s2, id, agent, reason, now).verdict == Ok
    ensures var s', s2' := ApplyAll(s, RejectTask(s, id, agent, reason, now).changes),
        ApplyAll(s2, RejectTask(s2, id, agent, reason, now).changes);
      && id in s'.tasks && id in s2'.tasks && Waits(s', id, s'.tasks[id].nextRetry)
      && Doubling(s.tasks[id].attempts, s'.tasks[id].nextRetry - now, s2'.tasks[id].nextRetry - now)
  {
    hide *;
    FurtherAttempt(s, s2, id, agent, reason, now);
    RejectSendsBack(s, id, agent, reason, now);
    RejectSendsBack(s2, id, agent, reason, now);
    BackoffOf(s.tasks[id], s2.tasks[id], Limit(s, id), TrimSpace(reason), now);
    NotBefore(ApplyAll(s, RejectTask(s, id, agent, reason, now).changes), id);
  }

  lemma RejectSendsBack(s: State, id: string, agent: string, reason: string, now: Time)
    requires Coherent(s, now) && id in s.tasks
    ensures var o := RejectTask(s, id, agent, reason, now);
      && s.tasks[id].releaseId in s.releases
      && (o.verdict == Ok <==> HoldsLease(s.tasks[id], agent, now) && s.tasks[id].attempts >= 1)
      && (o.verdict == Ok ==>
            id in ApplyAll(s, o.changes).tasks &&
            ApplyAll(s, o.changes).tasks[id] == SentBack(s.tasks[id], Limit(s, id), TrimSpace(reason), now))
  {
    RejectTaskEffect(s, id, agent, reason, now);
    Known(s, id, now);
    SentBackId(s.tasks[id], Limit(s, id), TrimSpace(reason), now);
    hide Coherent, RejectTask, ApplyAll, SentBack, HoldsLease;
  }

  lemma SentBackId(t: Task, limit: int, reason: string, now: Time)
    ensures SentBack(t, limit, reason, now).id == t.id && SentBack(t, limit, reason, now).releaseId == t.releaseId
  {}

  lemma DelayGrows(attempts: int)
    requires attempts >= 1
    ensures attempts == 1 ==> DelaySeconds(attempts) == 1
    ensures attempts < 9 ==> DelaySeconds(attempts + 1) == 2 * DelaySeconds(attempts)
    ensures attempts >= 9 ==> DelaySeconds(attempts) == DelaySeconds(attempts + 1) == 256
    ensures DelaySeconds(attempts) >= 1
  {
    if attempts >= 9 { NinthDelay(); }
    DelayPositive(attempts);
  }

  lemma NinthDelay()
    ensures DelaySeconds(9) == 256
  {
    assert DelaySeconds(5) == 16;
  }

  lemma {:induction false} DelayPositive(attempts: int)
    ensures DelaySeconds(attempts) >= 1
    decreases attempts
  {
    if 1 < attempts <= 9 { DelayPositive(attempts - 1); }
  }

  /** The same for a retryable failure. */
  lemma FailBackoff(s: State, s2: State, id: string, agent: string, reason: string, now: Time)
    requires Coherent(s, now) && Coherent(s2, now) && now > 0 && OneMoreAttempt(s, s2, id)
    requires FailTask(s, id, agent, reason, true, now).verdict == Ok
    requires id in s.tasks && !Repeats(s.tasks[id], reason)
    requires s.tasks[id].releaseId in s.releases && s.tasks[id].attempts < Limit(s, id)
    ensures FailTask(s2, id, agent, reason, true, now).verdict == Ok
    ensures var s', s2' := ApplyAll(s, FailTask(s, id, agent, reason, true, now).changes),
        ApplyAll(s2, FailTask(s2, id, agent, reason, true, now).changes);
      && id in s'.tasks && id in s2'.tasks && Waits(s', id, s'.tasks[id].nextRetry)
      && Doubling(s.tasks[id].attempts, s'.tasks[id].nextRetry - now, s2'.tasks[id].nextRetry - now)
  {
    hide *;
    FurtherAttempt(s, s2, id, agent, reason, now);
    FailSendsBack(s, id, agent, reason, now);
    FailSendsBack(s2, id, agent, reason, now);
    BackoffOf(s.tasks[id], s2.tasks[id], Limit(s, id), reason, now);
    NotBefore(ApplyAll(s, FailTask(s, id, agent, reason, true, now).changes), id);
  }

  lemma FurtherAttempt(s: State, s2: State, id: string, agent: string, reason: string, now: Time)
    requires OneMoreAttempt(s, s2, id) && s.tasks[id].releaseId in s.releases
    ensures id in s2.tasks && s2.tasks[id] == s.tasks[id].(attempts := s.tasks[id].attempts + 1)
    ensures s2.tasks[id].releaseId in s2.releases && Limit(s2, id) == Limit(s, id)
    ensures HoldsLease(s2.tasks[id], agent, now) == HoldsLease(s.tasks[id], agent, now)
    ensures Repeats(s2.tasks[id], reason) == Repeats(s.tasks[id], reason)
  {}

  lemma FailSendsBack(s: State, id: string, agent: string, reason: string, now: Time)
    requires Coherent(s, now) && id in s.tasks && !Repeats(s.tasks[id], reason)
    ensures var o := FailTask(s, id, agent, reason, true, now);
      && s.tasks[id].releaseId in s.releases
      && (o.verdict == Ok <==> HoldsLease(s.tasks[id], agent, now) && s.tasks[id].attempts >= 1)
      && (o.verdict == Ok ==>
            id in ApplyAll(s, o.changes).tasks &&
            ApplyAll(s, o.changes).tasks[id] == SentBack(s.tasks[id], Limit(s, id), reason, now))
  {
    FailTaskEffect(s, id, agent, reason, true, now);
    Known(s, id, now);
    SentBackId(s.tasks[id], Limit(s, id), reason, now);
    hide Coherent, FailTask, ApplyAll, SentBack, Recounted, HoldsLease;
  }

  // ---- what operators do to a task

  predicate MayAct(t: Task, action: TaskAction) {
    match action
    case Ack => t.status == TaskLeased
    case Reject => true
    case Complete => t.status == TaskInstalling || t.status == TaskAwaiting
    case UnknownTaskAction => false
  }

  /** A reject leaves the lease alone, and lets the device wait a minute longer for every attempt. */
  function ActedOn(t: Task, action: TaskAction, reason: string, now: Time): Task {
    match action
    case Ack => t.(status := TaskInstalling, updatedAt := now)
    case Complete => t.(status := TaskCompleted, leaseOwner := "", leaseUntil := 0, updatedAt := now)
    case _ => t.(status := TaskRejected, error := reason, updatedAt := now,
                 nextRetry := now + (t.attempts + 1) * 60 * 1_000_000_000)
  }

  lemma UpdateTaskRecords(s: State, id: string, action: TaskAction, reason: string, now: Time)
    ensures var o := UpdateTask(s, id, action, reason, now);
      && (o.verdict == Ok <==> id in s.tasks && MayAct(s.tasks[id], action))
      && (o.verdict == Ok ==> o.changes == Settle(s, ActedOn(s.tasks[id], action, reason, now), now))
      && (o.verdict != Ok ==> o.changes == [])
  {
    hide Settle;
  }

  lemma UpdateTaskEffect(s: State, id: string, action: TaskAction, reason: string, now: Time)
    requires Coherent(s, now)
    ensures var o := UpdateTask(s, id, action, reason, now);
      && (o.verdict == Ok <==> id in s.tasks && MayAct(s.tasks[id], action))
      && (o.verdict == Ok ==>
            TaskSettled(s, ApplyAll(s, o.changes), ActedOn(s.tasks[id], action, reason, now), now))
      && (o.verdict != Ok ==> o.changes == [])
  {
    UpdateTaskRecords(s, id, action, reason, now);
    if id in s.tasks {
      Known(s, id, now);
      assert ActedOn(s.tasks[id], action, reason, now).releaseId == s.tasks[id].releaseId;
      hide *;
      SettleEffect(s, ActedOn(s.tasks[id], action, reason, now), now);
    }
  }

  /** The task may be claimed at once, and its attempts still count. */
  lemma RetryTaskEffect(s: State, id: string, now: Time)
    requires Coherent(s, now)
    ensures var o := RetryTask(s, id, now);
      && (o.verdict == Ok <==>
            id in s.tasks && (s.tasks[id].status == TaskFailed || s.tasks[id].status == TaskRejected)
            && s.tasks[id].releaseId in s.releases && s.tasks[id].attempts <= Limit(s, id))
      && (o.verdict == Ok ==>
            TaskSet(s, ApplyAll(s, o.changes),
                    s.tasks[id].(status := TaskQueued, nextRetry := now, error := "", updatedAt := now)))
      && (o.verdict != Ok ==> o.changes == [])
  {
    if id in s.tasks {
      Known(s, id, now);
      hide Coherent, ApplyAll, TaskSet;
      OneTaskSet(s, s.tasks[id].(status := TaskQueued, nextRetry := now, error := "", updatedAt := now));
    }
  }
}
