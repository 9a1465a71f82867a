/** What single commands guarantee: fencing, reaping, rollback restart, completion, capacity. */
module Guarantees {
  import opened Domain
  import opened Projection
  import opened Commands
  import opened Dispatch
  import opened Lifecycle
  import opened CommandLaws
  import opened Runs
  import opened Releases
  import opened Text

  // ---- fencing

  /** An agent that does not hold the lease changes nothing: no record is emitted. */
  lemma Fenced(s: State, id: string, agent: string, reason: string, flag: bool, n: int, now: Time)
    requires id in s.tasks && s.tasks[id].leaseOwner != agent
    ensures StartTask(s, id, agent, now).changes == []
    ensures RejectTask(s, id, agent, reason, now).changes == []
    ensures ReportProgress(s, id, agent, n, reason, now).changes == []
    ensures RenewLease(s, id, agent, n, now).changes == []
    ensures ConfirmInstall(s, id, agent, now).changes == []
    ensures FailTask(s, id, agent, reason, flag, now).changes == []
    ensures CompleteRollback(s, id, agent, now).changes == []
  {}

  /** From a claim until the task stops being active, every agent command of anyone but the claimant emits nothing. */
  lemma FencedThroughout(log: seq<Event>, id: string, m: nat, n: nat, agent: string,
                         reason: string, flag: bool, k: int, now: Time)
    requires ValidLog(log) && m <= n <= |log| && forall i :: m <= i <= n ==> ActiveAt(At(log, i), id)
    requires id in At(log, m).tasks && At(log, m).tasks[id].leaseOwner != agent
    ensures var s := At(log, n);
      && StartTask(s, id, agent, now).changes == [] && RejectTask(s, id, agent, reason, now).changes == []
      && ReportProgress(s, id, agent, k, reason, now).changes == [] && RenewLease(s, id, agent, k, now).changes == []
      && ConfirmInstall(s, id, agent, now).changes == [] && FailTask(s, id, agent, reason, flag, now).changes == []
      && CompleteRollback(s, id, agent, now).changes == []
  {
    hide *;
    OwnerKept(log, id, m, n);
    Fenced(At(log, n), id, agent, reason, flag, k, now);
  }

  /** While the lease runs, no claim, rollback claim, reaping or rollback queueing can take the task either. */
  lemma LiveLeaseKept(s: State, id: string, device: string, w: Sweep, now: Time)
    requires id in s.tasks && IsActive(s.tasks[id]) && !LeaseExpiredAt(s.tasks[id], now)
    ensures id !in Eligible(s, device, now) && id !in RollbackCandidates(s, device)
    ensures Swept(s, w, s.tasks[id], now) == Skip
  {}

  // ---- the reaper

  /** The order in which a sweep visits the map does not matter. */
  lemma SweepOutcome(s: State, w: Sweep, order: seq<string>, now: Time)
    requires Coherent(s, now) && SweepAllowed(s, w) && Visits(order, s.tasks.Keys)
    ensures forall k :: k in order ==> k in s.tasks
    ensures ApplyAll(s, SweepLoop(s, w, order, now)) == SweptState(s, w, s.tasks.Keys, now)
  {
    assert forall k :: k in order ==> k in KeysOf(order);
    VisitsLawful(s, w, now);
    SweepLoopLawful(s, w, order, now);
  }

  lemma ReapOutcome(s: State, order: seq<string>, rids: seq<string>, now: Time)
    requires Coherent(s, now) && now > 0 && Visits(order, s.tasks.Keys) && Visits(rids, ReapedReleases(s, now))
    ensures forall k :: k in order ==> k in s.tasks
    ensures ApplyAll(s, ReapExpired(s, order, rids, now).changes)
         == ReconciledState(SweptState(s, Reaping, s.tasks.Keys, now), KeysOf(rids), now)
  {
    SweepOutcome(s, Reaping, order, now);
    var sweep := SweepLoop(s, Reaping, order, now);
    var mid := SweptState(s, Reaping, s.tasks.Keys, now);
    VisitsLawful(s, Reaping, now);
    SweepLoopLawful(s, Reaping, order, now);
    LawfulRunKeepsCoherent(s, sweep, now);
    forall k | k in rids ensures k in mid.releases { assert k in KeysOf(rids); }
    ReconcileLoopLawful(mid, rids, now);
    ApplyAllSplit(s, sweep, ReconcileLoop(mid, rids, now));
  }

  /** What the reaper makes of one task: it acts exactly when the owner's own VerifyLease reports the lease expired. */
  predicate ReapedRight(t: Task, u: Task, now: Time) {
    && !(IsActive(u) && LeaseExpiredAt(u, now))
    && (u != t <==> IsActive(t) && VerifyLease(t, t.leaseOwner, now) == Refused(LeaseExpired))
    && (u != t ==> NoLease(u) && SameTask(t, u) && u.attempts == t.attempts
                   && (u.status == TaskQueued || u.status == TaskFailed || u.status == TaskRollbackQueued))
  }

  lemma ReapedTask(s: State, t: Task, now: Time)
    requires t.releaseId in s.releases
    ensures ReapedRight(t, AfterSweep(s, Reaping, t, now), now)
  {}

  /** After a reap no active task has an expired lease, and exactly the expired ones were changed. */
  lemma ReaperComplete(s: State, order: seq<string>, rids: seq<string>, now: Time)
    requires Coherent(s, now) && now > 0 && Visits(order, s.tasks.Keys) && Visits(rids, ReapedReleases(s, now))
    ensures forall x :: x in order ==> x in s.tasks
    ensures var s' := ApplyAll(s, ReapExpired(s, order, rids, now).changes);
      s'.tasks.Keys == s.tasks.Keys && forall k :: k in s.tasks ==> ReapedRight(s.tasks[k], s'.tasks[k], now)
  {
    ReapOutcome(s, order, rids, now);
    forall k | k in s.tasks ensures ReapedRight(s.tasks[k], AfterSweep(s, Reaping, s.tasks[k], now), now) {
      ReapedTask(s, s.tasks[k], now);
    }
  }

  /** A second reap at the same instant emits nothing. */
  lemma ReapIsIdempotent(s: State, order: seq<string>, rids: seq<string>, order2: seq<string>,
                        rids2: seq<string>, now: Time)
    requires Coherent(s, now) && now > 0 && Visits(order, s.tasks.Keys) && Visits(rids, ReapedReleases(s, now))
    requires forall k :: k in order ==> k in s.tasks
    requires var s' := ApplyAll(s, ReapExpired(s, order, rids, now).changes);
      Visits(order2, s'.tasks.Keys) && Visits(rids2, ReapedReleases(s', now))
    ensures forall k :: k in order2 ==> k in ApplyAll(s, ReapExpired(s, order, rids, now).changes).tasks
    ensures ReapExpired(ApplyAll(s, ReapExpired(s, order, rids, now).changes), order2, rids2, now).changes == []
  {
    var s' := ApplyAll(s, ReapExpired(s, order, rids, now).changes);
    ReapOutcome(s, order, rids, now);
    forall k | k in order2 ensures k in s'.tasks { assert k in KeysOf(order2); }
    ReaperComplete(s, order, rids, now);
    forall k | k in s'.tasks ensures Swept(s', Reaping, s'.tasks[k], now) == Skip {
      assert ReapedRight(s.tasks[k], s'.tasks[k], now);
    }
    NothingSwept(s', Reaping, order2, now);
    assert Reaped(s', now) == {};
    if rids2 != [] { SomeKey(rids2); }
  }

  lemma SomeKey(xs: seq<string>)
    requires xs != []
    ensures KeysOf(xs) != {}
  {
    assert xs[0] in KeysOf(xs);
  }

  lemma {:induction false} NothingSwept(s: State, w: Sweep, order: seq<string>, now: Time)
    requires forall k :: k in order ==> k in s.tasks && Swept(s, w, s.tasks[k], now) == Skip
    ensures SweepLoop(s, w, order, now) == []
  {
    if order != [] { NothingSwept(s, w, order[..|order| - 1], now); }
  }

  /**
    If for over an hour no entry of the run prolonged a lease, whatever else was logged, one reap leaves no task active:
    claims and renewals are the only moves that prolong one.
   */
  lemma IdleHourReapsAll(log: seq<Event>, m: nat, since: Time, order: seq<string>, rids: seq<string>, now: Time)
    requires ValidLog(log) && m <= |log| && LastTime(log[..m]) <= since && since + HOUR < now && LastTime(log) <= now
    requires forall n :: m <= n < |log| ==> !Prolongs(At(log, n), ChangeOf(log[n]))
    requires Visits(order, Replay(log).tasks.Keys) && Visits(rids, ReapedReleases(Replay(log), now))
    ensures forall k :: k in order ==> k in Replay(log).tasks
    ensures var s' := ApplyAll(Replay(log), ReapExpired(Replay(log), order, rids, now).changes);
      forall k :: k in s'.tasks ==> !IsActive(s'.tasks[k])
  {
    hide *;
    IdleState(log, m, since, now);
    IdleReap(Replay(log), since, order, rids, now);
  }

  lemma IdleState(log: seq<Event>, m: nat, since: Time, now: Time)
    requires ValidLog(log) && m <= |log| && LastTime(log[..m]) <= since && LastTime(log) <= now
    requires forall n :: m <= n < |log| ==> !Prolongs(At(log, n), ChangeOf(log[n]))
    ensures 0 <= since && Coherent(Replay(log), now)
    ensures EndBy(Replay(log), since + HOUR)
  {
    assert At(log, |log|) == Replay(log) by { assert log[..|log|] == log; }
    hide ValidLog, Replay, At, Prolongs, Coherent, LastTime;
    LeasesEndBy(log, m, |log|, since);
    LastTimePrefix(log, m);
    ValidLogCoherent(log, now);
  }

  lemma LastTimePrefix(log: seq<Event>, m: nat)
    requires ValidLog(log) && m <= |log|
    ensures LastTime(log[..m]) >= 0
  {
    ValidLogPrefix(log, m);
  }

  lemma IdleTask(t: Task, u: Task, now: Time)
    requires ReapedRight(t, u, now) && (IsActive(t) ==> LeaseExpiredAt(t, now))
    ensures !IsActive(u)
  {}

  lemma IdleReap(s: State, since: Time, order: seq<string>, rids: seq<string>, now: Time)
    requires Coherent(s, now) && 0 <= since && since + HOUR < now
    requires EndBy(s, since + HOUR)
    requires Visits(order, s.tasks.Keys) && Visits(rids, ReapedReleases(s, now))
    ensures forall k :: k in order ==> k in s.tasks
    ensures var s' := ApplyAll(s, ReapExpired(s, order, rids, now).changes);
      forall k :: k in s'.tasks ==> !IsActive(s'.tasks[k])
  {
    hide Visits, ReapedReleases, ReapExpired, ApplyAll, ReleaseSound, ReapedRight;
    ReaperComplete(s, order, rids, now);
    forall k | k in s.tasks && IsActive(s.tasks[k]) ensures LeaseExpiredAt(s.tasks[k], now) {
      assert TaskSound(s.tasks[k], Limit(s, k), now);
    }
    hide Coherent, TaskSound;
    var s' := ApplyAll(s, ReapExpired(s, order, rids, now).changes);
    forall k | k in s'.tasks ensures !IsActive(s'.tasks[k]) {
      assert ReapedRight(s.tasks[k], s'.tasks[k], now);
      IdleTask(s.tasks[k], s'.tasks[k], now);
    }
  }

  // ---- reconcile

  /**
    Completion and automatic rollback exclude each other, the counters fit the device list, and reconciling again
    changes neither counters nor status.
   */
  lemma ReconcileStable(s: State, rid: string, now: Time, later: Time)
    requires Coherent(s, now) && rid in s.releases
    ensures var q := Reconciled(s, rid, now);
      && 0 <= q.completed && 0 <= q.failed && q.completed + q.failed <= |q.devices|
      && (q.rollback.maxFailures >= 0 && q.completed == |q.devices| ==> q.status == StatusCompleted)
      && Reconciled(Apply(s, Rewritten(q)), rid, later) == q.(updatedAt := later)
  {
    var q := Reconciled(s, rid, now);
    var s' := Apply(s, Rewritten(q));
    var done, fail := WithStatus(s, rid, TaskCompleted), WithStatus(s, rid, TaskFailed);
    assert WithStatus(s', rid, TaskCompleted) == done && WithStatus(s', rid, TaskFailed) == fail;
    assert |done + fail| == |done| + |fail|;
    SubsetSize(done + fail, TasksOf(s, rid));
  }

  // ---- backoff

  lemma {:induction false} Pow2Monotone(a: nat, b: nat)
    requires a <= b
    ensures 1 <= Pow2(a) <= Pow2(b)
  {
    if a < b { Pow2Monotone(a, b - 1); }
    else if a > 0 { Pow2Monotone(a - 1, a - 1); }
  }

  /** In every reachable state a lease owner's retry waits between base and 256 * base. */
  lemma BackoffInRange(s: State, id: string, base: int, reason: string, now: Time)
    requires Coherent(s, now) && id in s.tasks && s.tasks[id].leaseOwner != "" && base > 0
    ensures CanScheduleRetry(s.tasks[id], Limit(s, id))
    ensures var u := RetryScheduled(s.tasks[id], now, base, Limit(s, id), reason);
      u.status == TaskRejected ==> now + base <= u.nextRetry <= now + 256 * base
  {
    TaskHasRelease(s, id, now);
    OwnerHasAttempts(s, id, now);
    hide *;
    BackoffBounds(s.tasks[id], Limit(s, id), base, reason, now);
  }

  lemma BackoffBounds(t: Task, limit: int, base: int, reason: string, now: Time)
    requires t.attempts >= 1 && base > 0
    ensures CanScheduleRetry(t, limit)
    ensures var u := RetryScheduled(t, now, base, limit, reason);
      u.status == TaskRejected ==> now + base <= u.nextRetry <= now + 256 * base
  {
    var n := Min(t.attempts - 1, 8);
    if t.attempts <= limit {
      Pow2Monotone(0, n);
      Pow2Monotone(n, 8);
      assert Pow2(8) == 256;
      Scale(base, Pow2(n));
    }
  }

  lemma Scale(base: int, factor: int)
    requires base > 0 && 1 <= factor <= 256
    ensures base <= base * factor <= 256 * base
  {
    assert base * factor >= base * 1;
    assert base * factor <= base * 256;
  }

  /**
    The backoff shift is negative, and the command panics, exactly for an empty agent on a task nobody has ever
    claimed.
   */
  lemma PanicsExactly(s: State, id: string, agent: string, reason: string, retryable: bool, now: Time)
    requires Coherent(s, now)
    ensures RejectTask(s, id, agent, reason, now).verdict == Refused(Panic) <==>
      agent == "" && id in s.tasks && s.tasks[id].leaseOwner == "" && s.tasks[id].attempts == 0
    ensures FailTask(s, id, agent, reason, retryable, now).verdict == Refused(Panic) <==>
      agent == "" && retryable && id in s.tasks && s.tasks[id].leaseOwner == "" && s.tasks[id].attempts == 0
      && !(s.tasks[id].status == TaskFailed && s.tasks[id].error == reason)
  {
    if id in s.tasks {
      TaskHasRelease(s, id, now);
      assert ReleaseSound(s, s.releases[s.tasks[id].releaseId]);
      assert TaskSound(s.tasks[id], Limit(s, id), now);
      hide Coherent, ReleaseSound, RetryScheduled, Settle;
    }
  }

  // ---- capacity of the claim gate

  /** The records of an accepted claim: the leased head, then its release if that was still queued. */
  lemma ClaimShape(s: State, device: string, agent: string, ttl: int, now: Time) returns (c: Change, q: Release)
    requires Coherent(s, now) && Claim(s, device, agent, ttl, now).verdict == Ok
    ensures var t := s.tasks[Head(s, Eligible(s, device, now))];
      && c == Updated(Leased(t, agent, now, ttl)) && Lawful(s, c, now) && ClaimsIn(s, c, t.releaseId)
      && t.releaseId in s.releases && q.id == t.releaseId && SameTerms(s.releases[q.id], q)
    ensures var cs := Claim(s, device, agent, ttl, now).changes; cs == [c] || cs == [c, Rewritten(q)]
  {
    var k := Head(s, Eligible(s, device, now));
    var t := s.tasks[k];
    c := Updated(Leased(t, agent, now, ttl));
    q := s.releases[t.releaseId].(status := StatusPreflight, updatedAt := now);
    LeaseLawful(s, device, k, agent, ttl, now);
    assert s.releases[t.releaseId].id == t.releaseId;
    hide Coherent, LawfulTaskWrite, Eligible;
  }

  lemma CapAfter(s: State, c: Change, q: Release, cs: seq<Change>, now: Time)
    requires Coherent(s, now) && WithinCap(s, q.id) && q.id in s.releases && SameTerms(s.releases[q.id], q)
    requires Lawful(s, c, now) && ClaimsIn(s, c, q.id) && (cs == [c] || cs == [c, Rewritten(q)])
    ensures WithinCap(ApplyAll(s, cs), q.id) <==> Capacity(s, q.id) > 0
  {
    CapStep(s, c, q.id, now);
    ApplyOne(s, c);
    ApplyTwo(s, c, Rewritten(q));
    ClaimKeepsReleases(s, c, q.id);
    CapKept(Apply(s, c), q);
  }

  lemma ClaimKeepsReleases(s: State, c: Change, rid: string)
    requires ClaimsIn(s, c, rid)
    ensures Apply(s, c).releases == s.releases
  {}

  lemma CapKept(s: State, q: Release)
    requires q.id in s.releases && SameTerms(s.releases[q.id], q)
    ensures WithinCap(Apply(s, Rewritten(q)), q.id) == WithinCap(s, q.id)
  {
    assert BusyTasks(Apply(s, Rewritten(q)), q.id) == BusyTasks(s, q.id);
  }

  /** An accepted claim keeps its release within MaxConcurrent exactly when Release.Capacity was left. */
  lemma ClaimWithinCapExactly(s: State, device: string, agent: string, ttl: int, now: Time, rid: string)
    requires Coherent(s, now) && Claim(s, device, agent, ttl, now).verdict == Ok
    requires rid == s.tasks[Head(s, Eligible(s, device, now))].releaseId && WithinCap(s, rid)
    ensures rid in s.releases
    ensures WithinCap(ApplyAll(s, Claim(s, device, agent, ttl, now).changes), rid) <==> Capacity(s, rid) > 0
  {
    var c, q := ClaimShape(s, device, agent, ttl, now);
    CapAfter(s, c, q, Claim(s, device, agent, ttl, now).changes, now);
  }

  /** With the shipped gate the cap holds through a run in which no claim overlaps another lease of its release. */
  lemma CapHoldsUnderGate(log: seq<Event>, rid: string)
    requires ValidLog(log)
    requires forall n :: 0 <= n < |log| && ClaimsIn(At(log, n), ChangeOf(log[n]), rid) ==>
      WithStatus(At(log, n), rid, TaskLeased) == {}
    ensures forall n :: 0 <= n <= |log| ==> WithinCap(At(log, n), rid)
  {
    hide ValidLog, At, ClaimsIn, Capacity, WithinCap, Coherent;
    forall n | 0 <= n < |log| && ClaimsIn(At(log, n), ChangeOf(log[n]), rid) && rid in At(log, n).releases
      ensures Capacity(At(log, n), rid) > 0
    {
      EntryLawful(log, n);
      ClaimSawOpenGate(At(log, n), ChangeOf(log[n]), rid, log[n].at);
      OpenGateHasCapacity(At(log, n), rid, log[n].at);
    }
    CapHoldsExactly(log, rid);
  }

  /** Every logged claim saw the gate of its release open. */
  lemma ClaimSawOpenGate(s: State, c: Change, rid: string, now: Time)
    requires Coherent(s, now) && Lawful(s, c, now) && ClaimsIn(s, c, rid)
    ensures DecisionFor(s, rid).allowed
  {
    hide DecisionFor, Coherent, TaskStep;
  }

  lemma OpenGateHasCapacity(s: State, rid: string, now: Time)
    requires Coherent(s, now) && DecisionFor(s, rid).allowed && WithStatus(s, rid, TaskLeased) == {}
    ensures Capacity(s, rid) > 0
  {
    assert ReleaseSound(s, s.releases[rid]);
    hide Coherent, ReleaseSound, ActiveTasks, BusyTasks;
    GateIsLooser(s, rid);
  }

  // ---- completed releases

  /**
    From a reachable state whose completed releases are settled, an accepted UpdateTask breaks that exactly when it
    rejects a task of a completed release.
   */
  lemma RejectUnsettlesExactly(s: State, id: string, action: TaskAction, reason: string, now: Time)
    requires Coherent(s, now) && StatusesSound(s) && now > 0 && AllSettled(s)
    requires UpdateTask(s, id, action, reason, now).verdict == Ok
    ensures AllSettled(ApplyAll(s, UpdateTask(s, id, action, reason, now).changes)) <==>
      !(action == Reject && s.releases[s.tasks[id].releaseId].status == StatusCompleted)
  {
    var u := Acted(s.tasks[id], action, reason, now).task;
    MoveLawful(s, u, now);
    assert UpdateTask(s, id, action, reason, now).changes == Settle(s, u, now);
    if OfCompleted(s, id) {
      CompletedTask(s, id, now);
      assert action == Reject;
      hide *;
      RevokedSettle(s, u, now);
    } else {
      assert !Revokes(s, Updated(u));
      hide *;
      SettleKeepsSettled(s, u, now);
    }
  }

  lemma SettleKeepsSettled(s: State, u: Task, now: Time)
    requires Coherent(s, now) && now > 0 && AllSettled(s) && LawfulTaskWrite(s, u, now) && !Revokes(s, Updated(u))
    ensures AllSettled(ApplyAll(s, Settle(s, u, now)))
  {
    var c := Updated(u);
    TaskWriteCoherent(s, u, now);
    SettledStep(s, c, now);
    var q := Reconciled(Apply(s, c), u.releaseId, now);
    SettledStep(Apply(s, c), Rewritten(q), now);
    SettleResult(s, u, now);
  }

  /** The task belongs to a completed release. */
  predicate OfCompleted(s: State, id: string) {
    && id in s.tasks && s.tasks[id].releaseId in s.releases
    && s.releases[s.tasks[id].releaseId].status == StatusCompleted
  }

  /** FailTask would fail the task for good, and not only send it back for a retry. */
  predicate FailsForGood(s: State, id: string, retryable: bool)
    requires id in s.tasks && s.tasks[id].releaseId in s.releases
  {
    !retryable || s.tasks[id].attempts > Limit(s, id)
  }

  /** One failure is one too many for this policy. */
  predicate Intolerant(policy: RollbackPolicy) { policy.auto && policy.maxFailures == 0 }

  /**
    On a completed release FailTask is accepted only from an agent without a name. It leaves the completed releases
    settled exactly when the failure is final and the policy at once reopens the release.
   */
  lemma FailUnsettlesExactly(s: State, id: string, agent: string, reason: string, retryable: bool, now: Time)
    requires Coherent(s, now) && StatusesSound(s) && now > 0 && AllSettled(s) && OfCompleted(s, id)
    requires FailTask(s, id, agent, reason, retryable, now).verdict == Ok
    ensures agent == ""
    ensures AllSettled(ApplyAll(s, FailTask(s, id, agent, reason, retryable, now).changes)) <==>
      FailsForGood(s, id, retryable) && Intolerant(s.releases[s.tasks[id].releaseId].rollback)
  {
    var u := FailedOnCompleted(s, id, agent, reason, retryable, now);
    hide *;
    RevokedSettle(s, u, now);
  }

  lemma FailedOnCompleted(s: State, id: string, agent: string, reason: string, retryable: bool, now: Time)
    returns (u: Task)
    requires Coherent(s, now) && AllSettled(s) && OfCompleted(s, id)
    requires FailTask(s, id, agent, reason, retryable, now).verdict == Ok
    ensures agent == "" && u.id == id && u.releaseId == s.tasks[id].releaseId && LawfulTaskWrite(s, u, now)
    ensures u.status == if FailsForGood(s, id, retryable) then TaskFailed else TaskRejected
    ensures FailTask(s, id, agent, reason, retryable, now).changes == Settle(s, u, now)
  {
    var t := s.tasks[id];
    CompletedTask(s, id, now);
    u := if !retryable then Released(t).(status := TaskFailed, error := reason, updatedAt := now)
         else RetryScheduled(t, now, SECOND, Limit(s, id), reason);
    hide Coherent, AllSettled, Settle;
    BackoffLawful(s, u, now);
  }

  lemma CompletedTask(s: State, id: string, now: Time)
    requires Coherent(s, now) && AllSettled(s) && OfCompleted(s, id)
    ensures s.tasks[id].id == id && s.tasks[id].status == TaskCompleted && NoLease(s.tasks[id])
  {
    assert Settled(s, s.tasks[id].releaseId) && id in TasksOf(s, s.tasks[id].releaseId);
  }

  /** An accepted RejectTask on a completed release comes from an agent without a name, and unsettles the release. */
  lemma UnnamedRejectUnsettles(s: State, id: string, agent: string, reason: string, now: Time)
    requires Coherent(s, now) && AllSettled(s) && OfCompleted(s, id)
    requires RejectTask(s, id, agent, reason, now).verdict == Ok
    ensures agent == "" && !AllSettled(ApplyAll(s, RejectTask(s, id, agent, reason, now).changes))
  {
    CompletedTask(s, id, now);
    var u := RetryScheduled(s.tasks[id], now, SECOND, Limit(s, id), TrimSpace(reason));
    assert u.status != TaskCompleted && RejectTask(s, id, agent, reason, now).changes == [Updated(u)];
    hide RejectTask, RetryScheduled, Coherent, AllSettled;
    ApplyOne(s, Updated(u));
    WrittenUnsettled(s, u);
  }

  lemma WrittenUnsettled(s: State, u: Task)
    requires u.status != TaskCompleted && OfCompleted(s, u.id) && s.tasks[u.id].releaseId == u.releaseId
    ensures !AllSettled(Apply(s, Updated(u)))
  {
    var s' := Apply(s, Updated(u));
    assert u.id in TasksOf(s', u.releaseId) && s'.tasks[u.id].status != TaskCompleted;
    assert !Settled(s', u.releaseId);
  }

  /** A completed task of a settled release is taken back and the release reconciled. */
  lemma RevokedSettle(s: State, u: Task, now: Time)
    requires Coherent(s, now) && StatusesSound(s) && AllSettled(s) && LawfulTaskWrite(s, u, now) && OfCompleted(s, u.id)
    requires u.status == TaskRejected || u.status == TaskFailed
    requires u.releaseId == s.tasks[u.id].releaseId
    ensures AllSettled(ApplyAll(s, Settle(s, u, now))) <==>
      u.status == TaskFailed && Intolerant(s.releases[u.releaseId].rollback)
  {
    assert u.releaseId in s.releases && u.id in s.tasks;
    var q := Reconciled(Apply(s, Updated(u)), u.releaseId, now);
    RevokedReconciled(s, u, now);
    SettleResult(s, u, now);
    hide *;
    if q.status == StatusCompleted { RevokedRelease(s, u, q); } else { ReopenedSettled(s, u, q); }
  }

  /** Settle writes the task and then the reconciled release. */
  lemma SettleResult(s: State, u: Task, now: Time)
    requires u.releaseId in s.releases
    ensures var s1 := Apply(s, Updated(u));
      && s1.releases == s.releases
      && ApplyAll(s, Settle(s, u, now)) == Apply(s1, Rewritten(Reconciled(s1, u.releaseId, now)))
  {
    var c, q := Updated(u), Reconciled(Apply(s, Updated(u)), u.releaseId, now);
    hide Reconciled;
    ApplyTwo(s, c, Rewritten(q));
    assert Settle(s, u, now) == [c, Rewritten(q)];
  }

  lemma ReopenedSettled(s: State, u: Task, q: Release)
    requires AllSettled(s) && u.id in s.tasks && u.releaseId == s.tasks[u.id].releaseId == q.id
    requires q.id in s.releases && q.status != StatusCompleted
    ensures AllSettled(Apply(Apply(s, Updated(u)), Rewritten(q)))
  {
    forall rid | rid in s.releases ensures Settled(Apply(Apply(s, Updated(u)), Rewritten(q)), rid) {
      SettledBeside(s, u, q, rid);
    }
    hide Settled;
  }

  lemma RevokedRelease(s: State, u: Task, q: Release)
    requires u.id in s.tasks && u.releaseId == q.id && u.status != TaskCompleted && q.status == StatusCompleted
    ensures !AllSettled(Apply(Apply(s, Updated(u)), Rewritten(q)))
  {
    var s2 := Apply(Apply(s, Updated(u)), Rewritten(q));
    assert u.id in TasksOf(s2, q.id) && s2.tasks[u.id].status != TaskCompleted;
    assert !Settled(s2, q.id);
  }

  lemma SettledBeside(s: State, u: Task, q: Release, rid: string)
    requires u.id in s.tasks && u.releaseId == s.tasks[u.id].releaseId == q.id && q.status != StatusCompleted
    requires Settled(s, rid) && rid in s.releases
    ensures Settled(Apply(Apply(s, Updated(u)), Rewritten(q)), rid)
  {
    var s1 := Apply(s, Updated(u));
    var s2 := Apply(s1, Rewritten(q));
    TasksOfAfterWrite(s, u, rid);
    assert TasksOf(s2, rid) == TasksOf(s1, rid);
    assert rid != q.id ==> u.id !in TasksOf(s1, rid);
  }

  /** The only failure is the one just written, so the policy calls for a rollback exactly if it tolerates none. */
  lemma RevokedReconciled(s: State, u: Task, now: Time)
    requires Coherent(s, now) && StatusesSound(s) && AllSettled(s) && LawfulTaskWrite(s, u, now) && OfCompleted(s, u.id)
    requires u.status == TaskRejected || u.status == TaskFailed
    requires u.releaseId == s.tasks[u.id].releaseId
    ensures s.releases[u.releaseId].id == u.releaseId
    ensures Reconciled(Apply(s, Updated(u)), u.releaseId, now).id == u.releaseId
    ensures Reconciled(Apply(s, Updated(u)), u.releaseId, now).status
      == if u.status == TaskFailed && Intolerant(s.releases[u.releaseId].rollback) then StatusRollbackPending
         else StatusCompleted
  {
    var s1 := Apply(s, Updated(u));
    RevokedFailures(s, u, now);
    assert StatusSound(s, s.releases[u.releaseId]) && s.releases[u.releaseId].id == u.releaseId;
    hide Coherent, AllSettled, StatusesSound, LawfulTaskWrite, WithStatus, Tried;
    assert s1.releases == s.releases;
  }

  lemma RevokedFailures(s: State, u: Task, now: Time)
    requires Coherent(s, now) && AllSettled(s) && OfCompleted(s, u.id) && u.releaseId == s.tasks[u.id].releaseId
    ensures WithStatus(Apply(s, Updated(u)), u.releaseId, TaskFailed) == if u.status == TaskFailed then {u.id} else {}
  {
    var rid, s1 := u.releaseId, Apply(s, Updated(u));
    assert Settled(s, rid);
    hide Coherent, AllSettled;
    assert forall k :: k in TasksOf(s, rid) && k != u.id ==> s1.tasks[k].status == TaskCompleted;
  }

  // ---- partial effects

  /** The other tasks of the release leave nothing to roll back. */
  predicate OthersReverted(s: State, id: string) {
    id in s.tasks && forall k :: k in s.tasks && k != id && s.tasks[k].releaseId == s.tasks[id].releaseId ==>
      s.tasks[k].status == TaskRolledBack || s.tasks[k].status == TaskQueued || s.tasks[k].status == TaskRejected
  }

  /**
    CompleteRollback returns an error after having rolled its task back exactly when that was the last task to revert
    but the release has meanwhile left rollback-pending, and it rolls the release back exactly when it has not.
   */
  lemma CompleteRollbackExactly(s: State, id: string, agent: string, now: Time)
    requires Coherent(s, now)
    ensures var o := CompleteRollback(s, id, agent, now);
      && (o.changes != [] <==> MayFinish(s, id, agent, now))
      && (o.changes != [] && o.verdict != Ok <==>
            MayFinish(s, id, agent, now) && OthersReverted(s, id)
            && s.releases[s.tasks[id].releaseId].status !in {StatusRollbackPending, StatusRolledBack})
      && (|o.changes| == 2 <==>
            MayFinish(s, id, agent, now) && OthersReverted(s, id)
            && s.releases[s.tasks[id].releaseId].status in {StatusRollbackPending, StatusRolledBack})
  {
    hide CompleteRollback, Finish, OthersReverted, MayFinish;
    CompleteRollbackShape(s, id, agent, now);
    if MayFinish(s, id, agent, now) {
      MayFinishKnown(s, id, agent, now);
      TaskHasRelease(s, id, now);
      assert s.tasks[id].id == id;
      hide Coherent;
      FinishExactly(s, Released(s.tasks[id]).(status := TaskRolledBack, updatedAt := now), now);
    }
  }

  lemma FinishExactly(s: State, u: Task, now: Time)
    requires u.id in s.tasks && u.releaseId == s.tasks[u.id].releaseId &&
      u.status == TaskRolledBack && u.releaseId in s.releases
    ensures var o := Finish(Apply(s, Updated(u)), u.releaseId, now);
      var open := s.releases[u.releaseId].status in {StatusRollbackPending, StatusRolledBack};
      && (o.verdict != Ok <==> OthersReverted(s, u.id) && !open)
      && |o.changes| == if OthersReverted(s, u.id) && open then 1 else 0
  {
    RevertedOthers(s, u);
    hide AllReverted, OthersReverted;
  }

  lemma RevertedOthers(s: State, u: Task)
    requires u.id in s.tasks && u.releaseId == s.tasks[u.id].releaseId && u.status == TaskRolledBack
    ensures AllReverted(Apply(s, Updated(u)), u.releaseId) <==> OthersReverted(s, u.id)
  {
    var s' := Apply(s, Updated(u));
    assert s'.tasks[u.id] == u;
    forall k | k in s.tasks && k != u.id ensures s'.tasks[k] == s.tasks[k] {}
  }

  /**
    A completed release is refused by RequestRollback, although its first guard lets it through, and by QueueRollback;
    after SetRelease ordered the rollback, QueueRollback is accepted.
   */
  lemma CompletedRefusesRollbackRequests(s: State, rid: string, reason: string, order: seq<string>, now: Time)
    requires Coherent(s, now) && rid in s.releases && s.releases[rid].status == StatusCompleted
    requires forall k :: k in order ==> k in s.tasks
    ensures RequestRollback(s, rid, now) == Refuse(InvalidReleaseTransition)
    ensures QueueRollback(s, rid, reason, order, now) == Refuse(InvalidReleaseTransition)
    ensures var s' := ApplyAll(s, SetRelease(s, rid, Rollback, now).changes);
      && SetRelease(s, rid, Rollback, now).verdict == Ok && s'.tasks == s.tasks
      && QueueRollback(s', rid, reason, order, now).verdict == Ok
  {
    ApplyOne(s, SetRelease(s, rid, Rollback, now).changes[0]);
  }
}
