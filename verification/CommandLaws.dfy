/** Every record any command emits is lawful in the state it is emitted in; no command of a named agent panics. */
module CommandLaws {
  import opened Domain
  import opened Projection
  import opened Commands
  import opened Dispatch
  import opened Lifecycle
  import opened Text

  lemma OneLawful(s: State, c: Change, now: Time)
    requires Lawful(s, c, now)
    ensures LawfulRun(s, [c], now) && ApplyAll(s, [c]) == Apply(s, c)
  {
    assert [c][..0] == [];
  }

  lemma NothingLawful(s: State, now: Time)
    ensures LawfulRun(s, [], now)
  {}

  lemma TwoLawful(s: State, c: Change, d: Change, now: Time)
    requires Lawful(s, c, now) && Lawful(Apply(s, c), d, now)
    ensures LawfulRun(s, [c, d], now) && ApplyAll(s, [c, d]) == Apply(Apply(s, c), d)
  {
    OneLawful(s, c, now);
    assert [c, d][..1] == [c];
  }

  lemma AppendLawful(s: State, a: seq<Change>, c: Change, now: Time)
    requires LawfulRun(s, a, now) && Lawful(ApplyAll(s, a), c, now)
    ensures LawfulRun(s, a + [c], now) && ApplyAll(s, a + [c]) == Apply(ApplyAll(s, a), c)
  {
    assert (a + [c])[..|a + [c]| - 1] == a;
  }

  lemma {:induction false} RunsCompose(s: State, a: seq<Change>, b: seq<Change>, now: Time)
    requires LawfulRun(s, a, now) && LawfulRun(ApplyAll(s, a), b, now)
    ensures LawfulRun(s, a + b, now)
  {
    if b == [] {
      assert a + b == a;
    } else {
      var n := |b| - 1;
      RunsCompose(s, a, b[..n], now);
      ApplyAllSplit(s, a, b[..n]);
      assert (a + b)[..|a + b| - 1] == a + b[..n];
    }
  }

  lemma {:induction false} PrefixLawful(s: State, cs: seq<Change>, n: nat, now: Time)
    requires LawfulRun(s, cs, now) && n <= |cs|
    ensures LawfulRun(s, cs[..n], now)
  {
    if n == |cs| {
      assert cs[..n] == cs;
    } else {
      PrefixLawful(s, cs[..|cs| - 1], n, now);
      assert cs[..|cs| - 1][..n] == cs[..n];
    }
  }

  lemma SettleLawful(s: State, u: Task, now: Time)
    requires Coherent(s, now) && LawfulTaskWrite(s, u, now) && now > 0
    ensures LawfulRun(s, Settle(s, u, now), now)
  {
    var c := Updated(u);
    TaskWriteCoherent(s, u, now);
    var q := Reconciled(Apply(s, c), u.releaseId, now);
    assert LawfulReleaseWrite(Apply(s, c), q, now);
    TwoLawful(s, c, Rewritten(q), now);
    assert Settle(s, u, now) == [c, Rewritten(q)];
  }

  // ---- devices and releases

  lemma DeviceCommandsLawful(s: State, id: string, firmware: string, caps: seq<string>, online: bool, now: Time)
    requires Coherent(s, now)
    ensures LawfulRun(s, RegisterDevice(id, firmware, caps, now).changes, now)
    ensures LawfulRun(s, DeviceHeartbeat(s, id, online, now).changes, now)
  {
    if id != "" { OneLawful(s, RegisterDevice(id, firmware, caps, now).changes[0], now); }
    if id in s.devices { OneLawful(s, DeviceHeartbeat(s, id, online, now).changes[0], now); }
  }

  lemma ReleaseCommandsLawful(s: State, id: string, action: ReleaseAction, now: Time)
    requires Coherent(s, now)
    ensures LawfulRun(s, SetRelease(s, id, action, now).changes, now)
    ensures LawfulRun(s, RequestRollback(s, id, now).changes, now)
  {
    var o, p := SetRelease(s, id, action, now), RequestRollback(s, id, now);
    if o.verdict == Ok { OneLawful(s, o.changes[0], now); }
    if p.verdict == Ok { OneLawful(s, p.changes[0], now); }
  }

  function Creating(s: State, r: Release): State { Apply(s, Change(ReleaseCreated, ReleaseData(r))) }

  /** The state after the release record and the first n task records of a release under creation. */
  function PartlyCreated(s: State, r: Release, tids: seq<string>, n: nat, now: Time): State
    requires n <= |tids| == |r.devices|
  {
    ApplyAll(Creating(s, r), NewTasks(r.id, r.devices, tids, now)[..n])
  }

  predicate FreshIds(s: State, tids: seq<string>) {
    Distinct(tids) && forall i :: 0 <= i < |tids| ==> tids[i] !in s.tasks
  }

  lemma PrefixKeys(tids: seq<string>, n: nat)
    requires Distinct(tids) && n < |tids|
    ensures KeysOf(tids[..n + 1]) == KeysOf(tids[..n]) + {tids[n]} && tids[n] !in KeysOf(tids[..n])
  {}

  ghost predicate CreatedUpTo(p: State, s: State, r: Release, tids: seq<string>, n: nat)
    requires n <= |tids|
  {
    && p.releases == Creating(s, r).releases && (forall i :: n <= i < |tids| ==> tids[i] !in p.tasks)
    && TasksOf(p, r.id) == KeysOf(tids[..n]) && |TasksOf(p, r.id)| == n
  }

  lemma NextTaskLawful(p: State, s: State, r: Release, tids: seq<string>, n: nat, now: Time)
    requires LawfulNewRelease(s, r) && n < |tids| == |r.devices| && CreatedUpTo(p, s, r, tids, n)
    ensures LawfulNewTask(p, NewTask(tids[n], r.id, r.devices[n], now))
  {}

  lemma NextTaskCreated(p: State, s: State, r: Release, tids: seq<string>, n: nat, t: Task)
    requires n < |tids| && Distinct(tids) && CreatedUpTo(p, s, r, tids, n) && t.id == tids[n] && t.releaseId == r.id
    ensures CreatedUpTo(Apply(p, Change(TaskCreated, TaskData(t))), s, r, tids, n + 1)
  {
    PrefixKeys(tids, n);
    TasksOfAfterCreate(p, t, r.id);
  }

  lemma NewTasksTake(rid: string, devices: seq<string>, tids: seq<string>, n: nat, now: Time)
    requires 0 < n <= |tids| == |devices|
    ensures NewTasks(rid, devices, tids, now)[..n]
         == NewTasks(rid, devices, tids, now)[..n - 1]
           + [Change(TaskCreated, TaskData(NewTask(tids[n - 1], rid, devices[n - 1], now)))]
  {}

  lemma NoTasksYet(s: State, r: Release, tids: seq<string>, now: Time)
    requires LawfulNewRelease(s, r) && |tids| == |r.devices| && FreshIds(s, tids)
    ensures NewTasks(r.id, r.devices, tids, now)[..0] == []
    ensures CreatedUpTo(Creating(s, r), s, r, tids, 0)
  {
    assert TasksOf(Creating(s, r), r.id) == TasksOf(s, r.id) == KeysOf([]);
  }

  /** The task records of a release under creation, one by one. */
  lemma {:induction false} NewTasksLawful(s: State, r: Release, tids: seq<string>, n: nat, now: Time)
    requires LawfulNewRelease(s, r) && n <= |tids| == |r.devices| && FreshIds(s, tids)
    ensures LawfulRun(Creating(s, r), NewTasks(r.id, r.devices, tids, now)[..n], now)
    ensures CreatedUpTo(PartlyCreated(s, r, tids, n, now), s, r, tids, n)
  {
    if n == 0 {
      NoTasksYet(s, r, tids, now);
    } else {
      NewTasksLawful(s, r, tids, n - 1, now);
      NewTasksTake(r.id, r.devices, tids, n, now);
      var p, t := PartlyCreated(s, r, tids, n - 1, now), NewTask(tids[n - 1], r.id, r.devices[n - 1], now);
      NextTaskLawful(p, s, r, tids, n - 1, now);
      NextTaskCreated(p, s, r, tids, n - 1, t);
      AppendLawful(Creating(s, r), NewTasks(r.id, r.devices, tids, now)[..n - 1],
        Change(TaskCreated, TaskData(t)), now);
    }
  }

  lemma CreateReleaseLawful(s: State, version: string, devices: seq<string>, batch: int, conc: int, retries: int,
                            policy: RollbackPolicy, rid: string, tids: seq<string>, now: Time)
    requires Coherent(s, now) && |tids| == |devices| && rid != "" && rid !in s.releases && FreshIds(s, tids)
    ensures LawfulRun(s, CreateRelease(version, devices, batch, conc, retries, policy, rid, tids, now).changes, now)
  {
    if !BadRelease(version, devices, batch, conc, retries) {
      var r := NewRelease(version, devices, batch, conc, retries, policy, rid, now);
      var c := Change(ReleaseCreated, ReleaseData(r));
      assert TasksOf(s, rid) == {};
      OneLawful(s, c, now);
      var cs := NewTasks(rid, devices, tids, now);
      NewTasksLawful(s, r, tids, |tids|, now);
      assert cs[..|tids|] == cs;
      RunsCompose(s, [c], cs, now);
    }
  }

  // ---- commands on one task

  /** A write that is one of the moves an operator or an agent makes on a live task. */
  lemma MoveLawful(s: State, u: Task, now: Time)
    requires Coherent(s, now) && u.id in s.tasks && SameTask(s.tasks[u.id], u)
    requires var t := s.tasks[u.id];
      Advances(t, u) || Overrides(t, u) || Finishes(t, u) || FailsPreflight(t, u)
    ensures LawfulTaskWrite(s, u, now)
  {}

  lemma UpdateTaskLawful(s: State, id: string, action: TaskAction, reason: string, now: Time)
    requires Coherent(s, now) && now > 0
    ensures LawfulRun(s, UpdateTask(s, id, action, reason, now).changes, now)
  {
    if id in s.tasks {
      match Acted(s.tasks[id], action, reason, now)
      case Denied(_) =>
      case Done(u) =>
        MoveLawful(s, u, now);
        SettleLawful(s, u, now);
    }
  }

  lemma ReportPreflightLawful(s: State, id: string, ok: bool, detail: string, now: Time)
    requires Coherent(s, now) && now > 0
    ensures LawfulRun(s, ReportPreflight(s, id, ok, detail, now).changes, now)
  {
    if id in s.tasks {
      var t := s.tasks[id].(updatedAt := now);
      if t.status == TaskInstalling || t.status == TaskLeased {
        if ok { SettleLawful(s, t.(status := TaskAwaiting, error := ""), now); }
        else { SettleLawful(s, t.(status := TaskFailed, error := detail), now); }
      }
    }
  }

  lemma RetryTaskLawful(s: State, id: string, now: Time)
    requires Coherent(s, now)
    ensures LawfulRun(s, RetryTask(s, id, now).changes, now)
    ensures RetryTask(s, id, now).verdict != Refused(Panic)
  {
    var o := RetryTask(s, id, now);
    if o.verdict == Ok { OneLawful(s, o.changes[0], now); }
  }

  lemma StartTaskLawful(s: State, id: string, agent: string, now: Time)
    requires Coherent(s, now)
    ensures LawfulRun(s, StartTask(s, id, agent, now).changes, now)
  {
    var o := StartTask(s, id, agent, now);
    if o.verdict == Ok { OneLawful(s, o.changes[0], now); }
  }

  /** Lawful for every agent, named or not; only an agent without a name can make it panic. */
  lemma RejectTaskLawful(s: State, id: string, agent: string, reason: string, now: Time)
    requires Coherent(s, now)
    ensures LawfulRun(s, RejectTask(s, id, agent, reason, now).changes, now)
    ensures agent != "" ==> RejectTask(s, id, agent, reason, now).verdict != Refused(Panic)
  {
    if id in s.tasks && VerifyLease(s.tasks[id], agent, now) == Ok {
      TaskHasRelease(s, id, now);
      var limit := s.releases[s.tasks[id].releaseId].retryLimit;
      if CanScheduleRetry(s.tasks[id], limit) {
        var u := RetryScheduled(s.tasks[id], now, SECOND, limit, TrimSpace(reason));
        BackoffLawful(s, u, now);
        OneLawful(s, Updated(u), now);
      }
    }
  }

  /** A write that ends the lease of an owned task, or fails or rejects a task nobody owns. */
  lemma BackoffLawful(s: State, u: Task, now: Time)
    requires Coherent(s, now) && u.id in s.tasks && SameTask(s.tasks[u.id], u)
    requires NoLease(u) && u.attempts == s.tasks[u.id].attempts
    requires u.status == TaskFailed ||
      (u.status == TaskRejected && u.attempts <= s.releases[s.tasks[u.id].releaseId].retryLimit)
    ensures LawfulTaskWrite(s, u, now)
  {
    var t := s.tasks[u.id];
    TaskHasRelease(s, u.id, now);
    assert TaskSound(t, s.releases[t.releaseId].retryLimit, now);
    hide Coherent, TaskSound, DecisionFor;
    assert t.leaseOwner != "" ==> BacksOff(t, u, s.releases[t.releaseId].retryLimit);
    assert t.leaseOwner == "" ==> Disowns(t, u, s.releases[t.releaseId].retryLimit);
  }

  lemma ReportProgressLawful(s: State, id: string, agent: string, percent: int, detail: string, now: Time)
    requires Coherent(s, now)
    ensures LawfulRun(s, ReportProgress(s, id, agent, percent, detail, now).changes, now)
  {
    var o := ReportProgress(s, id, agent, percent, detail, now);
    if o.verdict == Ok { OneLawful(s, o.changes[0], now); }
  }

  lemma RenewLeaseLawful(s: State, id: string, agent: string, ttl: int, now: Time)
    requires Coherent(s, now)
    ensures LawfulRun(s, RenewLease(s, id, agent, ttl, now).changes, now)
  {
    var o := RenewLease(s, id, agent, ttl, now);
    if o.verdict == Ok { OneLawful(s, o.changes[0], now); }
  }

  lemma FailTaskLawful(s: State, id: string, agent: string, reason: string, retryable: bool, now: Time)
    requires Coherent(s, now) && now > 0
    ensures LawfulRun(s, FailTask(s, id, agent, reason, retryable, now).changes, now)
    ensures agent != "" ==> FailTask(s, id, agent, reason, retryable, now).verdict != Refused(Panic)
  {
    if id in s.tasks && VerifyLease(s.tasks[id], agent, now) == Ok {
      var t := s.tasks[id];
      TaskHasRelease(s, id, now);
      OwnerHasAttempts(s, id, now);
      var limit := s.releases[t.releaseId].retryLimit;
      var failed := Released(t).(status := TaskFailed, error := reason, updatedAt := now);
      BackoffLawful(s, failed, now);
      SettleLawful(s, failed, now);
      if CanScheduleRetry(t, limit) {
        BackoffLawful(s, RetryScheduled(t, now, SECOND, limit, reason), now);
        SettleLawful(s, RetryScheduled(t, now, SECOND, limit, reason), now);
      }
      hide Coherent, Settle, RetryScheduled;
    }
  }

  lemma ConfirmInstallLawful(s: State, id: string, agent: string, now: Time)
    requires Coherent(s, now) && now > 0
    ensures LawfulRun(s, ConfirmInstall(s, id, agent, now).changes, now)
  {
    if id in s.tasks && s.tasks[id].status == TaskAwaiting {
      SettleLawful(s, Released(s.tasks[id]).(status := TaskCompleted, updatedAt := now), now);
    }
  }

  /** The lease of a queued, eligible task is lawful: the gate that made it eligible is open. */
  lemma LeaseLawful(s: State, device: string, k: string, agent: string, ttl: int, now: Time)
    requires Coherent(s, now) && k in Eligible(s, device, now) && agent != "" && !BadTtl(ttl)
    requires s.tasks[k].status == TaskQueued
    ensures LawfulTaskWrite(s, Leased(s.tasks[k], agent, now, ttl), now)
    ensures s.tasks[k].releaseId in s.releases && s.tasks[k].id == k
  {
    assert DecisionFor(s, s.tasks[k].releaseId).allowed;
    TaskHasRelease(s, k, now);
    assert Grants(s.tasks[k], Leased(s.tasks[k], agent, now, ttl), now);
    hide DecisionFor, Eligible;
  }

  /** The move to preflight is lawful once a task of the release has been leased. */
  lemma OpeningLawful(s: State, u: Task, now: Time)
    requires Coherent(s, now) && u.id in s.tasks && u.attempts >= 1 && u.releaseId in s.releases
    ensures var s', cs := Apply(s, Updated(u)), Opening(s, u.releaseId, now);
      LawfulRun(s', cs, now)
  {
    var s' := Apply(s, Updated(u));
    assert u.id in s'.tasks && s'.tasks[u.id] == u;
    assert Tried(s', u.releaseId);
    assert s.releases[u.releaseId].id == u.releaseId;
    hide Coherent, Tried;
    if Opening(s, u.releaseId, now) != [] { OneLawful(s', Opening(s, u.releaseId, now)[0], now); }
  }

  lemma ClaimLawful(s: State, device: string, agent: string, ttl: int, now: Time)
    requires Coherent(s, now)
    ensures LawfulRun(s, Claim(s, device, agent, ttl, now).changes, now)
    ensures Claim(s, device, agent, ttl, now).verdict != Refused(Panic)
  {
    var o := Claim(s, device, agent, ttl, now);
    if o.verdict == Ok {
      var h := Head(s, Eligible(s, device, now));
      var u := Leased(s.tasks[h], agent, now, ttl);
      LeaseLawful(s, device, h, agent, ttl, now);
      TaskHasAttempts(s, h, now);
      OpeningLawful(s, u, now);
      OneLawful(s, Updated(u), now);
      hide LawfulRun, Eligible, Coherent, Opening;
      RunsCompose(s, [Updated(u)], Opening(s, u.releaseId, now), now);
    }
  }

  /** Lawful for every agent, named or not. */
  lemma ClaimRollbackLawful(s: State, device: string, agent: string, pick: string, now: Time)
    requires Coherent(s, now)
    requires RollbackCandidates(s, device) != {} ==> pick in RollbackCandidates(s, device)
    ensures LawfulRun(s, ClaimRollback(s, device, agent, pick, now).changes, now)
  {
    var o := ClaimRollback(s, device, agent, pick, now);
    if o.verdict == Ok {
      var t, u := s.tasks[pick], o.changes[0].data.task;
      TaskHasRelease(s, pick, now);
      assert t.id == pick && ClaimsRollback(t, u, now);
      hide Coherent, LawfulRun, DecisionFor;
      OneLawful(s, o.changes[0], now);
    }
  }

  lemma FinishLawful(s: State, rid: string, now: Time)
    requires Coherent(s, now) && rid in s.releases
    ensures LawfulRun(s, Finish(s, rid, now).changes, now)
    ensures Finish(s, rid, now).verdict != Refused(Panic)
  {
    var o := Finish(s, rid, now);
    if o.changes != [] { OneLawful(s, o.changes[0], now); }
  }

  predicate MayFinish(s: State, id: string, agent: string, now: Time) {
    id in s.tasks && s.tasks[id].status == TaskRollingBack && VerifyLease(s.tasks[id], agent, now) == Ok
  }

  lemma MayFinishKnown(s: State, id: string, agent: string, now: Time)
    requires MayFinish(s, id, agent, now)
    ensures id in s.tasks && s.tasks[id].status == TaskRollingBack
  {}

  lemma CompleteRollbackShape(s: State, id: string, agent: string, now: Time)
    ensures var o := CompleteRollback(s, id, agent, now);
      if MayFinish(s, id, agent, now) then
        var u := Released(s.tasks[id]).(status := TaskRolledBack, updatedAt := now);
        var end := Finish(Apply(s, Updated(u)), u.releaseId, now);
        o == Outcome(end.verdict, [Updated(u)] + end.changes)
      else o.changes == [] && o.verdict != Refused(Panic)
  {
    hide Finish, Apply;
  }

  lemma CompleteRollbackLawful(s: State, id: string, agent: string, now: Time)
    requires Coherent(s, now) && now > 0
    ensures LawfulRun(s, CompleteRollback(s, id, agent, now).changes, now)
    ensures CompleteRollback(s, id, agent, now).verdict != Refused(Panic)
  {
    CompleteRollbackShape(s, id, agent, now);
    NothingLawful(s, now);
    hide Finish, CompleteRollback, MayFinish, Coherent, LawfulTaskWrite, LawfulRun, ApplyAll;
    if MayFinish(s, id, agent, now) {
      MayFinishKnown(s, id, agent, now);
      var u := Released(s.tasks[id]).(status := TaskRolledBack, updatedAt := now);
      RollsBackLawful(s, id, u, now);
      OneLawful(s, Updated(u), now);
      TaskWriteCoherent(s, u, now);
      FinishLawful(Apply(s, Updated(u)), u.releaseId, now);
      RunsCompose(s, [Updated(u)], Finish(Apply(s, Updated(u)), u.releaseId, now).changes, now);
    }
  }

  lemma RollsBackLawful(s: State, id: string, u: Task, now: Time)
    requires Coherent(s, now) && id in s.tasks && s.tasks[id].status == TaskRollingBack
    requires u == Released(s.tasks[id]).(status := TaskRolledBack, updatedAt := now)
    ensures u.id == id && LawfulTaskWrite(s, u, now) && u.releaseId in s.releases
  {
    TaskHasRelease(s, id, now);
    assert s.tasks[id].id == id;
    hide Coherent, DecisionFor, TaskStep, QueuesRollback, Released;
    RollsBackStep(s.tasks[id], u, s.releases[s.tasks[id].releaseId].retryLimit, now);
  }

  lemma RollsBackStep(t: Task, u: Task, limit: int, now: Time)
    requires t.status == TaskRollingBack && u == Released(t).(status := TaskRolledBack, updatedAt := now)
    ensures TaskStep(t, u, limit, now) && !QueuesRollback(t, u) && SameTask(t, u) && u.status == TaskRolledBack
  {
    assert RollsBack(t, u);
  }

  // ---- sweeps

  function AfterSweep(s: State, w: Sweep, t: Task, now: Time): Task {
    match Swept(s, w, t, now)
    case Skip => t
    case Write(u) => u
  }

  /** The state after a sweep that visited the given keys. */
  function SweptState(s: State, w: Sweep, keys: set<string>, now: Time): State {
    s.(tasks := map k | k in s.tasks :: if k in keys then AfterSweep(s, w, s.tasks[k], now) else s.tasks[k])
  }

  predicate SweepAllowed(s: State, w: Sweep) {
    match w
    case Reaping => true
    case Reverting(rid, _) => rid in s.releases && ValidReleaseTransition(s.releases[rid].status, StatusRollbackPending)
  }

  /** What a sweep writes to the task with key k is lawful in any state that still holds that task. */
  predicate VisitLawful(s: State, w: Sweep, k: string, now: Time)
    requires k in s.tasks
  {
    Swept(s, w, s.tasks[k], now).Write? ==>
      var u := Swept(s, w, s.tasks[k], now).task;
      u.id == k && u.status != TaskLeased && LawfulTaskWrite(s, u, now)
  }

  lemma SweptLawful(s: State, w: Sweep, k: string, now: Time)
    requires Coherent(s, now) && SweepAllowed(s, w) && k in s.tasks
    ensures VisitLawful(s, w, k, now)
  {
    TaskHasRelease(s, k, now);
    assert s.tasks[k].id == k && TaskSound(s.tasks[k], s.releases[s.tasks[k].releaseId].retryLimit, now);
    hide Coherent, DecisionFor;
  }

  lemma WriteStaysLawful(s: State, mid: State, u: Task, now: Time)
    requires LawfulTaskWrite(s, u, now) && u.status != TaskLeased && mid.releases == s.releases
    requires u.id in mid.tasks && mid.tasks[u.id] == s.tasks[u.id]
    ensures LawfulTaskWrite(mid, u, now)
  {}

  lemma LastAdded(order: seq<string>)
    requires order != []
    ensures KeysOf(order) == KeysOf(order[..|order| - 1]) + {order[|order| - 1]}
    ensures Distinct(order) ==> order[|order| - 1] !in KeysOf(order[..|order| - 1])
  {}

  /** One more visit. */
  lemma SweptStep(s: State, w: Sweep, keys: set<string>, k: string, now: Time)
    requires k in s.tasks && k !in keys
    ensures var mid, end := SweptState(s, w, keys, now), SweptState(s, w, keys + {k}, now);
      mid.tasks[k] == s.tasks[k] && end == mid.(tasks := mid.tasks[k := AfterSweep(s, w, s.tasks[k], now)])
  {
    var mid, end := SweptState(s, w, keys, now), SweptState(s, w, keys + {k}, now);
    assert end.tasks == mid.tasks[k := AfterSweep(s, w, s.tasks[k], now)];
  }

  /** A sweep's records are lawful, and their effect does not depend on the order of the visits. */
  lemma {:induction false} SweepLoopLawful(s: State, w: Sweep, order: seq<string>, now: Time)
    requires Distinct(order) && forall k :: k in order ==> k in s.tasks && VisitLawful(s, w, k, now)
    ensures LawfulRun(s, SweepLoop(s, w, order, now), now)
    ensures ApplyAll(s, SweepLoop(s, w, order, now)) == SweptState(s, w, KeysOf(order), now)
  {
    if order == [] {
      assert SweptState(s, w, {}, now) == s;
    } else {
      var n := |order| - 1;
      SweepLoopLawful(s, w, order[..n], now);
      LastAdded(order);
      SweptStep(s, w, KeysOf(order[..n]), order[n], now);
      var mid := SweptState(s, w, KeysOf(order[..n]), now);
      match Swept(s, w, s.tasks[order[n]], now)
      case Skip =>
        assert mid.tasks[order[n] := s.tasks[order[n]]] == mid.tasks;
      case Write(u) =>
        WriteStaysLawful(s, mid, u, now);
        AppendLawful(s, SweepLoop(s, w, order[..n], now), Updated(u), now);
    }
  }

  lemma VisitsLawful(s: State, w: Sweep, now: Time)
    requires Coherent(s, now) && SweepAllowed(s, w)
    ensures forall k :: k in s.tasks ==> VisitLawful(s, w, k, now)
  {
    forall k | k in s.tasks ensures VisitLawful(s, w, k, now) { SweptLawful(s, w, k, now); }
  }

  lemma QueueRollbackLawful(s: State, rid: string, reason: string, order: seq<string>, now: Time)
    requires Coherent(s, now) && Distinct(order) && forall k :: k in order ==> k in s.tasks
    ensures LawfulRun(s, QueueRollback(s, rid, reason, order, now).changes, now)
  {
    if QueueRollback(s, rid, reason, order, now).verdict == Ok {
      var w := Reverting(rid, reason);
      VisitsLawful(s, w, now);
      SweepLoopLawful(s, w, order, now);
      var q := s.releases[rid].(status := StatusRollbackPending, updatedAt := now);
      OneLawful(SweptState(s, w, KeysOf(order), now), Rewritten(q), now);
      RunsCompose(s, SweepLoop(s, w, order, now), [Rewritten(q)], now);
    }
  }

  /** The releases rewritten by reconcile, for the given ids. */
  function ReconciledState(s: State, rids: set<string>, now: Time): State {
    s.(releases := map k | k in s.releases :: if k in rids then Reconciled(s, k, now) else s.releases[k])
  }

  lemma ReconcileStep(s: State, rids: set<string>, rid: string, now: Time)
    requires rid in s.releases && s.releases[rid].id == rid
    ensures var mid, q := ReconciledState(s, rids, now), Reconciled(s, rid, now);
      Lawful(mid, Rewritten(q), now) && Apply(mid, Rewritten(q)) == ReconciledState(s, rids + {rid}, now)
  {
    var mid, q := ReconciledState(s, rids, now), Reconciled(s, rid, now);
    assert WithStatus(mid, rid, TaskCompleted) == WithStatus(s, rid, TaskCompleted);
    assert ReconciledState(s, rids + {rid}, now).releases == mid.releases[rid := q];
  }

  lemma {:induction false} ReconcileLoopLawful(s: State, rids: seq<string>, now: Time)
    requires forall k :: k in rids ==> k in s.releases && s.releases[k].id == k
    ensures LawfulRun(s, ReconcileLoop(s, rids, now), now)
    ensures ApplyAll(s, ReconcileLoop(s, rids, now)) == ReconciledState(s, KeysOf(rids), now)
  {
    if rids == [] {
      assert ReconciledState(s, {}, now) == s;
    } else {
      var n := |rids| - 1;
      ReconcileLoopLawful(s, rids[..n], now);
      LastAdded(rids);
      ReconcileStep(s, KeysOf(rids[..n]), rids[n], now);
      var before, c := ReconcileLoop(s, rids[..n], now), Rewritten(Reconciled(s, rids[n], now));
      assert ReconcileLoop(s, rids, now) == before + [c];
      hide *;
      AppendLawful(s, before, c, now);
    }
  }

  lemma ReapExpiredLawful(s: State, order: seq<string>, rids: seq<string>, now: Time)
    requires Coherent(s, now) && now > 0 && Distinct(order) && forall k :: k in order ==> k in s.tasks
    requires forall k :: k in rids ==> k in s.releases
    ensures LawfulRun(s, ReapExpired(s, order, rids, now).changes, now)
  {
    var sweep := SweepLoop(s, Reaping, order, now);
    VisitsLawful(s, Reaping, now);
    SweepLoopLawful(s, Reaping, order, now);
    LawfulRunKeepsCoherent(s, sweep, now);
    ReconcileLoopLawful(ApplyAll(s, sweep), rids, now);
    RunsCompose(s, sweep, ReconcileLoop(ApplyAll(s, sweep), rids, now), now);
  }
}
