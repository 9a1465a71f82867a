/** Which calls take a task out of a completed release, and which calls end the completion of a release. */
module Completion {
  import opened Domain
  import opened Projection
  import opened Lifecycle
  import opened CommandLaws
  import opened Runs
  import opened Releases
  import opened Guarantees
  import opened Calls
  import C = Commands
  import D = Dispatch

  // ---- the records of a call revoke nothing

  predicate Unrevoked(s: State, cs: seq<Change>) {
    cs == [] || (Unrevoked(s, cs[..|cs| - 1]) && !Revokes(ApplyAll(s, cs[..|cs| - 1]), cs[|cs| - 1]))
  }

  lemma UnrevokedSnoc(s: State, cs: seq<Change>, c: Change)
    requires Unrevoked(s, cs) && !Revokes(ApplyAll(s, cs), c)
    ensures Unrevoked(s, cs + [c])
  {
    assert (cs + [c])[..|cs + [c]| - 1] == cs;
  }

  /** Records that write no task may follow. */
  lemma {:induction false} UnrevokedThen(s: State, cs: seq<Change>, ds: seq<Change>)
    requires Unrevoked(s, cs) && forall c :: c in ds ==> c.kind != TaskUpdated
    ensures Unrevoked(s, cs + ds)
  {
    if ds == [] {
      assert cs + ds == cs;
    } else {
      var n := |ds| - 1;
      UnrevokedThen(s, cs, ds[..n]);
      assert ds[n] in ds && cs + ds == cs + ds[..n] + [ds[n]];
      hide Unrevoked;
      UnrevokedSnoc(s, cs + ds[..n], ds[n]);
    }
  }

  lemma NoTaskUnrevoked(s: State, cs: seq<Change>)
    requires forall c :: c in cs ==> c.kind != TaskUpdated
    ensures Unrevoked(s, cs)
  {
    UnrevokedThen(s, [], cs);
    assert [] + cs == cs;
  }

  lemma TaskUnrevoked(s: State, u: Task, ds: seq<Change>)
    requires !Revokes(s, Updated(u)) && forall c :: c in ds ==> c.kind != TaskUpdated
    ensures Unrevoked(s, [Updated(u)] + ds) && Unrevoked(s, [Updated(u)])
  {
    UnrevokedSnoc(s, [], Updated(u));
    assert [] + [Updated(u)] == [Updated(u)];
    UnrevokedThen(s, [Updated(u)], ds);
  }

  lemma SettleUnrevoked(s: State, u: Task, now: Time)
    requires !Revokes(s, Updated(u))
    ensures Unrevoked(s, C.Settle(s, u, now))
  {
    TaskUnrevoked(s, u, C.Reconcile(Projection.Apply(s, Updated(u)), u.releaseId, now));
  }

  /** Every task a sweep visits is still as it was before the sweep. */
  lemma {:induction false} SweepUnrevoked(s: State, w: C.Sweep, order: seq<string>, now: Time)
    requires C.Distinct(order) && forall k :: k in order ==> k in s.tasks && VisitLawful(s, w, k, now)
    requires forall k :: k in order && C.Swept(s, w, s.tasks[k], now).Write? ==>
      !Revokes(s, Updated(C.Swept(s, w, s.tasks[k], now).task))
    ensures Unrevoked(s, C.SweepLoop(s, w, order, now))
  {
    if order != [] {
      var n := |order| - 1;
      var before, k := C.SweepLoop(s, w, order[..n], now), order[n];
      SweepUnrevoked(s, w, order[..n], now);
      SweepLoopLawful(s, w, order[..n], now);
      LastAdded(order);
      if C.Swept(s, w, s.tasks[k], now).Write? {
        var u := C.Swept(s, w, s.tasks[k], now).task;
        SameRevokes(s, w, C.KeysOf(order[..n]), u, now);
        hide *;
        UnrevokedSnoc(s, before, Updated(u));
        assert C.SweepLoop(s, w, order, now) == before + [Updated(u)] by { SweepSnoc(s, w, order, now); }
      }
    }
  }

  lemma SweepSnoc(s: State, w: C.Sweep, order: seq<string>, now: Time)
    requires order != [] && forall k :: k in order ==> k in s.tasks
    requires C.Swept(s, w, s.tasks[order[|order| - 1]], now).Write?
    ensures C.SweepLoop(s, w, order, now) == C.SweepLoop(s, w, order[..|order| - 1], now)
      + [Updated(C.Swept(s, w, s.tasks[order[|order| - 1]], now).task)]
  {}

  lemma SameRevokes(s: State, w: C.Sweep, keys: set<string>, u: Task, now: Time)
    requires u.id !in keys
    ensures Revokes(SweptState(s, w, keys, now), Updated(u)) == Revokes(s, Updated(u))
  {}

  lemma {:induction false} ReconcileLoopWritesNoTask(s: State, rids: seq<string>, now: Time)
    ensures forall c :: c in C.ReconcileLoop(s, rids, now) ==> c.kind != TaskUpdated
  {
    if rids != [] { ReconcileLoopWritesNoTask(s, rids[..|rids| - 1], now); }
  }

  lemma ReapUnrevoked(s: State, order: seq<string>, rids: seq<string>, now: Time)
    requires Coherent(s, now) && C.Visits(order, s.tasks.Keys) && forall k :: k in order ==> k in s.tasks
    ensures Unrevoked(s, C.ReapExpired(s, order, rids, now).changes)
  {
    var sweep := C.SweepLoop(s, C.Reaping, order, now);
    VisitsLawful(s, C.Reaping, now);
    forall k | k in order && C.Swept(s, C.Reaping, s.tasks[k], now).Write?
      ensures !Revokes(s, Updated(C.Swept(s, C.Reaping, s.tasks[k], now).task))
    {
      assert s.tasks[k].id == k;
    }
    hide Coherent, Revokes, Unrevoked, VisitLawful;
    SweepUnrevoked(s, C.Reaping, order, now);
    ReconcileLoopWritesNoTask(ApplyAll(s, sweep), rids, now);
    UnrevokedThen(s, sweep, C.ReconcileLoop(ApplyAll(s, sweep), rids, now));
  }

  /** QueueRollback is refused on a completed release, so none of the tasks it writes belongs to one. */
  lemma QueueUnrevoked(s: State, rid: string, reason: string, order: seq<string>, now: Time)
    requires Coherent(s, now) && C.Visits(order, s.tasks.Keys) && forall k :: k in order ==> k in s.tasks
    ensures Unrevoked(s, C.QueueRollback(s, rid, reason, order, now).changes)
  {
    if C.QueueRollback(s, rid, reason, order, now).verdict == Ok {
      var w := C.Reverting(rid, reason);
      assert SweepAllowed(s, w) && s.releases[rid].status != StatusCompleted;
      hide C.SweepLoop;
      QueueSpareCompleted(s, rid, reason, now);
      VisitsLawful(s, w, now);
      hide *;
      SweepUnrevoked(s, w, order, now);
      QueueRecords(s, rid, reason, order, now);
      UnrevokedThen(s, C.SweepLoop(s, w, order, now),
                    [Rewritten(s.releases[rid].(status := StatusRollbackPending, updatedAt := now))]);
    } else {
      NoTaskUnrevoked(s, []);
    }
  }

  lemma QueueSpareCompleted(s: State, rid: string, reason: string, now: Time)
    requires Coherent(s, now) && rid in s.releases && s.releases[rid].status != StatusCompleted
    ensures forall k :: k in s.tasks && C.Swept(s, C.Reverting(rid, reason), s.tasks[k], now).Write? ==>
      !Revokes(s, Updated(C.Swept(s, C.Reverting(rid, reason), s.tasks[k], now).task))
  {
    forall k | k in s.tasks && C.Swept(s, C.Reverting(rid, reason), s.tasks[k], now).Write?
      ensures !Revokes(s, Updated(C.Swept(s, C.Reverting(rid, reason), s.tasks[k], now).task))
    {
      assert s.tasks[k].id == k;
    }
    hide Coherent, C.Swept, Revokes;
  }

  lemma QueueRecords(s: State, rid: string, reason: string, order: seq<string>, now: Time)
    requires forall k :: k in order ==> k in s.tasks
    requires C.QueueRollback(s, rid, reason, order, now).verdict == Ok
    ensures rid in s.releases
    ensures C.QueueRollback(s, rid, reason, order, now).changes
      == C.SweepLoop(s, C.Reverting(rid, reason), order, now)
         + [Rewritten(s.releases[rid].(status := StatusRollbackPending, updatedAt := now))]
  {
    hide C.SweepLoop;
  }

  lemma ClaimUnrevoked(s: State, device: string, agent: string, ttl: int, now: Time)
    requires Coherent(s, now)
    ensures Unrevoked(s, D.Claim(s, device, agent, ttl, now).changes)
  {
    if D.Claim(s, device, agent, ttl, now).verdict == Ok {
      var c, q := ClaimShape(s, device, agent, ttl, now);
      var u := c.data.task;
      hide D.Claim, Coherent, Lawful;
      TaskUnrevoked(s, u, [Rewritten(q)]);
      assert [c] + [Rewritten(q)] == [c, Rewritten(q)];
    }
  }

  lemma CompleteRollbackUnrevoked(s: State, id: string, agent: string, now: Time)
    requires Coherent(s, now)
    ensures Unrevoked(s, C.CompleteRollback(s, id, agent, now).changes)
  {
    CompleteRollbackShape(s, id, agent, now);
    if MayFinish(s, id, agent, now) {
      var u := Released(s.tasks[id]).(status := TaskRolledBack, updatedAt := now);
      assert s.tasks[id].id == id && !Revokes(s, Updated(u));
      hide C.CompleteRollback, Coherent, MayFinish;
      TaskUnrevoked(s, u, C.Finish(Projection.Apply(s, Updated(u)), u.releaseId, now).changes);
    }
  }

  /** An operator's reject, or a fail or reject by an agent without a name. */
  predicate Overrules(call: Call) {
    match call
    case UpdateTask(_, action, _) => action == C.Reject
    case RejectTask(_, agent, _) => agent == ""
    case FailTask(_, agent, _, _) => agent == ""
    case _ => false
  }

  lemma OperatorUnrevoked(s: State, id: string, action: C.TaskAction, reason: string, now: Time)
    requires Coherent(s, now) && (action == C.Reject ==> !OfCompleted(s, id))
    ensures Unrevoked(s, C.UpdateTask(s, id, action, reason, now).changes)
  {
    if id in s.tasks {
      assert s.tasks[id].id == id;
      match C.Acted(s.tasks[id], action, reason, now)
      case Denied(_) =>
      case Done(u) =>
        assert !Revokes(s, Updated(u));
        hide *;
        SettleUnrevoked(s, u, now);
    }
  }

  lemma PreflightUnrevoked(s: State, id: string, ok: bool, detail: string, now: Time)
    requires Coherent(s, now)
    ensures Unrevoked(s, C.ReportPreflight(s, id, ok, detail, now).changes)
  {
    if id in s.tasks && (s.tasks[id].status == TaskInstalling || s.tasks[id].status == TaskLeased) {
      var t := s.tasks[id].(updatedAt := now);
      var u := if ok then t.(status := TaskAwaiting, error := "") else t.(status := TaskFailed, error := detail);
      assert t.id == id && !Revokes(s, Updated(u));
      hide Coherent, Unrevoked, C.Settle;
      SettleUnrevoked(s, u, now);
    }
  }

  lemma ConfirmUnrevoked(s: State, id: string, agent: string, now: Time)
    requires Coherent(s, now)
    ensures Unrevoked(s, C.ConfirmInstall(s, id, agent, now).changes)
  {
    var o := C.ConfirmInstall(s, id, agent, now);
    if o.changes != [] {
      var u := Released(s.tasks[id]).(status := TaskCompleted, updatedAt := now);
      assert o.changes == C.Settle(s, u, now) by { hide C.Settle; }
      assert u.id in s.tasks && s.tasks[u.id].status != TaskCompleted by { assert s.tasks[id].id == id; }
      hide *;
      NotCompleted(s, u);
      SettleUnrevoked(s, u, now);
    }
  }

  /** The lease of a completed task has been released, so no named agent passes VerifyLease. */
  lemma NamedSpares(s: State, id: string, agent: string, u: Task, now: Time)
    requires Coherent(s, now) && id in s.tasks && u.id == id && VerifyLease(s.tasks[id], agent, now) == Ok
    requires agent == "" ==> !OfCompleted(s, id)
    ensures !Revokes(s, Updated(u))
  {
    TaskHasRelease(s, id, now);
    assert TaskSound(s.tasks[id], Limit(s, id), now);
  }

  lemma FailUnrevoked(s: State, id: string, agent: string, reason: string, retryable: bool, now: Time)
    requires Coherent(s, now) && (agent == "" ==> !OfCompleted(s, id))
    ensures Unrevoked(s, C.FailTask(s, id, agent, reason, retryable, now).changes)
  {
    if id in s.tasks && VerifyLease(s.tasks[id], agent, now) == Ok {
      var t := s.tasks[id];
      TaskHasRelease(s, id, now);
      assert t.id == id;
      var u := if !retryable || !CanScheduleRetry(t, Limit(s, id))
               then Released(t).(status := TaskFailed, error := reason, updatedAt := now)
               else RetryScheduled(t, now, SECOND, Limit(s, id), reason);
      assert u.id == id;
      hide Coherent, Unrevoked, C.Settle, Revokes, OfCompleted, RetryScheduled, VerifyLease;
      NamedSpares(s, id, agent, u, now);
      SettleUnrevoked(s, u, now);
    }
  }

  lemma RejectUnrevoked(s: State, id: string, agent: string, reason: string, now: Time)
    requires Coherent(s, now) && (agent == "" ==> !OfCompleted(s, id))
    ensures Unrevoked(s, C.RejectTask(s, id, agent, reason, now).changes)
  {
    var o := C.RejectTask(s, id, agent, reason, now);
    if o.verdict == Ok {
      var u := o.changes[0].data.task;
      assert u.id == id && o.changes == [Updated(u)] by { assert s.tasks[id].id == id; }
      NamedSpares(s, id, agent, u, now);
      hide C.RejectTask, Coherent, Unrevoked, Revokes;
      TaskUnrevoked(s, u, []);
    }
  }

  /** The calls that write one task and nothing else never write a completed one. */
  lemma SingleUnrevoked(s: State, call: Call, now: Time)
    requires Coherent(s, now) && May(s, call, now)
    requires call.RetryTask? || call.StartTask? || call.ReportProgress? || call.RenewLease? || call.ClaimRollback?
    ensures Unrevoked(s, Perform(s, call, now).changes)
  {
    hide C.RegisterDevice, C.DeviceHeartbeat, C.CreateRelease, C.SetRelease, C.RequestRollback, C.UpdateTask;
    hide C.ReportPreflight, D.Claim, C.RejectTask, C.FailTask, C.ConfirmInstall, C.QueueRollback, C.CompleteRollback;
    hide C.ReapExpired, C.Visits, FreshIds, C.ReapedReleases, TaskSound, ReleaseSound;
    var cs := Perform(s, call, now).changes;
    if cs != [] {
      var u := cs[0].data.task;
      assert cs == [Updated(u)] && u.id in s.tasks && s.tasks[u.id].status != TaskCompleted;
      hide *;
      NotCompleted(s, u);
      TaskUnrevoked(s, u, []);
    }
  }

  lemma NotCompleted(s: State, u: Task)
    requires u.id in s.tasks && s.tasks[u.id].status != TaskCompleted
    ensures !Revokes(s, Updated(u))
  {}

  /** The calls that write no task. */
  lemma TasklessUnrevoked(s: State, call: Call, now: Time)
    requires May(s, call, now)
    requires call.RegisterDevice? || call.DeviceHeartbeat? || call.CreateRelease? || call.SetRelease?
      || call.RequestRollback?
    ensures Unrevoked(s, Perform(s, call, now).changes)
  {
    NoTaskUnrevoked(s, Perform(s, call, now).changes);
  }

  /** No call takes a task out of a completed release, except those three on that very task. */
  lemma CallRevokesNothing(s: State, call: Call, now: Time)
    requires Coherent(s, now) && May(s, call, now) && (Overrules(call) ==> !OfCompleted(s, call.id))
    ensures Unrevoked(s, Perform(s, call, now).changes)
  {
    hide Coherent, Unrevoked, OfCompleted, C.Visits, C.RollbackCandidates, C.Oldest, FreshIds, C.ReapedReleases;
    hide C.UpdateTask, C.ReportPreflight, D.Claim, C.RejectTask, C.FailTask, C.ConfirmInstall, C.QueueRollback;
    hide C.CompleteRollback, C.ReapExpired, C.StartTask, C.ReportProgress, C.RenewLease, C.ClaimRollback, C.RetryTask;
    hide C.RegisterDevice, C.DeviceHeartbeat, C.CreateRelease, C.SetRelease, C.RequestRollback;
    match call
    case UpdateTask(id, action, reason) => OperatorUnrevoked(s, id, action, reason, now);
    case ReportPreflight(id, ok, detail) => PreflightUnrevoked(s, id, ok, detail, now);
    case Claim(device, agent, ttl) => ClaimUnrevoked(s, device, agent, ttl, now);
    case RejectTask(id, agent, reason) => RejectUnrevoked(s, id, agent, reason, now);
    case FailTask(id, agent, reason, retryable) => FailUnrevoked(s, id, agent, reason, retryable, now);
    case ConfirmInstall(id, agent) => ConfirmUnrevoked(s, id, agent, now);
    case QueueRollback(rid, reason, order) =>
      Visited(order, s.tasks.Keys);
      QueueUnrevoked(s, rid, reason, order, now);
    case CompleteRollback(id, agent) => CompleteRollbackUnrevoked(s, id, agent, now);
    case ReapExpired(order, rids) =>
      Visited(order, s.tasks.Keys);
      ReapUnrevoked(s, order, rids, now);
    case RetryTask(_) => SingleUnrevoked(s, call, now);
    case StartTask(_, _) => SingleUnrevoked(s, call, now);
    case ReportProgress(_, _, _, _) => SingleUnrevoked(s, call, now);
    case RenewLease(_, _, _) => SingleUnrevoked(s, call, now);
    case ClaimRollback(_, _, _) => SingleUnrevoked(s, call, now);
    case _ => TasklessUnrevoked(s, call, now);
  }

  // ---- completed releases stay settled

  lemma {:induction false} UnrevokedSettles(s: State, cs: seq<Change>, n: nat, now: Time)
    requires Coherent(s, now) && now > 0 && AllSettled(s) && LawfulRun(s, cs, now) && Unrevoked(s, cs) && n <= |cs|
    ensures AllSettled(ApplyAll(s, cs[..n]))
  {
    hide Coherent, AllSettled, Revokes, Lawful;
    if cs == [] {
      assert cs[..n] == cs;
    } else if n < |cs| {
      UnrevokedSettles(s, cs[..|cs| - 1], n, now);
      assert cs[..|cs| - 1][..n] == cs[..n];
    } else {
      var m := |cs| - 1;
      assert cs[..n] == cs && cs[..m][..m] == cs[..m];
      UnrevokedSettles(s, cs[..m], m, now);
      LawfulRunKeepsCoherent(s, cs[..m], now);
      SettledStep(ApplyAll(s, cs[..m]), cs[m], now);
    }
  }

  /**
    The guard: one of those calls, accepted, on a task of a completed release. Only a final failure that the policy does
    not tolerate is excepted, since the reconciliation after it reopens the release, unless a crash comes in between.
   */
  predicate Unsettles(s: State, step: Step) {
    Overrules(step.call) && OfCompleted(s, step.call.id) && step.kept > 0 &&
    match step.call
    case FailTask(id, _, _, retryable) =>
      !(FailsForGood(s, id, retryable) && Intolerant(s.releases[s.tasks[id].releaseId].rollback) && step.kept == 2)
    case _ => true
  }

  lemma SettleCut(s: State, u: Task, now: Time)
    requires u.releaseId in s.releases
    ensures var cs := C.Settle(s, u, now);
      |cs| == 2 && cs[..0] == [] && cs[..1] == [Updated(u)] && cs[..2] == cs
  {}

  /** A completed task is taken back, and a crash comes before the reconciliation. */
  lemma CutUnsettles(s: State, u: Task)
    requires u.status != TaskCompleted && OfCompleted(s, u.id) && s.tasks[u.id].releaseId == u.releaseId
    ensures !AllSettled(ApplyAll(s, [Updated(u)]))
  {
    ApplyOne(s, Updated(u));
    hide AllSettled, OfCompleted;
    WrittenUnsettled(s, u);
  }

  lemma OperatorStep(s: State, id: string, reason: string, now: Time, kept: nat)
    requires Coherent(s, now) && now > 0 && StatusesSound(s) && AllSettled(s) && OfCompleted(s, id)
    requires kept <= |C.UpdateTask(s, id, C.Reject, reason, now).changes|
    ensures AllSettled(ApplyAll(s, C.UpdateTask(s, id, C.Reject, reason, now).changes[..kept])) <==> kept == 0
  {
    CompletedTask(s, id, now);
    InState(s, id);
    hide *;
    var u := RejectRecord(s, id, reason, now);
    SettleCut(s, u, now);
    if kept == 0 {
      NothingApplied(s);
    } else {
      CompletedReject(s, id, reason, now);
      CutUnsettles(s, u);
    }
  }

  lemma CompletedReject(s: State, id: string, reason: string, now: Time)
    requires Coherent(s, now) && now > 0 && StatusesSound(s) && AllSettled(s) && OfCompleted(s, id)
    ensures !AllSettled(ApplyAll(s, C.UpdateTask(s, id, C.Reject, reason, now).changes))
  {
    assert C.UpdateTask(s, id, C.Reject, reason, now).verdict == Ok by { hide C.Settle; }
    assert s.releases[s.tasks[id].releaseId].status == StatusCompleted;
    hide *;
    RejectUnsettlesExactly(s, id, C.Reject, reason, now);
  }

  lemma NothingApplied(s: State)
    ensures ApplyAll(s, []) == s
  {}

  lemma FailStep(s: State, id: string, agent: string, reason: string, retryable: bool, now: Time, kept: nat)
    requires Coherent(s, now) && now > 0 && StatusesSound(s) && AllSettled(s) && OfCompleted(s, id)
    requires kept <= |C.FailTask(s, id, agent, reason, retryable, now).changes|
    ensures AllSettled(ApplyAll(s, C.FailTask(s, id, agent, reason, retryable, now).changes[..kept])) <==>
      kept == 0 ||
      (FailsForGood(s, id, retryable) && Intolerant(s.releases[s.tasks[id].releaseId].rollback) && kept == 2)
  {
    hide *;
    if kept == 0 {
      NothingApplied(s);
    } else {
      Accepted(s, id, agent, reason, retryable, now);
      var u := FailedOnCompleted(s, id, agent, reason, retryable, now);
      InState(s, u.id);
      SettleCut(s, u, now);
      FailUnsettlesExactly(s, id, agent, reason, retryable, now);
      CutUnsettles(s, u);
    }
  }

  lemma InState(s: State, id: string)
    requires OfCompleted(s, id)
    ensures id in s.tasks && s.tasks[id].releaseId in s.releases
  {}

  lemma Accepted(s: State, id: string, agent: string, reason: string, retryable: bool, now: Time)
    ensures var o := C.FailTask(s, id, agent, reason, retryable, now); o.changes != [] ==> o.verdict == Ok
  {
    hide C.Settle;
  }

  lemma RejectStep(s: State, id: string, agent: string, reason: string, now: Time, kept: nat)
    requires Coherent(s, now) && AllSettled(s) && OfCompleted(s, id)
    requires kept <= |C.RejectTask(s, id, agent, reason, now).changes|
    ensures AllSettled(ApplyAll(s, C.RejectTask(s, id, agent, reason, now).changes[..kept])) <==> kept == 0
  {
    NothingApplied(s);
    var cs := C.RejectTask(s, id, agent, reason, now).changes;
    if kept > 0 {
      assert C.RejectTask(s, id, agent, reason, now).verdict == Ok && kept == |cs| && cs[..kept] == cs;
      hide C.RejectTask, Coherent, AllSettled, ApplyAll;
      UnnamedRejectUnsettles(s, id, agent, reason, now);
    }
  }

  /** From a reachable state with settled completed releases a step leads to another one unless the guard holds. */
  lemma StepSettlesExactly(s: State, step: Step, s': State)
    requires Coherent(s, step.at) && StatusesSound(s) && AllSettled(s) && Happens(s, step, s')
    ensures AllSettled(s') <==> !Unsettles(s, step)
  {
    var cs := Perform(s, step.call, step.at).changes;
    hide Coherent, StatusesSound, AllSettled, OfCompleted, ApplyAll, FailsForGood, Intolerant;
    hide C.FailTask, C.RejectTask, C.UpdateTask;
    if Overrules(step.call) && OfCompleted(s, step.call.id) {
      match step.call
      case UpdateTask(id, _, reason) => OperatorStep(s, id, reason, step.at, step.kept);
      case FailTask(id, agent, reason, retryable) => FailStep(s, id, agent, reason, retryable, step.at, step.kept);
      case RejectTask(id, agent, reason) => RejectStep(s, id, agent, reason, step.at, step.kept);
    } else {
      hide May, Perform, Overrules;
      CallLawful(s, step.call, step.at);
      CallRevokesNothing(s, step.call, step.at);
      UnrevokedSettles(s, cs, step.kept, step.at);
    }
  }

  /** In a run of calls and crashes the completed releases stay settled exactly when no step meets the guard. */
  lemma RunSettledExactly(states: seq<State>, steps: seq<Step>)
    requires CallRun(states, steps)
    ensures (forall n :: 0 <= n <= |steps| ==> AllSettled(states[n])) <==>
      (forall n :: 0 <= n < |steps| ==> !Unsettles(states[n], steps[n]))
  {
    if forall n :: 0 <= n <= |steps| ==> AllSettled(states[n]) {
      forall n | 0 <= n < |steps| ensures !Unsettles(states[n], steps[n]) {
        assert AllSettled(states[n]) && AllSettled(states[n + 1]);
        StateInRun(states, steps, n);
        hide *;
        StepSettlesExactly(states[n], steps[n], states[n + 1]);
      }
    }
    if forall n :: 0 <= n < |steps| ==> !Unsettles(states[n], steps[n]) {
      forall n | 0 <= n <= |steps| ensures AllSettled(states[n]) { RunSettledUpTo(states, steps, n); }
    }
  }

  lemma {:induction false} RunSettledUpTo(states: seq<State>, steps: seq<Step>, n: nat)
    requires CallRun(states, steps) && n <= |steps|
    requires forall i :: 0 <= i < |steps| ==> !Unsettles(states[i], steps[i])
    ensures AllSettled(states[n])
  {
    hide *;
    assert |states| == |steps| + 1 by { RunLength(states, steps); }
    if n > 0 {
      RunSettledUpTo(states, steps, n - 1);
      StateInRun(states, steps, n - 1);
      StepSettlesExactly(states[n - 1], steps[n - 1], states[n]);
    } else {
      RunStarts(states, steps);
      NothingSettled();
    }
  }

  lemma NothingSettled()
    ensures AllSettled(EMPTY)
  {}

  lemma {:induction false} RunStarts(states: seq<State>, steps: seq<Step>)
    requires CallRun(states, steps)
    ensures states[0] == EMPTY
  {
    hide Happens;
    if steps != [] { RunStarts(states[..|steps|], steps[..|steps| - 1]); }
  }

  // ---- how the completion of a release ends

  /** No record writes the release. */
  predicate Spares(cs: seq<Change>, rid: string) {
    forall c :: c in cs ==> c.data.ReleaseData? ==> c.data.release.id != rid
  }

  lemma {:induction false} SparedKept(s: State, cs: seq<Change>, n: nat, rid: string)
    requires Spares(cs, rid) && rid in s.releases && n <= |cs|
    ensures var s' := ApplyAll(s, cs[..n]); rid in s'.releases && s'.releases[rid] == s.releases[rid]
  {
    if n > 0 {
      SparedKept(s, cs, n - 1, rid);
      assert cs[n - 1] in cs && cs[..n][..n - 1] == cs[..n - 1];
    }
  }

  lemma SettleSpares(s: State, u: Task, rid: string, now: Time)
    requires u.releaseId != rid && forall k :: k in s.releases ==> s.releases[k].id == k
    ensures Spares(C.Settle(s, u, now), rid)
  {}

  lemma {:induction false} SweepSpares(s: State, w: C.Sweep, order: seq<string>, rid: string, now: Time)
    requires forall k :: k in order ==> k in s.tasks
    ensures Spares(C.SweepLoop(s, w, order, now), rid)
  {
    if order != [] { SweepSpares(s, w, order[..|order| - 1], rid, now); }
  }

  lemma {:induction false} ReconcileLoopSpares(s: State, rids: seq<string>, rid: string, now: Time)
    requires rid !in rids && forall k :: k in s.releases ==> s.releases[k].id == k
    ensures Spares(C.ReconcileLoop(s, rids, now), rid)
  {
    if rids != [] { ReconcileLoopSpares(s, rids[..|rids| - 1], rid, now); }
  }

  /** The release is completed; its tasks are then neither active nor waiting for a rollback. */
  ghost predicate InCompletion(s: State, rid: string, now: Time) {
    && Coherent(s, now) && AllQuiet(s) && rid in s.releases && s.releases[rid].status == StatusCompleted
  }

  lemma QuietTasks(s: State, rid: string, id: string, now: Time)
    requires InCompletion(s, rid, now) && id in s.tasks && s.tasks[id].releaseId == rid
    ensures s.tasks[id].id == id && QuietTask(s.tasks[id])
  {
    assert Quiet(s, rid) && id in C.TasksOf(s, rid);
  }

  lemma CompletedKeyed(s: State, rid: string, now: Time)
    requires InCompletion(s, rid, now)
    ensures forall k :: k in s.releases ==> s.releases[k].id == k
    ensures forall k :: k in s.tasks ==> s.tasks[k].id == k && s.tasks[k].releaseId in s.releases
    ensures rid in s.releases && s.releases[rid].status == StatusCompleted
    ensures forall k :: k in s.tasks && s.tasks[k].releaseId == rid ==> QuietTask(s.tasks[k])
  {
    forall k | k in s.tasks && s.tasks[k].releaseId == rid ensures QuietTask(s.tasks[k]) { QuietTasks(s, rid, k, now); }
  }

  lemma ReapSpares(s: State, order: seq<string>, rids: seq<string>, rid: string, now: Time)
    requires InCompletion(s, rid, now) && May(s, ReapExpired(order, rids), now)
    ensures Spares(Perform(s, ReapExpired(order, rids), now).changes, rid)
  {
    CompletedKeyed(s, rid, now);
    Visited(order, s.tasks.Keys);
    Visited(rids, C.ReapedReleases(s, now));
    assert rid !in rids;
    var sweep := C.SweepLoop(s, C.Reaping, order, now);
    hide C.SweepLoop, C.ReconcileLoop, InCompletion, QuietTask;
    SweepSpares(s, C.Reaping, order, rid, now);
    SweepKeepsReleases(s, C.Reaping, order, now);
    ReconcileLoopSpares(ApplyAll(s, sweep), rids, rid, now);
  }

  lemma {:induction false} SweepKeepsReleases(s: State, w: C.Sweep, order: seq<string>, now: Time)
    requires forall k :: k in order ==> k in s.tasks
    ensures ApplyAll(s, C.SweepLoop(s, w, order, now)).releases == s.releases
  {
    if order != [] {
      var n := |order| - 1;
      SweepKeepsReleases(s, w, order[..n], now);
      if C.Swept(s, w, s.tasks[order[n]], now).Write? {
        SweepSnoc(s, w, order, now);
        var c := Updated(C.Swept(s, w, s.tasks[order[n]], now).task);
        ApplyAllSplit(s, C.SweepLoop(s, w, order[..n], now), [c]);
        ApplyOne(ApplyAll(s, C.SweepLoop(s, w, order[..n], now)), c);
      }
    }
  }

  lemma QueueSpares(s: State, other: string, reason: string, order: seq<string>, rid: string, now: Time)
    requires InCompletion(s, rid, now) && May(s, QueueRollback(other, reason, order), now)
    ensures Spares(Perform(s, QueueRollback(other, reason, order), now).changes, rid)
  {
    CompletedKeyed(s, rid, now);
    Visited(order, s.tasks.Keys);
    hide C.SweepLoop, InCompletion, QuietTask, Coherent;
    SweepSpares(s, C.Reverting(other, reason), order, rid, now);
  }

  /** These release commands are refused on a completed release, and creation takes a new id. */
  lemma ReleaseCallSpares(s: State, call: Call, rid: string, now: Time)
    requires InCompletion(s, rid, now) && May(s, call, now)
    requires call.RegisterDevice? || call.DeviceHeartbeat? || call.CreateRelease? || call.RequestRollback?
      || call.Claim? || (call.SetRelease? && !(call.id == rid && call.todo == C.Rollback))
    ensures Spares(Perform(s, call, now).changes, rid)
  {
    CompletedKeyed(s, rid, now);
    hide InCompletion, QuietTask, C.TasksOf, D.DecisionFor, D.Eligible, D.Head, FreshIds;
    if call.Claim? && D.Claim(s, call.device, call.agent, call.ttl, now).verdict == Ok {
      OpeningSpares(s, call.device, call.agent, call.ttl, rid, now);
    }
  }

  lemma OpeningSpares(s: State, device: string, agent: string, ttl: int, rid: string, now: Time)
    requires InCompletion(s, rid, now) && D.Claim(s, device, agent, ttl, now).verdict == Ok
    ensures Spares(D.Claim(s, device, agent, ttl, now).changes, rid)
  {
    CompletedKeyed(s, rid, now);
    var keys := D.Eligible(s, device, now);
    var h := D.Head(s, keys);
    assert h in s.tasks;
    hide InCompletion, QuietTask, D.DecisionFor, D.Eligible, D.Head;
  }

  /** A task of another release, if the call finds it in a status other than those of the tasks of this one. */
  lemma ActiveElsewhere(s: State, rid: string, id: string, now: Time)
    requires InCompletion(s, rid, now) && id in s.tasks && !QuietTask(s.tasks[id])
    ensures s.tasks[id].releaseId != rid
  {
    if s.tasks[id].releaseId == rid { QuietTasks(s, rid, id, now); }
  }

  lemma OperatorSpares(s: State, id: string, action: C.TaskAction, reason: string, rid: string, now: Time)
    requires InCompletion(s, rid, now) && (action == C.Reject ==> !InRelease(s, id, rid))
    ensures Spares(C.UpdateTask(s, id, action, reason, now).changes, rid)
  {
    if id in s.tasks {
      match C.Acted(s.tasks[id], action, reason, now)
      case Denied(_) =>
      case Done(u) =>
        if action != C.Reject { ActiveElsewhere(s, rid, id, now); }
        CompletedKeyed(s, rid, now);
        hide *;
        SettleSpares(s, u, rid, now);
    }
  }

  lemma PreflightSpares(s: State, id: string, ok: bool, detail: string, rid: string, now: Time)
    requires InCompletion(s, rid, now)
    ensures Spares(C.ReportPreflight(s, id, ok, detail, now).changes, rid)
  {
    if id in s.tasks && (s.tasks[id].status == TaskInstalling || s.tasks[id].status == TaskLeased) {
      var t := s.tasks[id].(updatedAt := now);
      ActiveElsewhere(s, rid, id, now);
      CompletedKeyed(s, rid, now);
      hide InCompletion, C.Settle, Spares, QuietTask;
      SettleSpares(s, t.(status := TaskAwaiting, error := ""), rid, now);
      SettleSpares(s, t.(status := TaskFailed, error := detail), rid, now);
    }
  }

  lemma ConfirmSpares(s: State, id: string, agent: string, rid: string, now: Time)
    requires InCompletion(s, rid, now)
    ensures Spares(C.ConfirmInstall(s, id, agent, now).changes, rid)
  {
    if id in s.tasks && s.tasks[id].status == TaskAwaiting {
      ActiveElsewhere(s, rid, id, now);
      CompletedKeyed(s, rid, now);
      hide InCompletion, C.Settle, Spares, QuietTask;
      SettleSpares(s, Released(s.tasks[id]).(status := TaskCompleted, updatedAt := now), rid, now);
    }
  }

  lemma FailSpares(s: State, id: string, agent: string, reason: string, retryable: bool, rid: string, now: Time)
    requires InCompletion(s, rid, now) && (agent == "" ==> !InRelease(s, id, rid))
    ensures Spares(C.FailTask(s, id, agent, reason, retryable, now).changes, rid)
  {
    if id in s.tasks && VerifyLease(s.tasks[id], agent, now) == Ok {
      var t := s.tasks[id];
      if agent != "" { ActiveElsewhere(s, rid, id, now); }
      CompletedKeyed(s, rid, now);
      var u, v := Released(t).(status := TaskFailed, error := reason, updatedAt := now),
        if CanScheduleRetry(t, Limit(s, id)) then RetryScheduled(t, now, SECOND, Limit(s, id), reason) else t;
      assert u.releaseId == v.releaseId == t.releaseId != rid;
      hide InCompletion, C.Settle, Spares, QuietTask, RetryScheduled, VerifyLease, CanScheduleRetry;
      SettleSpares(s, u, rid, now);
      SettleSpares(s, v, rid, now);
    }
  }

  lemma RollbackSpares(s: State, id: string, agent: string, rid: string, now: Time)
    requires InCompletion(s, rid, now)
    ensures Spares(C.CompleteRollback(s, id, agent, now).changes, rid)
  {
    CompleteRollbackShape(s, id, agent, now);
    if MayFinish(s, id, agent, now) {
      var u := Released(s.tasks[id]).(status := TaskRolledBack, updatedAt := now);
      ActiveElsewhere(s, rid, id, now);
      CompletedKeyed(s, rid, now);
      hide *;
      FinishSpares(s, u, rid, now);
    }
  }

  lemma FinishSpares(s: State, u: Task, rid: string, now: Time)
    requires u.releaseId != rid && forall k :: k in s.releases ==> s.releases[k].id == k
    ensures Spares([Updated(u)] + C.Finish(Projection.Apply(s, Updated(u)), u.releaseId, now).changes, rid)
  {
    hide C.AllReverted;
  }

  lemma SingleSpares(s: State, call: Call, rid: string, now: Time)
    requires May(s, call, now)
    requires call.RetryTask? || call.StartTask? || call.ReportProgress? || call.RenewLease? || call.ClaimRollback?
      || call.RejectTask?
    ensures Spares(Perform(s, call, now).changes, rid)
  {}

  predicate InRelease(s: State, id: string, rid: string) { id in s.tasks && s.tasks[id].releaseId == rid }

  /** An order, a reject, and a fail by an agent without a name: no other call writes a completed release. */
  predicate MayEnd(s: State, call: Call, rid: string) {
    match call
    case SetRelease(id, todo) => id == rid && todo == C.Rollback
    case UpdateTask(id, action, _) => action == C.Reject && InRelease(s, id, rid)
    case FailTask(id, agent, _, _) => agent == "" && InRelease(s, id, rid)
    case _ => false
  }

  lemma CallSpares(s: State, call: Call, rid: string, now: Time)
    requires InCompletion(s, rid, now) && May(s, call, now) && !MayEnd(s, call, rid)
    ensures Spares(Perform(s, call, now).changes, rid)
  {
    hide InCompletion, InRelease, Spares, C.Visits, C.RollbackCandidates, C.Oldest, FreshIds, C.ReapedReleases;
    hide C.UpdateTask, C.ReportPreflight, D.Claim, C.RejectTask, C.FailTask, C.ConfirmInstall, C.QueueRollback;
    hide C.CompleteRollback, C.ReapExpired, C.StartTask, C.ReportProgress, C.RenewLease, C.ClaimRollback, C.RetryTask;
    hide C.RegisterDevice, C.DeviceHeartbeat, C.CreateRelease, C.SetRelease, C.RequestRollback;
    match call
    case UpdateTask(id, action, reason) => OperatorSpares(s, id, action, reason, rid, now);
    case ReportPreflight(id, ok, detail) => PreflightSpares(s, id, ok, detail, rid, now);
    case FailTask(id, agent, reason, retryable) => FailSpares(s, id, agent, reason, retryable, rid, now);
    case ConfirmInstall(id, agent) => ConfirmSpares(s, id, agent, rid, now);
    case QueueRollback(other, reason, order) => QueueSpares(s, other, reason, order, rid, now);
    case CompleteRollback(id, agent) => RollbackSpares(s, id, agent, rid, now);
    case ReapExpired(order, rids) => ReapSpares(s, order, rids, rid, now);
    case RetryTask(_) => SingleSpares(s, call, rid, now);
    case StartTask(_, _) => SingleSpares(s, call, rid, now);
    case RejectTask(_, _, _) => SingleSpares(s, call, rid, now);
    case ReportProgress(_, _, _, _) => SingleSpares(s, call, rid, now);
    case RenewLease(_, _, _) => SingleSpares(s, call, rid, now);
    case ClaimRollback(_, _, _) => SingleSpares(s, call, rid, now);
    case _ => ReleaseCallSpares(s, call, rid, now);
  }

  /** The policy of the task's release calls for a rollback once this task has failed, or no longer has. */
  predicate Overflown(s: State, id: string, fails: bool)
    requires id in s.tasks && s.tasks[id].releaseId in s.releases
  {
    var rid, policy := s.tasks[id].releaseId, s.releases[s.tasks[id].releaseId].rollback;
    policy.auto && |C.WithStatus(s, rid, TaskFailed) - {id}| + (if fails then 1 else 0) > policy.maxFailures
  }

  /** The guard: an order, or a reject or unnamed fail, complete with its reconciliation, that the policy reacts to. */
  predicate EndsCompletion(s: State, step: Step, rid: string)
    requires rid in s.releases
  {
    MayEnd(s, step.call, rid) &&
    match step.call
    case SetRelease(_, _) => step.kept == 1
    case UpdateTask(id, _, _) => step.kept == 2 && Overflown(s, id, false)
    case FailTask(id, _, _, retryable) => step.kept == 2 && Overflown(s, id, FailsForGood(s, id, retryable))
    case _ => false
  }

  lemma FailedAfter(s: State, u: Task, rid: string)
    requires InRelease(s, u.id, rid) && u.releaseId == rid
    ensures |C.WithStatus(Projection.Apply(s, Updated(u)), rid, TaskFailed)|
      == |C.WithStatus(s, rid, TaskFailed) - {u.id}| + if u.status == TaskFailed then 1 else 0
  {
    FailedSet(s, u, rid);
    hide *;
    var rest := C.WithStatus(s, rid, TaskFailed) - {u.id};
    assert u.id !in rest && |rest + {u.id}| == |rest| + 1 && rest + {} == rest;
  }

  lemma FailedSet(s: State, u: Task, rid: string)
    requires InRelease(s, u.id, rid) && u.releaseId == rid
    ensures C.WithStatus(Projection.Apply(s, Updated(u)), rid, TaskFailed)
      == (C.WithStatus(s, rid, TaskFailed) - {u.id}) + if u.status == TaskFailed then {u.id} else {}
  {}

  /** Settle on a task of a completed release keeps it completed unless its policy calls for a rollback. */
  lemma SettleStep(s: State, u: Task, rid: string, now: Time, kept: nat)
    requires InCompletion(s, rid, now) && InRelease(s, u.id, rid) && u.releaseId == rid && kept <= 2
    ensures |C.Settle(s, u, now)| == 2 && rid in s.releases
    ensures var s' := ApplyAll(s, C.Settle(s, u, now)[..kept]);
      && rid in s'.releases
      && (s'.releases[rid].status != StatusCompleted <==> kept == 2 && Overflown(s, u.id, u.status == TaskFailed))
  {
    CompletedKeyed(s, rid, now);
    hide *;
    var s1 := Projection.Apply(s, Updated(u));
    SettleCut(s, u, now);
    SettleResult(s, u, now);
    if kept == 0 {
      NothingApplied(s);
    } else if kept == 1 {
      ApplyOne(s, Updated(u));
    } else {
      ReconciledStatus(s, u, rid, now);
      RewrittenRelease(s1, C.Reconciled(s1, rid, now));
    }
  }

  lemma RewrittenRelease(s: State, q: Release)
    ensures var s' := Projection.Apply(s, Rewritten(q)); q.id in s'.releases && s'.releases[q.id] == q
  {}

  lemma ReconciledStatus(s: State, u: Task, rid: string, now: Time)
    requires InRelease(s, u.id, rid) && u.releaseId == rid
    requires rid in s.releases && s.releases[rid].id == rid && s.releases[rid].status == StatusCompleted
    ensures var s1 := Projection.Apply(s, Updated(u));
      && s1.releases == s.releases && C.Reconciled(s1, rid, now).id == rid
      && (C.Reconciled(s1, rid, now).status != StatusCompleted <==> Overflown(s, u.id, u.status == TaskFailed))
  {
    FailedAfter(s, u, rid);
    hide C.WithStatus;
  }

  lemma OperatorEnds(s: State, id: string, reason: string, rid: string, now: Time, kept: nat)
    requires InCompletion(s, rid, now) && InRelease(s, id, rid) && rid in s.releases
    requires kept <= |C.UpdateTask(s, id, C.Reject, reason, now).changes|
    ensures var s' := ApplyAll(s, C.UpdateTask(s, id, C.Reject, reason, now).changes[..kept]);
      rid in s'.releases && (s'.releases[rid].status != StatusCompleted <==> kept == 2 && Overflown(s, id, false))
  {
    CompletedKeyed(s, rid, now);
    assert id in s.tasks && s.tasks[id].releaseId == rid && s.tasks[id].id == id;
    hide *;
    var u := RejectRecord(s, id, reason, now);
    assert InRelease(s, u.id, rid);
    SettleLength(s, u, now);
    SettleStep(s, u, rid, now, kept);
  }

  lemma RejectRecord(s: State, id: string, reason: string, now: Time) returns (u: Task)
    requires id in s.tasks && s.tasks[id].id == id
    ensures u.id == id && u.releaseId == s.tasks[id].releaseId && u.status == TaskRejected
    ensures C.UpdateTask(s, id, C.Reject, reason, now) == C.Accept(C.Settle(s, u, now))
  {
    u := C.Acted(s.tasks[id], C.Reject, reason, now).task;
    hide C.Settle;
  }

  lemma SettleLength(s: State, u: Task, now: Time)
    ensures |C.Settle(s, u, now)| <= 2
  {}

  lemma FailEnds(s: State, id: string, reason: string, retryable: bool, rid: string, now: Time, kept: nat)
    requires InCompletion(s, rid, now) && InRelease(s, id, rid) && rid in s.releases
    requires kept <= |C.FailTask(s, id, "", reason, retryable, now).changes|
    ensures var s' := ApplyAll(s, C.FailTask(s, id, "", reason, retryable, now).changes[..kept]);
      && rid in s'.releases
      && (s'.releases[rid].status != StatusCompleted <==>
            kept == 2 && Overflown(s, id, FailsForGood(s, id, retryable)))
  {
    if kept == 0 {
      CompletedKeyed(s, rid, now);
      hide *;
      NothingApplied(s);
    } else {
      var u := FailRecord(s, id, reason, retryable, rid, now);
      hide *;
      SettleLength(s, u, now);
      SettleStep(s, u, rid, now, kept);
    }
  }

  lemma FailRecord(s: State, id: string, reason: string, retryable: bool, rid: string, now: Time) returns (u: Task)
    requires InCompletion(s, rid, now) && InRelease(s, id, rid) && rid in s.releases
    requires C.FailTask(s, id, "", reason, retryable, now).changes != []
    ensures u.id == id && u.releaseId == rid && InRelease(s, u.id, rid)
    ensures u.status == TaskFailed <==> FailsForGood(s, id, retryable)
    ensures C.FailTask(s, id, "", reason, retryable, now).changes == C.Settle(s, u, now)
  {
    var t := s.tasks[id];
    CompletedKeyed(s, rid, now);
    u := if !retryable then Released(t).(status := TaskFailed, error := reason, updatedAt := now)
         else if CanScheduleRetry(t, Limit(s, id)) then RetryScheduled(t, now, SECOND, Limit(s, id), reason) else t;
    hide InCompletion, C.Settle, QuietTask;
  }

  lemma OrderEnds(s: State, rid: string, now: Time, kept: nat)
    requires rid in s.releases && s.releases[rid].id == rid && s.releases[rid].status == StatusCompleted
    requires kept <= |C.SetRelease(s, rid, C.Rollback, now).changes|
    ensures var s' := ApplyAll(s, C.SetRelease(s, rid, C.Rollback, now).changes[..kept]);
      rid in s'.releases && (s'.releases[rid].status != StatusCompleted <==> kept == 1)
  {
    var q := s.releases[rid].(updatedAt := now, status := StatusRollbackPending);
    assert C.SetRelease(s, rid, C.Rollback, now).changes == [Rewritten(q)];
    NothingApplied(s);
    ApplyOne(s, Rewritten(q));
    assert [Rewritten(q)][..1] == [Rewritten(q)];
    hide ApplyAll;
  }

  /** From a reachable state, a step takes a release out of completion exactly when the guard holds. */
  lemma StepEndsCompletionExactly(s: State, step: Step, s': State, rid: string)
    requires Coherent(s, step.at) && AllQuiet(s) && Happens(s, step, s')
    requires rid in s.releases && s.releases[rid].status == StatusCompleted
    ensures rid in s'.releases && (s'.releases[rid].status != StatusCompleted <==> EndsCompletion(s, step, rid))
  {
    var cs := Perform(s, step.call, step.at).changes;
    assert InCompletion(s, rid, step.at) && s.releases[rid].id == rid;
    hide Coherent, AllQuiet, InCompletion, InRelease, ApplyAll, FailsForGood, Overflown, C.FailTask, C.UpdateTask;
    hide C.SetRelease;
    if MayEnd(s, step.call, rid) {
      match step.call
      case SetRelease(_, _) => OrderEnds(s, rid, step.at, step.kept);
      case UpdateTask(id, _, reason) => OperatorEnds(s, id, reason, rid, step.at, step.kept);
      case FailTask(id, _, reason, retryable) => FailEnds(s, id, reason, retryable, rid, step.at, step.kept);
    } else {
      hide May, Perform, MayEnd;
      CallSpares(s, step.call, rid, step.at);
      SparedKept(s, cs, step.kept, rid);
    }
  }

  /** The same throughout every run of calls and crashes. */
  lemma CompletionEndsExactly(states: seq<State>, steps: seq<Step>, n: nat, rid: string)
    requires CallRun(states, steps) && n < |steps| && n < |states| - 1
    requires rid in states[n].releases && states[n].releases[rid].status == StatusCompleted
    ensures rid in states[n + 1].releases
    ensures states[n + 1].releases[rid].status != StatusCompleted <==> EndsCompletion(states[n], steps[n], rid)
  {
    hide *;
    StateInRun(states, steps, n);
    StepEndsCompletionExactly(states[n], steps[n], states[n + 1], rid);
  }
}
