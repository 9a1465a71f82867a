/**
  The status of a release over whole runs: which statuses occur, what preflight and completion imply, how completion
  ends.
 */
module Releases {
  import opened Domain
  import opened Projection
  import opened Commands
  import opened Dispatch
  import opened Lifecycle
  import opened Runs

  // ---- what every reachable status implies

  predicate StatusSound(s: State, r: Release) {
    // the source never assigns these
    && r.status != StatusInstalling && r.status != StatusAwaiting && r.status != StatusFailed
    && (r.status == StatusPreflight ==> Tried(s, r.id))
    // such a policy calls for rollback at every reconciliation
    && (r.status == StatusCompleted ==> !(r.rollback.auto && r.rollback.maxFailures < 0))
  }

  predicate StatusesSound(s: State) { forall k :: k in s.releases ==> StatusSound(s, s.releases[k]) }

  lemma TriedKept(s: State, c: Change, now: Time, rid: string)
    requires Coherent(s, now) && Lawful(s, c, now) && Tried(s, rid)
    ensures Tried(Apply(s, c), rid)
  {
    var k :| k in s.tasks && s.tasks[k].releaseId == rid && s.tasks[k].attempts >= 1;
    if Writes(s, c, k) { WrittenTask(s, c, now, k); } else { OtherTasksKept(s, c, now, k); }
    var u := Apply(s, c).tasks[k];
    assert u.releaseId == rid && u.attempts >= 1;
  }

  lemma WrittenStatusSound(s: State, q: Release, now: Time)
    requires LawfulReleaseWrite(s, q, now) && s.releases[q.id].id == q.id && StatusSound(s, s.releases[q.id])
    ensures StatusSound(s, q)
  {
    hide Tried, AllReverted;
  }

  lemma SameTasksSameTried(s: State, q: Release, rid: string)
    ensures Tried(Apply(s, Rewritten(q)), rid) == Tried(s, rid)
  {}

  lemma StatusStep(s: State, c: Change, now: Time)
    requires Coherent(s, now) && Lawful(s, c, now) && StatusesSound(s)
    ensures StatusesSound(Apply(s, c))
  {
    var s' := Apply(s, c);
    forall k | k in s'.releases ensures StatusSound(s', s'.releases[k]) {
      if c.kind == ReleaseUpdated && c.data.ReleaseData? && c.data.release.id == k {
        assert s.releases[k].id == k && c == Rewritten(c.data.release);
        WrittenStatusSound(s, c.data.release, now);
        SameTasksSameTried(s, c.data.release, k);
      } else if k in s.releases {
        OtherReleaseKept(s, c, now, k);
        if s.releases[k].status == StatusPreflight { TriedKept(s, c, now, s.releases[k].id); }
      } else {
        BornRelease(s, c, now, k);
      }
    }
  }

  lemma OtherReleaseKept(s: State, c: Change, now: Time, k: string)
    requires Lawful(s, c, now) && k in s.releases
    requires !(c.kind == ReleaseUpdated && c.data.ReleaseData? && c.data.release.id == k)
    ensures k in Apply(s, c).releases && Apply(s, c).releases[k] == s.releases[k]
  {}

  lemma BornRelease(s: State, c: Change, now: Time, k: string)
    requires Lawful(s, c, now) && k !in s.releases && k in Apply(s, c).releases
    ensures Apply(s, c).releases[k].status == StatusQueued
  {}

  /** In every reachable state the status of each release is sound. */
  lemma {:induction false} StatusesStaySound(log: seq<Event>)
    requires ValidLog(log)
    ensures StatusesSound(Replay(log))
  {
    if log != [] {
      var n := |log| - 1;
      StatusesStaySound(log[..n]);
      EntryLawful(log, n);
      assert log[..n + 1] == log;
      hide ValidLog, Replay, StatusesSound, Coherent, Lawful;
      StatusStep(At(log, n), ChangeOf(log[n]), log[n].at);
    }
  }

  // ---- how completion ends

  predicate QuietTask(t: Task) {
    && NoLease(t)
    && (t.status == TaskCompleted || t.status == TaskRejected || t.status == TaskQueued || t.status == TaskFailed)
  }

  /** No task of a completed release holds a lease or waits for a rollback. */
  predicate Quiet(s: State, rid: string) {
    rid in s.releases && s.releases[rid].status == StatusCompleted ==>
      forall k :: k in TasksOf(s, rid) ==> QuietTask(s.tasks[k])
  }

  predicate AllQuiet(s: State) { forall rid :: rid in s.releases ==> Quiet(s, rid) }

  /** What holds of the tasks of a release still holds where the release and its tasks are as before. */
  lemma QuietKept(s: State, s': State, rid: string)
    requires Quiet(s, rid) && rid in s.releases && rid in s'.releases && s'.releases[rid] == s.releases[rid]
    requires forall k :: k in TasksOf(s', rid) ==>
      (k in TasksOf(s, rid) && s'.tasks[k] == s.tasks[k]) || QuietTask(s'.tasks[k])
    ensures Quiet(s', rid)
  {}

  /** From there a task can only be rejected, failed or requeued: the gate is shut, and no rollback has been ordered. */
  lemma QuietMove(t: Task, u: Task, limit: int, now: Time)
    requires TaskStep(t, u, limit, now) && QuietTask(t) && !QueuesRollback(t, u)
    requires t.status == TaskQueued ==> u.status != TaskLeased
    ensures QuietTask(u) && u.status != TaskCompleted
  {}

  lemma QuietOwnTask(s: State, u: Task, now: Time)
    requires Coherent(s, now) && LawfulTaskWrite(s, u, now) && Quiet(s, u.releaseId)
    requires s.releases[u.releaseId].status == StatusCompleted
    ensures QuietTask(u)
  {
    assert u.id in TasksOf(s, u.releaseId) && !DecisionFor(s, u.releaseId).allowed;
    QuietMove(s.tasks[u.id], u, s.releases[u.releaseId].retryLimit, now);
  }

  lemma QuietTaskWrite(s: State, u: Task, rid: string, now: Time)
    requires Coherent(s, now) && LawfulTaskWrite(s, u, now) && Quiet(s, rid) && rid in s.releases
    ensures Quiet(Apply(s, Updated(u)), rid)
  {
    TasksOfAfterWrite(s, u, rid);
    if s.releases[rid].status == StatusCompleted {
      if u.releaseId == rid { QuietOwnTask(s, u, now); }
      hide Coherent, LawfulTaskWrite, Quiet, QuietTask;
      QuietKept(s, Apply(s, Updated(u)), rid);
    }
  }

  lemma QuietReleaseWrite(s: State, q: Release, now: Time)
    requires Coherent(s, now) && LawfulReleaseWrite(s, q, now) && Quiet(s, q.id)
    ensures Quiet(Apply(s, Rewritten(q)), q.id)
  {
    var s' := Apply(s, Rewritten(q));
    assert TasksOf(s', q.id) == TasksOf(s, q.id);
    if q.status == StatusCompleted && s.releases[q.id].status != StatusCompleted {
      CompletionSettles(s, q, now);
    }
  }

  lemma QuietBirth(s: State, t: Task, rid: string)
    requires LawfulNewTask(s, t) && rid in s.releases && Quiet(s, rid)
    ensures Quiet(Apply(s, Change(TaskCreated, TaskData(t))), rid)
  {
    TasksOfAfterCreate(s, t, rid);
    hide Quiet;
    QuietKept(s, Apply(s, Change(TaskCreated, TaskData(t))), rid);
  }

  lemma QuietDevice(s: State, d: Device, rid: string)
    requires rid in s.releases && Quiet(s, rid)
    ensures Quiet(Apply(s, Change(DeviceRegistered, DeviceData(d))), rid)
  {
    hide Quiet;
    QuietKept(s, Apply(s, Change(DeviceRegistered, DeviceData(d))), rid);
  }

  /** A release other than the one written. */
  lemma QuietBesideRelease(s: State, c: Change, q: Release, rid: string)
    requires rid in s.releases && Quiet(s, rid) && q.id != rid
    requires c == Rewritten(q) || c == Change(ReleaseCreated, ReleaseData(q))
    ensures Quiet(Apply(s, c), rid)
  {
    hide Quiet;
    QuietKept(s, Apply(s, c), rid);
  }

  lemma BornQuiet(s: State, r: Release)
    requires r.status != StatusCompleted
    ensures Quiet(Apply(s, Change(ReleaseCreated, ReleaseData(r))), r.id)
  {}

  lemma QuietElsewhere(s: State, c: Change, rid: string, now: Time)
    requires Coherent(s, now) && Lawful(s, c, now) && AllQuiet(s) && c.kind != TaskUpdated &&
      rid in Apply(s, c).releases
    ensures Quiet(Apply(s, c), rid)
  {
    hide Coherent, Quiet, LawfulReleaseWrite, TasksOf;
    match c
    case Change(ReleaseCreated, ReleaseData(r)) =>
      if r.id == rid { BornQuiet(s, r); } else { QuietBesideRelease(s, c, r, rid); }
    case Change(ReleaseUpdated, ReleaseData(q)) =>
      if q.id == rid {
        WritesKnown(s, q, now);
        QuietReleaseWrite(s, q, now);
      } else {
        QuietBesideRelease(s, c, q, rid);
      }
    case Change(DeviceRegistered, DeviceData(d)) => QuietDevice(s, d, rid);
    case Change(TaskCreated, TaskData(t)) => QuietBirth(s, t, rid);
  }

  lemma WritesKnown(s: State, q: Release, now: Time)
    requires LawfulReleaseWrite(s, q, now)
    ensures q.id in s.releases
  {}

  lemma QuietStep(s: State, c: Change, now: Time)
    requires Coherent(s, now) && Lawful(s, c, now) && AllQuiet(s)
    ensures AllQuiet(Apply(s, c))
  {
    forall rid | rid in Apply(s, c).releases ensures Quiet(Apply(s, c), rid) {
      if c.kind == TaskUpdated {
        assert c == Updated(c.data.task) && rid in s.releases;
        QuietTaskWrite(s, c.data.task, rid, now);
      } else {
        QuietElsewhere(s, c, rid, now);
      }
    }
  }

  /** In every reachable state the tasks of completed releases are quiet. */
  lemma {:induction false} CompletedStaysQuiet(log: seq<Event>)
    requires ValidLog(log)
    ensures AllQuiet(Replay(log))
  {
    if log != [] {
      var n := |log| - 1;
      CompletedStaysQuiet(log[..n]);
      EntryLawful(log, n);
      assert log[..n + 1] == log;
      hide ValidLog, Replay, AllQuiet, Coherent, Lawful;
      QuietStep(At(log, n), ChangeOf(log[n]), log[n].at);
    }
  }

  /** The release is reconciled while its policy calls for a rollback. */
  predicate Overflows(s: State, q: Release, now: Time)
    requires q.id in s.releases
  {
    && q == Reconciled(s, q.id, now) && q.rollback.auto
    && |WithStatus(s, q.id, TaskFailed)| > q.rollback.maxFailures
  }

  lemma CompletedLeaves(s: State, q: Release, now: Time)
    requires LawfulReleaseWrite(s, q, now) && s.releases[q.id].status == StatusCompleted
    ensures q.status != StatusCompleted <==> OrdersRollback(s.releases[q.id], q, now) || Overflows(s, q, now)
  {
    hide AllReverted, Tried;
  }

  /**
    In every run a release leaves completion exactly by an operator's order to roll back, or by a reconciliation that
    finds more failed tasks than an automatic policy allows: no claim, pause, resume, rollback request or rollback
    completion takes it out.
   */
  lemma CompletedLeftExactly(log: seq<Event>, n: nat)
    requires ValidLog(log) && n < |log| && log[n].kind == ReleaseUpdated && log[n].data.ReleaseData?
    ensures var s, q, now := At(log, n), log[n].data.release, log[n].at;
      q.id in s.releases &&
      (s.releases[q.id].status == StatusCompleted ==>
        (q.status != StatusCompleted <==> OrdersRollback(s.releases[q.id], q, now) || Overflows(s, q, now)))
  {
    var s, q := At(log, n), log[n].data.release;
    EntryLawful(log, n);
    if s.releases[q.id].status == StatusCompleted { CompletedLeaves(s, q, log[n].at); }
  }
}
