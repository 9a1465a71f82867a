/** Properties of whole runs: they hold of every valid log, hence also after any crash and recovery. */
module Runs {
  import opened Domain
  import opened Projection
  import opened Commands
  import opened Dispatch
  import opened Lifecycle

  /** The state before entry n. */
  function At(log: seq<Event>, n: nat): State
    requires n <= |log|
  {
    Replay(log[..n])
  }

  lemma EntryLawful(log: seq<Event>, n: nat)
    requires ValidLog(log) && n < |log|
    ensures Lawful(At(log, n), ChangeOf(log[n]), log[n].at) && log[n].at > 0
    ensures Coherent(At(log, n), log[n].at)
    ensures At(log, n + 1) == Apply(At(log, n), ChangeOf(log[n]))
  {
    ValidLogPrefix(log, n);
    ValidLogPrefix(log, n + 1);
    var p := log[..n + 1];
    assert p[..n] == log[..n];
    ValidLogCoherent(log[..n], log[n].at);
  }

  /** Whether a change rewrites the task with this id, and how. */
  predicate Writes(s: State, c: Change, id: string) {
    c.kind == TaskUpdated && c.data.TaskData? && c.data.task.id == id && id in s.tasks
  }

  lemma OtherTasksKept(s: State, c: Change, now: Time, id: string)
    requires Lawful(s, c, now) && id in s.tasks && !Writes(s, c, id)
    ensures id in Apply(s, c).tasks && Apply(s, c).tasks[id] == s.tasks[id]
  {}

  lemma TermsKept(s: State, c: Change, now: Time, rid: string)
    requires Lawful(s, c, now) && rid in s.releases
    ensures rid in Apply(s, c).releases && SameTerms(s.releases[rid], Apply(s, c).releases[rid])
  {}

  lemma WrittenTask(s: State, c: Change, now: Time, id: string)
    requires Coherent(s, now) && Lawful(s, c, now) && Writes(s, c, id)
    ensures id in Apply(s, c).tasks && Apply(s, c).tasks[id] == c.data.task
    ensures s.tasks[id].releaseId in s.releases
    ensures TaskStep(s.tasks[id], c.data.task, s.releases[s.tasks[id].releaseId].retryLimit, now)
  {}

  lemma BornTask(s: State, c: Change, now: Time, id: string)
    requires Lawful(s, c, now) && id !in s.tasks && id in Apply(s, c).tasks
    ensures !Writes(s, c, id)
    ensures Apply(s, c).tasks[id].status == TaskQueued && Apply(s, c).tasks[id].attempts == 0
    ensures Apply(s, c).tasks[id].leaseOwner == "" && Apply(s, c).tasks[id].releaseId in s.releases
  {}

  function Limit(s: State, id: string): int
    requires id in s.tasks && s.tasks[id].releaseId in s.releases
  {
    s.releases[s.tasks[id].releaseId].retryLimit
  }

  // ---- the retry budget

  /** A successful claim of the task: it leaves the queue with a lease. */
  predicate Claims(s: State, c: Change, id: string) {
    Writes(s, c, id) && s.tasks[id].status == TaskQueued && c.data.task.status == TaskLeased
  }

  function ClaimCount(log: seq<Event>, id: string): nat {
    if log == [] then 0
    else
      var n := |log| - 1;
      ClaimCount(log[..n], id) + if Claims(At(log, n), ChangeOf(log[n]), id) then 1 else 0
  }

  lemma ClaimStep(s: State, c: Change, now: Time, id: string, count: nat)
    requires Coherent(s, now) && Lawful(s, c, now)
    requires if id in s.tasks then count <= s.tasks[id].attempts && count <= Limit(s, id) + 1 else count == 0
    ensures var s', count' := Apply(s, c), count + if Claims(s, c, id) then 1 else 0;
      if id in s'.tasks
      then s'.tasks[id].releaseId in s'.releases && count' <= s'.tasks[id].attempts && count' <= Limit(s', id) + 1
      else count' == 0
  {
    if Writes(s, c, id) {
      WrittenTask(s, c, now, id);
      TermsKept(s, c, now, s.tasks[id].releaseId);
    } else if id in s.tasks {
      OtherTasksKept(s, c, now, id);
      TermsKept(s, c, now, s.tasks[id].releaseId);
    } else if id in Apply(s, c).tasks {
      BornTask(s, c, now, id);
      TermsKept(s, c, now, Apply(s, c).tasks[id].releaseId);
    }
  }

  /** Over any run one task is claimed at most RetryLimit + 1 times, and never more often than it has attempts. */
  lemma {:induction false} RetryBudget(log: seq<Event>, id: string)
    requires ValidLog(log)
    ensures var s := Replay(log);
      if id in s.tasks
      then s.tasks[id].releaseId in s.releases && ClaimCount(log, id) <= s.tasks[id].attempts
           && ClaimCount(log, id) <= Limit(s, id) + 1
      else ClaimCount(log, id) == 0
  {
    if log != [] {
      var n := |log| - 1;
      RetryBudget(log[..n], id);
      EntryLawful(log, n);
      assert log[..n + 1] == log;
      ClaimStep(At(log, n), ChangeOf(log[n]), log[n].at, id, ClaimCount(log[..n], id));
    }
  }

  // ---- one owner at a time

  predicate ActiveAt(s: State, id: string) { id in s.tasks && IsActive(s.tasks[id]) }

  lemma OwnerNamed(log: seq<Event>, n: nat, id: string)
    requires ValidLog(log) && n <= |log| && ActiveAt(At(log, n), id)
    ensures At(log, n).tasks[id].leaseOwner == "" ==> At(log, n).tasks[id].status == TaskRollingBack
  {
    ValidLogPrefix(log, n);
    ValidLogCoherent(log[..n], LastTime(log[..n]));
    TaskHasRelease(At(log, n), id, LastTime(log[..n]));
    assert TaskSound(At(log, n).tasks[id], Limit(At(log, n), id), LastTime(log[..n]));
    hide ValidLog, Replay, Coherent;
  }

  lemma OwnerStep(s: State, c: Change, now: Time, id: string)
    requires Coherent(s, now) && Lawful(s, c, now) && ActiveAt(s, id) && ActiveAt(Apply(s, c), id)
    ensures Apply(s, c).tasks[id].leaseOwner == s.tasks[id].leaseOwner
    ensures s.tasks[id].leaseOwner == "" ==> s.tasks[id].status == Apply(s, c).tasks[id].status == TaskRollingBack
  {
    TaskHasRelease(s, id, now);
    assert TaskSound(s.tasks[id], s.releases[s.tasks[id].releaseId].retryLimit, now);
    if Writes(s, c, id) { WrittenTask(s, c, now, id); } else { OtherTasksKept(s, c, now, id); }
    hide Coherent, Lawful;
  }

  /**
    As long as a task stays leased, installing, awaiting or rolling back, it has one and the same owner, who has a name
    unless the task is rolling back all that time.
   */
  lemma {:induction false} OwnerKept(log: seq<Event>, id: string, m: nat, n: nat)
    requires ValidLog(log) && m <= n <= |log| && forall i :: m <= i <= n ==> ActiveAt(At(log, i), id)
    ensures id in At(log, m).tasks && id in At(log, n).tasks
    ensures At(log, n).tasks[id].leaseOwner == At(log, m).tasks[id].leaseOwner
    ensures At(log, m).tasks[id].leaseOwner == "" ==> At(log, n).tasks[id].status == TaskRollingBack
  {
    hide ValidLog, At, Lawful, Coherent;
    assert ActiveAt(At(log, m), id) && ActiveAt(At(log, n), id);
    if m == n {
      hide ActiveAt;
      OwnerNamed(log, m, id);
    } else {
      OwnerKept(log, id, m, n - 1);
      EntryLawful(log, n - 1);
      assert ActiveAt(At(log, n - 1), id);
      OwnerStep(At(log, n - 1), ChangeOf(log[n - 1]), log[n - 1].at, id);
    }
  }

  // ---- how long leases last

  /** The entry moves the end of a lease further away. */
  predicate Prolongs(s: State, c: Change) {
    && c.kind == TaskUpdated && c.data.TaskData? && c.data.task.id in s.tasks
    && c.data.task.leaseUntil > s.tasks[c.data.task.id].leaseUntil
  }

  /** Only a claim, a renewal or a rollback claim prolongs a lease, and to at most an hour from then. */
  lemma OnlyGrantsProlong(s: State, c: Change, now: Time)
    requires Coherent(s, now) && Lawful(s, c, now) && Prolongs(s, c)
    ensures var t, u := s.tasks[c.data.task.id], c.data.task;
      (Grants(t, u, now) || Renews(t, u, now) || ClaimsRollback(t, u, now)) && u.leaseUntil <= now + HOUR
  {
    var u := c.data.task;
    WrittenTask(s, c, now, u.id);
    assert TaskSound(s.tasks[u.id], Limit(s, u.id), now);
    hide Coherent, Lawful;
  }

  lemma LeaseEndKept(s: State, c: Change, now: Time, k: string, horizon: Time)
    requires Coherent(s, now) && Lawful(s, c, now) && !Prolongs(s, c) && k in Apply(s, c).tasks && horizon >= 0
    requires k in s.tasks ==> s.tasks[k].leaseUntil <= horizon
    ensures Apply(s, c).tasks[k].leaseUntil <= horizon
  {
    if Writes(s, c, k) { WrittenTask(s, c, now, k); }
    else if k in s.tasks { OtherTasksKept(s, c, now, k); }
    hide Coherent;
  }

  predicate EndBy(s: State, horizon: Time) { forall k :: k in s.tasks ==> s.tasks[k].leaseUntil <= horizon }

  lemma EndByNow(s: State, now: Time)
    requires Coherent(s, now) && now >= 0
    ensures EndBy(s, now + HOUR)
  {
    forall k | k in s.tasks ensures s.tasks[k].leaseUntil <= now + HOUR {
      TaskHasRelease(s, k, now);
      assert TaskSound(s.tasks[k], Limit(s, k), now);
    }
  }

  lemma EndByKept(s: State, c: Change, now: Time, horizon: Time)
    requires Coherent(s, now) && Lawful(s, c, now) && !Prolongs(s, c) && horizon >= 0 && EndBy(s, horizon)
    ensures EndBy(Apply(s, c), horizon)
  {
    hide Coherent, Lawful, Prolongs, Apply;
    forall k | k in Apply(s, c).tasks ensures Apply(s, c).tasks[k].leaseUntil <= horizon {
      LeaseEndKept(s, c, now, k, horizon);
    }
  }

  /** While no entry prolongs a lease, every lease still ends within an hour of the last entry that could. */
  lemma {:induction false} LeasesEndBy(log: seq<Event>, m: nat, n: nat, since: Time)
    requires ValidLog(log) && m <= n <= |log| && LastTime(log[..m]) <= since
    requires forall i :: m <= i < n ==> !Prolongs(At(log, i), ChangeOf(log[i]))
    ensures EndBy(At(log, n), since + HOUR)
  {
    ValidLogPrefix(log, m);
    assert LastTime(log[..m]) >= 0;
    if m == n {
      hide ValidLog, Replay, Coherent, EndBy;
      ValidLogCoherent(log[..m], since);
      EndByNow(At(log, n), since);
    } else {
      LeasesEndBy(log, m, n - 1, since);
      EntryLawful(log, n - 1);
      hide ValidLog, At, Prolongs, Coherent, Lawful, EndBy;
      EndByKept(At(log, n - 1), ChangeOf(log[n - 1]), log[n - 1].at, since + HOUR);
    }
  }

  // ---- the termination measure

  function Rank(t: Task): nat {
    match t.status
    case TaskLeased => 6
    case TaskInstalling => 5
    case TaskAwaiting => 4
    case TaskFailed => if t.leaseOwner != "" then 3 else 1
    case TaskQueued => if t.leaseOwner != "" then 2 else 0
    case TaskRejected => 1
    case _ => 0
  }

  function Measure(t: Task, limit: int): nat {
    7 * (if t.attempts > limit then 0 else limit + 1 - t.attempts) + Rank(t)
  }

  /** Outside rollback, and with no lease kept by a rejection. */
  predicate Forward(t: Task) {
    && t.status != TaskRollbackQueued && t.status != TaskRollingBack && t.status != TaskRolledBack
    && (t.status == TaskRejected ==> t.leaseOwner == "")
  }

  predicate KeepsForward(s: State, c: Change, id: string) {
    Writes(s, c, id) ==>
      && s.tasks[id].releaseId in s.releases && Forward(c.data.task) && !Overrides(s.tasks[id], c.data.task)
      && !Disowns(s.tasks[id], c.data.task, Limit(s, id))
  }

  lemma MeasureDrops(t: Task, u: Task, limit: int, now: Time)
    requires TaskSound(t, limit, now) && TaskStep(t, u, limit, now)
    requires Forward(t) && Forward(u) && !Overrides(t, u) && !Disowns(t, u, limit)
    ensures Measure(u, limit) <= Measure(t, limit)
    ensures u.status != t.status ==> Measure(u, limit) < Measure(t, limit)
  {}

  function StatusChanges(log: seq<Event>, id: string): nat {
    if log == [] then 0
    else
      var n := |log| - 1;
      var s, c := At(log, n), ChangeOf(log[n]);
      StatusChanges(log[..n], id) +
        if Writes(s, c, id) && c.data.task.status != s.tasks[id].status then 1 else 0
  }

  predicate ForwardLog(log: seq<Event>, id: string) {
    forall n :: 0 <= n < |log| ==> KeepsForward(At(log, n), ChangeOf(log[n]), id)
  }

  ghost predicate MeasureBound(s: State, id: string, changes: nat) {
    if id in s.tasks
    then && s.tasks[id].releaseId in s.releases && Forward(s.tasks[id])
         && changes + Measure(s.tasks[id], Limit(s, id)) <= 7 * (Limit(s, id) + 1)
    else changes == 0
  }

  lemma MeasureStep(s: State, c: Change, now: Time, id: string, changes: nat)
    requires Coherent(s, now) && Lawful(s, c, now) && KeepsForward(s, c, id) && MeasureBound(s, id, changes)
    ensures MeasureBound(Apply(s, c), id,
      changes + if Writes(s, c, id) && c.data.task.status != s.tasks[id].status then 1 else 0)
  {
    if Writes(s, c, id) {
      WrittenTask(s, c, now, id);
      TermsKept(s, c, now, s.tasks[id].releaseId);
      MeasureDrops(s.tasks[id], c.data.task, Limit(s, id), now);
    } else if id in s.tasks {
      OtherTasksKept(s, c, now, id);
      TermsKept(s, c, now, s.tasks[id].releaseId);
    } else if id in Apply(s, c).tasks {
      BornTask(s, c, now, id);
      TermsKept(s, c, now, Apply(s, c).tasks[id].releaseId);
    }
  }

  /**
    Without rollback, operator rejects, and fails or rejects by agents without a name, a task changes status at most
    7 * (RetryLimit + 1) times.
   */
  lemma {:induction false} StatusChangesBounded(log: seq<Event>, id: string)
    requires ValidLog(log) && ForwardLog(log, id)
    ensures MeasureBound(Replay(log), id, StatusChanges(log, id))
  {
    if log != [] {
      var n := |log| - 1;
      forall i | 0 <= i < n ensures KeepsForward(At(log[..n], i), ChangeOf(log[..n][i]), id) {
        assert log[..n][..i] == log[..i];
        assert KeepsForward(At(log, i), ChangeOf(log[i]), id);
      }
      StatusChangesBounded(log[..n], id);
      EntryLawful(log, n);
      assert log[..n + 1] == log;
      MeasureStep(At(log, n), ChangeOf(log[n]), log[n].at, id, StatusChanges(log[..n], id));
    }
  }

  // ---- the concurrency cap

  /** A claim of some task of the release. */
  predicate ClaimsIn(s: State, c: Change, rid: string) {
    c.kind == TaskUpdated && c.data.TaskData? && Claims(s, c, c.data.task.id) &&
      s.tasks[c.data.task.id].releaseId == rid
  }

  predicate WithinCap(s: State, rid: string) {
    rid in s.releases ==> |BusyTasks(s, rid)| <= s.releases[rid].maxConcurrent
  }

  lemma BusyAfterWrite(s: State, u: Task, rid: string, now: Time)
    requires Coherent(s, now) && LawfulTaskWrite(s, u, now)
    ensures var b, b' := BusyTasks(s, rid), BusyTasks(Apply(s, Updated(u)), rid);
      && (u.id in b <==> u.releaseId == rid && IsBusy(s.tasks[u.id]))
      && b' == if u.releaseId == rid && IsBusy(u) then b + {u.id} else b - {u.id}
    ensures IsBusy(u) && !IsBusy(s.tasks[u.id]) <==> s.tasks[u.id].status == TaskQueued && u.status == TaskLeased
  {
    hide ReleaseSound, TaskSound;
  }

  lemma BusyWriteCount(s: State, u: Task, rid: string, now: Time)
    requires Coherent(s, now) && LawfulTaskWrite(s, u, now)
    ensures var n, n' := |BusyTasks(s, rid)|, |BusyTasks(Apply(s, Updated(u)), rid)|;
      if u.releaseId == rid && s.tasks[u.id].status == TaskQueued && u.status == TaskLeased then n' == n + 1
        else n' <= n
  {
    BusyAfterWrite(s, u, rid, now);
    hide BusyTasks, Coherent, LawfulTaskWrite, Apply;
  }

  /** Only a claim adds a busy task, and it adds one. */
  lemma BusyStep(s: State, c: Change, rid: string, now: Time)
    requires Coherent(s, now) && Lawful(s, c, now)
    ensures ClaimsIn(s, c, rid) ==> |BusyTasks(Apply(s, c), rid)| == |BusyTasks(s, rid)| + 1
    ensures !ClaimsIn(s, c, rid) ==> |BusyTasks(Apply(s, c), rid)| <= |BusyTasks(s, rid)|
  {
    if c.kind == TaskUpdated {
      assert c == Updated(c.data.task) && SameTask(s.tasks[c.data.task.id], c.data.task);
      hide BusyTasks, Apply, Coherent, LawfulTaskWrite;
      BusyWriteCount(s, c.data.task, rid, now);
    } else {
      BusyOther(s, c, rid, now);
    }
  }

  lemma BusyOther(s: State, c: Change, rid: string, now: Time)
    requires Lawful(s, c, now) && c.kind != TaskUpdated
    ensures BusyTasks(Apply(s, c), rid) == BusyTasks(s, rid)
  {
    hide LawfulReleaseWrite, LawfulTaskWrite, LawfulNewRelease, TasksOf;
  }

  lemma CapStep(s: State, c: Change, rid: string, now: Time)
    requires Coherent(s, now) && Lawful(s, c, now) && WithinCap(s, rid)
    ensures WithinCap(Apply(s, c), rid) <==>
      (ClaimsIn(s, c, rid) && rid in s.releases ==> Capacity(s, rid) > 0)
  {
    BusyStep(s, c, rid, now);
    if rid in s.releases {
      TermsKept(s, c, now, rid);
    } else {
      assert BusyTasks(s, rid) == {};
    }
  }

  /** The cap holds throughout a run exactly when every claim was made with Release.Capacity left. */
  lemma {:induction false} CapHoldsExactly(log: seq<Event>, rid: string)
    requires ValidLog(log)
    ensures (forall n :: 0 <= n <= |log| ==> WithinCap(At(log, n), rid)) <==>
      (forall n :: 0 <= n < |log| ==>
        (ClaimsIn(At(log, n), ChangeOf(log[n]), rid) && rid in At(log, n).releases ==> Capacity(At(log, n), rid) > 0))
  {
    if forall n :: 0 <= n <= |log| ==> WithinCap(At(log, n), rid) {
      forall n | 0 <= n < |log|
        ensures ClaimsIn(At(log, n), ChangeOf(log[n]), rid) && rid in At(log, n).releases ==>
          Capacity(At(log, n), rid) > 0
      {
        EntryLawful(log, n);
        assert WithinCap(At(log, n), rid) && WithinCap(At(log, n + 1), rid);
        CapStep(At(log, n), ChangeOf(log[n]), rid, log[n].at);
      }
    }
    if forall n :: 0 <= n < |log| ==>
        (ClaimsIn(At(log, n), ChangeOf(log[n]), rid) && rid in At(log, n).releases ==> Capacity(At(log, n), rid) > 0)
    {
      forall n | 0 <= n <= |log| ensures WithinCap(At(log, n), rid) { CapUpTo(log, rid, n); }
    }
  }

  lemma {:induction false} CapUpTo(log: seq<Event>, rid: string, n: nat)
    requires ValidLog(log) && n <= |log|
    requires forall i :: 0 <= i < |log| ==>
      (ClaimsIn(At(log, i), ChangeOf(log[i]), rid) && rid in At(log, i).releases ==> Capacity(At(log, i), rid) > 0)
    ensures WithinCap(At(log, n), rid)
  {
    if n > 0 {
      CapUpTo(log, rid, n - 1);
      EntryLawful(log, n - 1);
      CapStep(At(log, n - 1), ChangeOf(log[n - 1]), rid, log[n - 1].at);
    }
  }

  // ---- completed releases

  /** All the tasks of a completed release exist, are completed, and hold no lease. */
  predicate Settled(s: State, rid: string) {
    rid in s.releases && s.releases[rid].status == StatusCompleted ==>
      && |TasksOf(s, rid)| == |s.releases[rid].devices|
      && forall k :: k in TasksOf(s, rid) ==> s.tasks[k].status == TaskCompleted && NoLease(s.tasks[k])
  }

  predicate AllSettled(s: State) { forall rid :: rid in s.releases ==> Settled(s, rid) }

  /** A completed task of a completed release is taken back: by an operator's reject, or by an agent without a name. */
  predicate Revokes(s: State, c: Change) {
    && c.kind == TaskUpdated && c.data.TaskData? && c.data.task.id in s.tasks
    && var t := s.tasks[c.data.task.id];
       && t.releaseId in s.releases && s.releases[t.releaseId].status == StatusCompleted
       && t.status == TaskCompleted && c.data.task.status != TaskCompleted
  }

  lemma SubsetOfSameSize(a: set<string>, b: set<string>)
    requires a <= b && |b| <= |a|
    ensures a == b
  {
    if a != b {
      var x :| x in b && x !in a;
      assert a <= b - {x};
      SubsetSize(a, b - {x});
    }
  }

  lemma {:induction false} SubsetSize(a: set<string>, b: set<string>)
    requires a <= b
    ensures |a| <= |b|
  {
    if a != {} {
      var x :| x in a;
      SubsetSize(a - {x}, b - {x});
    }
  }

  lemma CompletionSettles(s: State, q: Release, now: Time)
    requires Coherent(s, now) && LawfulReleaseWrite(s, q, now) && Settled(s, q.id)
    ensures Settled(Apply(s, Rewritten(q)), q.id)
  {
    var rid := q.id;
    assert TasksOf(Apply(s, Rewritten(q)), rid) == TasksOf(s, rid);
    if q.status == StatusCompleted && s.releases[rid].status != StatusCompleted {
      assert |TasksOf(s, rid)| <= |q.devices|;
      SubsetOfSameSize(WithStatus(s, rid, TaskCompleted), TasksOf(s, rid));
      assert forall k :: k in TasksOf(s, rid) ==> k in WithStatus(s, rid, TaskCompleted);
    }
  }

  lemma TaskWriteSettles(s: State, u: Task, rid: string, now: Time)
    requires Coherent(s, now) && LawfulTaskWrite(s, u, now) && Settled(s, rid) && rid in s.releases
    ensures Settled(Apply(s, Updated(u)), rid) <==> !(u.releaseId == rid && Revokes(s, Updated(u)))
  {
    hide TaskSound, ReleaseSound;
    var s' := Apply(s, Updated(u));
    TasksOfAfterWrite(s, u, rid);
    if u.releaseId == rid && s.releases[rid].status == StatusCompleted {
      assert u.id in TasksOf(s, rid);
      assert u.id in TasksOf(s', rid) && s'.tasks[u.id] == u;
      assert u.status == TaskRejected || u.status == TaskFailed;
    } else {
      assert forall k :: k in TasksOf(s', rid) && k != u.id ==> s'.tasks[k] == s.tasks[k];
      assert u.releaseId != rid ==> u.id !in TasksOf(s', rid);
    }
  }

  lemma OtherWriteSettles(s: State, c: Change, rid: string, now: Time)
    requires Coherent(s, now) && Lawful(s, c, now) && AllSettled(s) && c.kind != TaskUpdated &&
      rid in Apply(s, c).releases
    ensures Settled(Apply(s, c), rid)
  {
    var s' := Apply(s, c);
    if c.kind == ReleaseUpdated && c.data.release.id == rid {
      CompletionSettles(s, c.data.release, now);
    } else if c.kind == TaskCreated {
      TasksOfAfterCreate(s, c.data.task, rid);
      assert forall k :: k in TasksOf(s, rid) ==> s'.tasks[k] == s.tasks[k];
    } else {
      assert TasksOf(s', rid) == TasksOf(s, rid);
    }
  }

  /** From a settled state, a lawful entry leads to a settled state exactly when it takes no completed task back. */
  lemma SettledStep(s: State, c: Change, now: Time)
    requires Coherent(s, now) && Lawful(s, c, now) && AllSettled(s)
    ensures AllSettled(Apply(s, c)) <==> !Revokes(s, c)
  {
    var s' := Apply(s, c);
    if c.kind == TaskUpdated {
      var u := c.data.task;
      forall rid | rid in s.releases ensures Settled(s', rid) <==> !(u.releaseId == rid && Revokes(s, c)) {
        TaskWriteSettles(s, u, rid, now);
      }
      assert u.releaseId in s'.releases;
    } else {
      forall rid | rid in s'.releases ensures Settled(s', rid) { OtherWriteSettles(s, c, rid, now); }
    }
  }

  /** Completed releases stay settled throughout a run exactly when no entry takes a completed task of one back. */
  lemma CompletedIsSettledExactly(log: seq<Event>)
    requires ValidLog(log)
    ensures (forall n :: 0 <= n <= |log| ==> AllSettled(At(log, n))) <==>
      (forall n :: 0 <= n < |log| ==> !Revokes(At(log, n), ChangeOf(log[n])))
  {
    if forall n :: 0 <= n <= |log| ==> AllSettled(At(log, n)) {
      forall n | 0 <= n < |log| ensures !Revokes(At(log, n), ChangeOf(log[n])) {
        EntryLawful(log, n);
        assert AllSettled(At(log, n)) && AllSettled(At(log, n + 1));
        SettledStep(At(log, n), ChangeOf(log[n]), log[n].at);
      }
    }
    if forall n :: 0 <= n < |log| ==> !Revokes(At(log, n), ChangeOf(log[n])) {
      forall n | 0 <= n <= |log| ensures AllSettled(At(log, n)) { SettledUpTo(log, n); }
    }
  }

  lemma {:induction false} SettledUpTo(log: seq<Event>, n: nat)
    requires ValidLog(log) && n <= |log| && forall i :: 0 <= i < |log| ==> !Revokes(At(log, i), ChangeOf(log[i]))
    ensures AllSettled(At(log, n))
  {
    if n > 0 {
      SettledUpTo(log, n - 1);
      EntryLawful(log, n - 1);
      SettledStep(At(log, n - 1), ChangeOf(log[n - 1]), log[n - 1].at);
    }
  }

  // ---- identity and completeness of the index

  /** Nothing is ever lost, and identities and terms never change. */
  predicate Extends(s: State, s': State) {
    && s.devices.Keys <= s'.devices.Keys
    && (forall k :: k in s.releases ==> k in s'.releases && SameTerms(s.releases[k], s'.releases[k]))
    && (forall k :: k in s.tasks ==> k in s'.tasks && SameTask(s.tasks[k], s'.tasks[k])
                                     && s.tasks[k].attempts <= s'.tasks[k].attempts)
  }

  lemma ExtendsStep(s: State, c: Change, now: Time)
    requires Coherent(s, now) && Lawful(s, c, now) && now > 0
    ensures Extends(s, Apply(s, c))
  {
    forall k | k in s.tasks
      ensures k in Apply(s, c).tasks && SameTask(s.tasks[k], Apply(s, c).tasks[k]) &&
        s.tasks[k].attempts <= Apply(s, c).tasks[k].attempts
    {
      if Writes(s, c, k) { WrittenTask(s, c, now, k); TaskStepSound(s.tasks[k], c.data.task, Limit(s, k), now); }
      else { OtherTasksKept(s, c, now, k); }
    }
    forall k | k in s.releases ensures k in Apply(s, c).releases && SameTerms(s.releases[k], Apply(s, c).releases[k]) {
      TermsKept(s, c, now, k);
    }
  }

  lemma ExtendsTransitive(a: State, b: State, c: State)
    requires Extends(a, b) && Extends(b, c)
    ensures Extends(a, c)
  {}

  lemma {:induction false} RunExtends(log: seq<Event>, m: nat, n: nat)
    requires ValidLog(log) && m <= n <= |log|
    ensures Extends(At(log, m), At(log, n))
  {
    if m < n {
      RunExtends(log, m, n - 1);
      EntryLawful(log, n - 1);
      ExtendsStep(At(log, n - 1), ChangeOf(log[n - 1]), log[n - 1].at);
      ExtendsTransitive(At(log, m), At(log, n - 1), At(log, n));
    }
  }

  datatype Progress = Missing | Counts(completed: int, total: int, failed: int, inconsistent: bool)

  /** ReleaseProgress: inconsistent when the index does not hold one task per device. */
  function ReleaseProgress(s: State, rid: string): Progress {
    if rid !in s.releases then Missing
    else
      var total := |TasksOf(s, rid)|;
      Counts(|WithStatus(s, rid, TaskCompleted)|, total, |WithStatus(s, rid, TaskFailed)|,
        total != |s.releases[rid].devices|)
  }

  /** Once a release has all its tasks, progress is consistent ever after, and the counts fit the device list. */
  lemma ProgressStaysConsistent(log: seq<Event>, m: nat, n: nat, rid: string)
    requires ValidLog(log) && m <= n <= |log| && rid in At(log, m).releases
    requires !ReleaseProgress(At(log, m), rid).inconsistent
    ensures ReleaseProgress(At(log, n), rid).Counts? && !ReleaseProgress(At(log, n), rid).inconsistent
    ensures var p := ReleaseProgress(At(log, n), rid); p.completed + p.failed <= p.total
  {
    hide ValidLog, Replay, Lawful, TaskSound;
    RunExtends(log, m, n);
    ValidLogPrefix(log, n);
    ValidLogCoherent(log[..n], LastTime(log[..n]));
    var s, s' := At(log, m), At(log, n);
    assert TasksOf(s, rid) <= TasksOf(s', rid);
    SubsetSize(TasksOf(s, rid), TasksOf(s', rid));
    var done, fail := WithStatus(s', rid, TaskCompleted), WithStatus(s', rid, TaskFailed);
    assert |done + fail| == |done| + |fail| && done + fail <= TasksOf(s', rid);
    SubsetSize(done + fail, TasksOf(s', rid));
  }
}
