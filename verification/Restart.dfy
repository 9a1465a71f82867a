/** Multi-record commands cut off by a crash: QueueRollback can be rerun, CreateRelease is detectably incomplete. */
module Restart {
  import opened Domain
  import opened Projection
  import opened Commands
  import opened Lifecycle
  import opened CommandLaws
  import opened Runs
  import opened Guarantees

  /** The status QueueRollback gives a task. */
  function RevertedStatus(t: Task, rid: string): TaskStatus {
    if t.releaseId == rid && (t.status == TaskCompleted || t.status == TaskFailed) then TaskRollbackQueued else t.status
  }

  /**
    s' is s with the tasks of the release queued for rollback and the release rollback-pending, as far as statuses go.
   */
  predicate RolledTo(s: State, s': State, rid: string) {
    && s'.tasks.Keys == s.tasks.Keys && s'.releases.Keys == s.releases.Keys
    && (forall k :: k in s.tasks ==>
          s'.tasks[k].status == RevertedStatus(s.tasks[k], rid) && s'.tasks[k].releaseId == s.tasks[k].releaseId)
    && (forall k :: k in s.releases ==>
          s'.releases[k].status == if k == rid then StatusRollbackPending else s.releases[k].status)
  }

  lemma QueueRollbackShape(s: State, rid: string, reason: string, order: seq<string>, now: Time)
    requires Coherent(s, now) && forall k :: k in order ==> k in s.tasks
    requires QueueRollback(s, rid, reason, order, now).verdict == Ok
    ensures rid in s.releases && s.releases[rid].id == rid && SweepAllowed(s, Reverting(rid, reason))
    ensures QueueRollback(s, rid, reason, order, now).changes == SweepLoop(s, Reverting(rid, reason), order, now)
      + [Rewritten(s.releases[rid].(status := StatusRollbackPending, updatedAt := now))]
  {
    hide SweepLoop, ReleaseSound, TaskSound;
  }

  lemma SweptWithRelease(s: State, w: Sweep, q: Release, now: Time)
    ensures var mid := SweptState(s, w, s.tasks.Keys, now);
      Apply(mid, Rewritten(q)) == mid.(releases := s.releases[q.id := q])
  {
    hide AfterSweep;
  }

  /** The closed form of an accepted QueueRollback. */
  lemma QueueRollbackState(s: State, rid: string, reason: string, order: seq<string>, now: Time)
    requires Coherent(s, now) && Visits(order, s.tasks.Keys) && forall k :: k in order ==> k in s.tasks
    requires QueueRollback(s, rid, reason, order, now).verdict == Ok
    ensures var q := s.releases[rid].(status := StatusRollbackPending, updatedAt := now);
      ApplyAll(s, QueueRollback(s, rid, reason, order, now).changes)
      == SweptState(s, Reverting(rid, reason), s.tasks.Keys, now).(releases := s.releases[rid := q])
  {
    hide *;
    var w := Reverting(rid, reason);
    QueueRollbackShape(s, rid, reason, order, now);
    var q := s.releases[rid].(status := StatusRollbackPending, updatedAt := now);
    SweepOutcome(s, w, order, now);
    SweptWithRelease(s, w, q, now);
    ApplyAllSplit(s, SweepLoop(s, w, order, now), [Rewritten(q)]);
    ApplyOne(SweptState(s, w, s.tasks.Keys, now), Rewritten(q));
  }

  /** What an uninterrupted QueueRollback does, whatever the map order. */
  lemma QueueRollbackOutcome(s: State, rid: string, reason: string, order: seq<string>, now: Time)
    requires Coherent(s, now) && Visits(order, s.tasks.Keys)
    ensures forall k :: k in order ==> k in s.tasks
    ensures QueueRollback(s, rid, reason, order, now).verdict == Ok <==>
      rid in s.releases && ValidReleaseTransition(s.releases[rid].status, StatusRollbackPending)
    ensures QueueRollback(s, rid, reason, order, now).verdict == Ok ==>
      RolledTo(s, ApplyAll(s, QueueRollback(s, rid, reason, order, now).changes), rid)
  {
    hide Coherent, SweepLoop, ApplyAll, AfterSweep;
    assert forall k :: k in order ==> k in KeysOf(order);
    if QueueRollback(s, rid, reason, order, now).verdict == Ok {
      QueueRollbackState(s, rid, reason, order, now);
      RevertedTasks(s, rid, reason, now);
    }
  }

  lemma RevertedTasks(s: State, rid: string, reason: string, now: Time)
    ensures forall k :: k in s.tasks ==>
      var u := AfterSweep(s, Reverting(rid, reason), s.tasks[k], now);
      u.status == RevertedStatus(s.tasks[k], rid) && u.releaseId == s.tasks[k].releaseId
  {}

  /** A crash cuts a sweep's records after those of some prefix of the visits. */
  lemma {:induction false} SweepPrefix(s: State, w: Sweep, order: seq<string>, n: nat, now: Time) returns (m: nat)
    requires forall k :: k in order ==> k in s.tasks
    requires n <= |SweepLoop(s, w, order, now)|
    ensures m <= |order| && SweepLoop(s, w, order, now)[..n] == SweepLoop(s, w, order[..m], now)
  {
    var all := SweepLoop(s, w, order, now);
    if n == |all| {
      m := |order|;
      assert order[..m] == order && all[..n] == all;
    } else {
      var last := |order| - 1;
      m := SweepPrefix(s, w, order[..last], n, now);
      assert order[..last][..m] == order[..m];
      assert all[..n] == SweepLoop(s, w, order[..last], now)[..n];
    }
  }

  /** The state after a crash inside QueueRollback: statuses are either untouched or already the final ones. */
  predicate PartlyRolled(s: State, p: State, rid: string) {
    && p.tasks.Keys == s.tasks.Keys && p.releases.Keys == s.releases.Keys
    && (forall k :: k in s.tasks ==>
          p.tasks[k].releaseId == s.tasks[k].releaseId &&
          (p.tasks[k].status == s.tasks[k].status || p.tasks[k].status == RevertedStatus(s.tasks[k], rid)))
    && (forall k :: k in s.releases ==>
          p.releases[k].status == s.releases[k].status || (k == rid && p.releases[k].status == StatusRollbackPending))
  }

  lemma SweptPartly(s: State, rid: string, reason: string, keys: set<string>, now: Time)
    ensures PartlyRolled(s, SweptState(s, Reverting(rid, reason), keys, now), rid)
  {
    RevertedTasks(s, rid, reason, now);
  }

  lemma CrashPartlyRolled(s: State, rid: string, reason: string, order: seq<string>, now: Time, n: nat)
    requires Coherent(s, now) && Visits(order, s.tasks.Keys) && forall k :: k in order ==> k in s.tasks
    requires QueueRollback(s, rid, reason, order, now).verdict == Ok
    requires n <= |QueueRollback(s, rid, reason, order, now).changes|
    ensures PartlyRolled(s, ApplyAll(s, QueueRollback(s, rid, reason, order, now).changes[..n]), rid)
  {
    var w, all := Reverting(rid, reason), QueueRollback(s, rid, reason, order, now).changes;
    var sweep := SweepLoop(s, w, order, now);
    if n == |all| {
      assert all[..n] == all;
      QueueRollbackOutcome(s, rid, reason, order, now);
    } else {
      var m := SweepPrefix(s, w, order, n, now);
      assert all[..n] == sweep[..n];
      VisitsLawful(s, w, now);
      SweepLoopLawful(s, w, order[..m], now);
      SweptPartly(s, rid, reason, KeysOf(order[..m]), now);
    }
  }

  lemma RerunReaches(s: State, p: State, s': State, rid: string)
    requires PartlyRolled(s, p, rid) && RolledTo(p, s', rid)
    ensures RolledTo(s, s', rid)
  {
    forall k | k in s.tasks ensures s'.tasks[k].status == RevertedStatus(s.tasks[k], rid) {
      assert k in p.tasks;
    }
  }

  /**
    Crash QueueRollback after any number of its records, recover, and rerun it in any map order: it is accepted again
    and leaves the same statuses as the uninterrupted command.
   */
  lemma RollbackRestarts(s: State, rid: string, reason: string, order: seq<string>, now: Time, n: nat,
                         reason2: string, order2: seq<string>, later: Time)
    requires Coherent(s, now) && 0 < now <= later && Visits(order, s.tasks.Keys) && Visits(order2, s.tasks.Keys)
    requires forall k :: k in order ==> k in s.tasks
    requires QueueRollback(s, rid, reason, order, now).verdict == Ok
    requires n <= |QueueRollback(s, rid, reason, order, now).changes|
    ensures var p := ApplyAll(s, QueueRollback(s, rid, reason, order, now).changes[..n]);
      && (forall k :: k in order2 ==> k in p.tasks)
      && QueueRollback(p, rid, reason2, order2, later).verdict == Ok
      && RolledTo(s, ApplyAll(p, QueueRollback(p, rid, reason2, order2, later).changes), rid)
      && RolledTo(s, ApplyAll(s, QueueRollback(s, rid, reason, order, now).changes), rid)
  {
    var all := QueueRollback(s, rid, reason, order, now).changes;
    var p := ApplyAll(s, all[..n]);
    QueueRollbackOutcome(s, rid, reason, order, now);
    CrashPartlyRolled(s, rid, reason, order, now, n);
    QueueRollbackLawful(s, rid, reason, order, now);
    PrefixLawful(s, all, n, now);
    LawfulRunKeepsCoherent(s, all[..n], now);
    CoherentLater(p, now, later);
    QueueRollbackOutcome(p, rid, reason2, order2, later);
    RerunReaches(s, p, ApplyAll(p, QueueRollback(p, rid, reason2, order2, later).changes), rid);
  }

  /**
    CreateRelease cut after n records: ReleaseProgress reports the index inconsistent exactly while tasks are missing.
   */
  lemma CreateReleaseProgress(s: State, version: string, devices: seq<string>, batch: int, conc: int, retries: int,
                              policy: RollbackPolicy, rid: string, tids: seq<string>, now: Time, n: nat)
    requires Coherent(s, now) && |tids| == |devices| && rid != "" && rid !in s.releases && FreshIds(s, tids)
    requires !BadRelease(version, devices, batch, conc, retries)
    requires n <= |devices|
    ensures var cs := CreateRelease(version, devices, batch, conc, retries, policy, rid, tids, now).changes;
      && |cs| == 1 + |devices|
      && var p := ReleaseProgress(ApplyAll(s, cs[..n + 1]), rid);
         p.Counts? && p.total == n && p.completed == 0 && p.failed == 0 && (p.inconsistent <==> n < |devices|)
  {
    var r := NewRelease(version, devices, batch, conc, retries, policy, rid, now);
    var c, ts := Change(ReleaseCreated, ReleaseData(r)), NewTasks(rid, devices, tids, now);
    assert TasksOf(s, rid) == {};
    NewTasksLawful(s, r, tids, n, now);
    assert ([c] + ts)[..n + 1] == [c] + ts[..n];
    ApplyOne(s, c);
    ApplyAllSplit(s, [c], ts[..n]);
    NewTasksQueued(s, r, tids, n, now);
    var p := PartlyCreated(s, r, tids, n, now);
    assert WithStatus(p, rid, TaskCompleted) == {} && WithStatus(p, rid, TaskFailed) == {};
  }

  lemma {:induction false} NewTasksQueued(s: State, r: Release, tids: seq<string>, n: nat, now: Time)
    requires n <= |tids| == |r.devices| && TasksOf(s, r.id) == {}
    ensures forall k :: k in TasksOf(PartlyCreated(s, r, tids, n, now), r.id) ==>
      PartlyCreated(s, r, tids, n, now).tasks[k].status == TaskQueued
  {
    if n == 0 {
      assert NewTasks(r.id, r.devices, tids, now)[..0] == [];
      assert TasksOf(Creating(s, r), r.id) == TasksOf(s, r.id);
    } else {
      NewTasksQueued(s, r, tids, n - 1, now);
      NewTasksTake(r.id, r.devices, tids, n, now);
      var cs, t := NewTasks(r.id, r.devices, tids, now)[..n - 1], NewTask(tids[n - 1], r.id, r.devices[n - 1], now);
      ApplyAllSplit(Creating(s, r), cs, [Change(TaskCreated, TaskData(t))]);
      ApplyOne(PartlyCreated(s, r, tids, n - 1, now), Change(TaskCreated, TaskData(t)));
    }
  }
}
