/**
  What the commands on releases, devices and whole fleets do, said in the caller's terms: exactly when each is accepted,
  the whole state after it, and what claims find from then on.
 */
module Rollouts {
  import opened Domain
  import opened Projection
  import opened Commands
  import opened Dispatch
  import opened Lifecycle
  import opened CommandLaws
  import opened Runs
  import opened Guarantees
  import opened Effects
  import opened Claiming
  import opened Restart

  // ---- creating a release

  /** The release as the caller asked for it. */
  predicate AsAsked(r: Release, version: string, devices: seq<string>, batch: int, conc: int, retries: int,
                    policy: RollbackPolicy, now: Time) {
    && r.version == version && r.devices == devices && r.batchSize == batch && r.maxConcurrent == conc
    && r.retryLimit == retries && r.rollback == policy && r.status == StatusQueued && r.completed == 0 && r.failed == 0
    && r.createdAt == now && r.updatedAt == now
  }

  /** A task nobody has claimed yet, free to be claimed at any time. */
  predicate Untried(t: Task, rid: string, device: string) {
    && t.releaseId == rid && t.deviceId == device && t.status == TaskQueued && t.leaseOwner == "" && t.leaseUntil == 0
    && t.attempts == 0 && t.nextRetry == 0 && t.error == ""
  }

  /** The first n tasks have come in, and nothing else changed. */
  predicate Added(s: State, s': State, rid: string, devices: seq<string>, tids: seq<string>, n: nat)
    requires n <= |tids| == |devices|
  {
    && s'.releases == s.releases && s'.devices == s.devices && s'.tasks.Keys == s.tasks.Keys + KeysOf(tids[..n])
    && (forall k :: k in s.tasks ==> k in s'.tasks && s'.tasks[k] == s.tasks[k])
    && (forall i :: 0 <= i < n ==> tids[i] in s'.tasks && Untried(s'.tasks[tids[i]], rid, devices[i]))
  }

  lemma OneAdded(s: State, p: State, rid: string, devices: seq<string>, tids: seq<string>, n: nat, t: Task)
    requires n < |tids| == |devices| && Distinct(tids) && tids[n] !in s.tasks && Added(s, p, rid, devices, tids, n)
    requires t.id == tids[n] && Untried(t, rid, devices[n])
    ensures Added(s, Apply(p, Change(TaskCreated, TaskData(t))), rid, devices, tids, n + 1)
  {
    PrefixKeys(tids, n);
    hide KeysOf, Untried;
  }

  lemma NoneAdded(s: State, rid: string, devices: seq<string>, tids: seq<string>)
    requires |tids| == |devices|
    ensures Added(s, s, rid, devices, tids, 0)
  {
    assert KeysOf(tids[..0]) == {};
  }

  lemma {:induction false} TasksAdded(s: State, rid: string, devices: seq<string>, tids: seq<string>, now: Time, n: nat)
    requires |tids| == |devices| && Distinct(tids) && n <= |tids|
    requires forall i :: 0 <= i < |tids| ==> tids[i] !in s.tasks
    ensures Added(s, ApplyAll(s, NewTasks(rid, devices, tids, now)[..n]), rid, devices, tids, n)
  {
    if n == 0 {
      assert NewTasks(rid, devices, tids, now)[..0] == [];
      hide Added;
      NoneAdded(s, rid, devices, tids);
    } else {
      TasksAdded(s, rid, devices, tids, now, n - 1);
      NewTasksTake(rid, devices, tids, n, now);
      var cs, t := NewTasks(rid, devices, tids, now)[..n - 1], NewTask(tids[n - 1], rid, devices[n - 1], now);
      assert Untried(t, rid, devices[n - 1]);
      hide NewTasks, Added, ApplyAll, Distinct, NewTask, Untried;
      ApplyAllSplit(s, cs, [Change(TaskCreated, TaskData(t))]);
      ApplyOne(ApplyAll(s, cs), Change(TaskCreated, TaskData(t)));
      OneAdded(s, ApplyAll(s, cs), rid, devices, tids, n - 1, t);
    }
  }

  lemma CreateEffect(s: State, version: string, devices: seq<string>, batch: int, conc: int, retries: int,
                     policy: RollbackPolicy, rid: string, tids: seq<string>, now: Time)
    requires Coherent(s, now) && |tids| == |devices| && rid !in s.releases && FreshIds(s, tids)
    ensures var o := CreateRelease(version, devices, batch, conc, retries, policy, rid, tids, now);
      && (o.verdict == Ok <==> version != "" && devices != [] && batch >= 1 && conc >= 1 && retries >= 0)
      && (o.verdict == Ok ==>
            var s' := ApplyAll(s, o.changes);
            && rid in s'.releases && AsAsked(s'.releases[rid], version, devices, batch, conc, retries, policy, now)
            && s'.releases[rid].id == rid && s'.releases == s.releases[rid := s'.releases[rid]]
            && s'.devices == s.devices && s'.tasks.Keys == s.tasks.Keys + KeysOf(tids)
            && (forall k :: k in s.tasks ==> s'.tasks[k] == s.tasks[k])
            && (forall i :: 0 <= i < |tids| ==> tids[i] in s'.tasks && Untried(s'.tasks[tids[i]], rid, devices[i])))
      && (o.verdict != Ok ==> o.changes == [])
  {
    var r := NewRelease(version, devices, batch, conc, retries, policy, rid, now);
    var c, cs := Change(ReleaseCreated, ReleaseData(r)), NewTasks(rid, devices, tids, now);
    ApplyOne(s, c);
    ApplyAllSplit(s, [c], cs);
    TasksAdded(Apply(s, c), rid, devices, tids, now, |tids|);
    assert cs[..|tids|] == cs && tids[..|tids|] == tids;
    hide NewTasks, ApplyAll, KeysOf, Coherent, Untried;
  }

  /** Every device of a new release can get its task at once. */
  lemma CreatedRunsAtOnce(s: State, s': State, rid: string, devices: seq<string>, tids: seq<string>, now: Time, i: nat)
    requires Coherent(s, now) && now > 0 && rid !in s.releases && |tids| == |devices| && i < |tids|
    requires rid in s'.releases && s'.releases[rid].status == StatusQueued && s'.releases[rid].maxConcurrent >= 1
    requires s'.tasks.Keys == s.tasks.Keys + KeysOf(tids) && forall k :: k in s.tasks ==> s'.tasks[k] == s.tasks[k]
    requires forall j :: 0 <= j < |tids| ==> tids[j] in s'.tasks && Untried(s'.tasks[tids[j]], rid, devices[j])
    ensures CouldRun(s', devices[i], tids[i], now)
  {
    forall k | k in s'.tasks && s'.tasks[k].releaseId == rid ensures s'.tasks[k].status == TaskQueued {
      if k in s.tasks { TaskHasRelease(s, k, now); }
    }
    assert ActiveTasks(s', rid) == {};
    hide Coherent, ActiveTasks, KeysOf;
  }

  // ---- pausing and resuming

  /** Only this release changed. */
  predicate ReleaseSet(s: State, s': State, r: Release) {
    s' == s.(releases := s.releases[r.id := r])
  }

  lemma OneReleaseSet(s: State, r: Release)
    ensures ReleaseSet(s, ApplyAll(s, [Rewritten(r)]), r)
  {
    ApplyOne(s, Rewritten(r));
  }

  lemma KnownRelease(s: State, rid: string, now: Time)
    requires Coherent(s, now) && rid in s.releases
    ensures s.releases[rid].id == rid
  {}

  predicate Over(r: Release) {
    r.status == StatusCompleted || r.status == StatusRolledBack || r.status == StatusFailed
  }

  /** What an operator may order, and the status it leads to. */
  predicate MayOrder(r: Release, todo: ReleaseAction) {
    match todo
    case Pause => !Over(r)
    case Resume => r.status == StatusPaused
    case Rollback => true
    case UnknownReleaseAction => false
  }

  function OrderedStatus(todo: ReleaseAction): ReleaseStatus {
    match todo
    case Pause => StatusPaused
    case Resume => StatusQueued
    case _ => StatusRollbackPending
  }

  lemma SetReleaseEffect(s: State, rid: string, todo: ReleaseAction, now: Time)
    requires Coherent(s, now)
    ensures var o := SetRelease(s, rid, todo, now);
      && (o.verdict == Ok <==> rid in s.releases && MayOrder(s.releases[rid], todo))
      && (o.verdict == Ok ==>
            ReleaseSet(s, ApplyAll(s, o.changes), s.releases[rid].(status := OrderedStatus(todo), updatedAt := now)))
      && (o.verdict != Ok ==> o.changes == [])
  {
    SetRecords(s, rid, todo, now);
    if rid in s.releases {
      KnownRelease(s, rid, now);
      hide *;
      OneReleaseSet(s, s.releases[rid].(status := OrderedStatus(todo), updatedAt := now));
    }
  }

  lemma SetRecords(s: State, rid: string, todo: ReleaseAction, now: Time)
    ensures var o := SetRelease(s, rid, todo, now);
      && (o.verdict == Ok <==> rid in s.releases && MayOrder(s.releases[rid], todo))
      && (o.verdict == Ok ==>
            o.changes == [Rewritten(s.releases[rid].(status := OrderedStatus(todo), updatedAt := now))])
      && (o.verdict != Ok ==> o.changes == [])
  {}

  /** From an accepted pause on no device gets a task of the release; a device with no others is answered so. */
  lemma PauseStopsDispatch(s: State, rid: string, now: Time)
    requires Coherent(s, now) && rid in s.releases
    ensures SetRelease(s, rid, Pause, now).verdict == Ok <==> !Over(s.releases[rid])
    ensures SetRelease(s, rid, Pause, now).verdict == Ok ==>
      var s' := ApplyAll(s, SetRelease(s, rid, Pause, now).changes);
      && s'.tasks == s.tasks && s'.devices == s.devices
      && (forall device, k, x :: CouldRun(s', device, k, x) ==> s.tasks[k].releaseId != rid)
      && (forall device, k, x :: k in s.tasks && s.tasks[k].releaseId != rid ==>
            (CouldRun(s', device, k, x) <==> CouldRun(s, device, k, x)))
      && !GateOpen(s', rid)
  {
    SetReleaseEffect(s, rid, Pause, now);
    var s' := ApplyAll(s, SetRelease(s, rid, Pause, now).changes);
    hide Coherent, SetRelease, ApplyAll;
    KnownRelease(s, rid, now);
    if SetRelease(s, rid, Pause, now).verdict == Ok {
      forall k | k in s.tasks && s.tasks[k].releaseId != rid
        ensures GateOpen(s', s.tasks[k].releaseId) <==> GateOpen(s, s.tasks[k].releaseId)
      {
        assert ActiveTasks(s', s.tasks[k].releaseId) == ActiveTasks(s, s.tasks[k].releaseId);
      }
      hide ActiveTasks;
    }
  }

  /** A device all of whose tasks belong to releases that take no claims is told that there is no task. */
  lemma NothingToClaim(s: State, device: string, agent: string, ttl: int, now: Time)
    requires Coherent(s, now) && GoodClaim(s, device, agent, ttl)
    requires forall k :: k in s.tasks && s.tasks[k].deviceId == device ==> !GateOpen(s, s.tasks[k].releaseId)
    ensures Claim(s, device, agent, ttl, now) == Refuse(NoTask)
  {
    ClaimAnswers(s, device, agent, ttl, now);
    hide Claim, Coherent, GateOpen;
  }

  /** Resuming is for paused releases; the release then takes claims exactly if its installs leave room. */
  lemma ResumeReopens(s: State, rid: string, now: Time)
    requires Coherent(s, now) && rid in s.releases
    ensures SetRelease(s, rid, Resume, now).verdict == Ok <==> s.releases[rid].status == StatusPaused
    ensures SetRelease(s, rid, Resume, now).verdict == Ok ==>
      var s' := ApplyAll(s, SetRelease(s, rid, Resume, now).changes);
      && rid in s'.releases && s'.releases[rid].status == StatusQueued && s'.tasks == s.tasks && s'.devices == s.devices
      && (GateOpen(s', rid) <==> |ActiveTasks(s, rid)| < s.releases[rid].maxConcurrent)
  {
    SetReleaseEffect(s, rid, Resume, now);
    var s' := ApplyAll(s, SetRelease(s, rid, Resume, now).changes);
    hide Coherent, SetRelease, ApplyAll;
    KnownRelease(s, rid, now);
    if SetRelease(s, rid, Resume, now).verdict == Ok { assert ActiveTasks(s', rid) == ActiveTasks(s, rid); }
  }

  /** Pausing and resuming only sends the release back to the queue. */
  lemma PauseThenResume(s: State, rid: string, now: Time, later: Time)
    requires Coherent(s, now) && 0 < now <= later && rid in s.releases && !Over(s.releases[rid])
    ensures var s1 := ApplyAll(s, SetRelease(s, rid, Pause, now).changes);
      var o := SetRelease(s1, rid, Resume, later);
      o.verdict == Ok &&
      ReleaseSet(s, ApplyAll(s1, o.changes), s.releases[rid].(status := StatusQueued, updatedAt := later))
  {
    var s1 := ApplyAll(s, SetRelease(s, rid, Pause, now).changes);
    var r := s.releases[rid];
    hide SetRelease, ApplyAll, Coherent, LawfulRun;
    KnownRelease(s, rid, now);
    SetReleaseEffect(s, rid, Pause, now);
    ReleaseCommandsLawful(s, rid, Pause, now);
    LawfulRunKeepsCoherent(s, SetRelease(s, rid, Pause, now).changes, now);
    CoherentLater(s1, now, later);
    SetReleaseEffect(s1, rid, Resume, later);
    SetTwice(s.releases, rid, r.(status := StatusPaused, updatedAt := now),
             r.(status := StatusQueued, updatedAt := later));
  }

  lemma SetTwice<V>(m: map<string, V>, k: string, v: V, w: V)
    ensures m[k := v][k := w] == m[k := w]
  {}

  // ---- rolling back

  /** An agent's request counts as one more failure. */
  lemma RequestRollbackEffect(s: State, rid: string, now: Time)
    requires Coherent(s, now)
    ensures var o := RequestRollback(s, rid, now);
      && (o.verdict == Ok <==> rid in s.releases && !Over(s.releases[rid]))
      && (o.verdict == Ok ==>
            ReleaseSet(s, ApplyAll(s, o.changes),
                       s.releases[rid].(status := StatusRollbackPending, failed := s.releases[rid].failed + 1,
                                        updatedAt := now)))
      && (o.verdict != Ok ==> o.changes == [])
  {
    RequestRecords(s, rid, now);
    if rid in s.releases {
      KnownRelease(s, rid, now);
      hide *;
      OneReleaseSet(s, s.releases[rid].(status := StatusRollbackPending, failed := s.releases[rid].failed + 1,
                                        updatedAt := now));
    }
  }

  lemma RequestRecords(s: State, rid: string, now: Time)
    ensures var o := RequestRollback(s, rid, now);
      && (o.verdict == Ok <==> rid in s.releases && !Over(s.releases[rid]))
      && (o.verdict == Ok ==>
            o.changes == [Rewritten(s.releases[rid].(status := StatusRollbackPending,
                                                     failed := s.releases[rid].failed + 1, updatedAt := now))])
      && (o.verdict != Ok ==> o.changes == [])
  {}

  /** What QueueRollback makes of one task. */
  function SentForRollback(t: Task, rid: string, reason: string, now: Time): Task {
    if t.releaseId == rid && (t.status == TaskCompleted || t.status == TaskFailed)
    then t.(status := TaskRollbackQueued, leaseOwner := "", leaseUntil := 0, error := reason, updatedAt := now)
    else t
  }

  /** Exactly the finished tasks of the release wait for their rollback from then on, whatever the order. */
  lemma QueueRollbackEffect(s: State, rid: string, reason: string, order: seq<string>, now: Time)
    requires Coherent(s, now) && Visits(order, s.tasks.Keys)
    ensures forall k :: k in order ==> k in s.tasks
    ensures var o := QueueRollback(s, rid, reason, order, now);
      && (o.verdict == Ok <==> rid in s.releases && !Over(s.releases[rid]))
      && (o.verdict == Ok ==>
            var s' := ApplyAll(s, o.changes);
            && s'.devices == s.devices && s'.tasks.Keys == s.tasks.Keys
            && (forall k :: k in s.tasks ==> s'.tasks[k] == SentForRollback(s.tasks[k], rid, reason, now))
            && s'.releases == s.releases[rid := s.releases[rid].(status := StatusRollbackPending, updatedAt := now)])
      && (o.verdict != Ok ==> o.changes == [])
  {
    SweepOutcomeKeys(order, s.tasks.Keys);
    QueueAccepted(s, rid, reason, order, now);
    hide QueueRollback, ApplyAll, Coherent, AfterSweep, Visits, Over;
    if QueueRollback(s, rid, reason, order, now).verdict == Ok {
      QueueRollbackState(s, rid, reason, order, now);
      forall k | k in s.tasks
        ensures AfterSweep(s, Reverting(rid, reason), s.tasks[k], now) == SentForRollback(s.tasks[k], rid, reason, now)
      {
        RevertedTo(s, s.tasks[k], rid, reason, now);
      }
    }
  }

  lemma SweepOutcomeKeys(order: seq<string>, keys: set<string>)
    requires Visits(order, keys)
    ensures forall k :: k in order ==> k in keys
  {
    assert forall k :: k in order ==> k in KeysOf(order);
  }

  lemma QueueAccepted(s: State, rid: string, reason: string, order: seq<string>, now: Time)
    requires forall k :: k in order ==> k in s.tasks
    ensures var o := QueueRollback(s, rid, reason, order, now);
      && (o.verdict == Ok <==> rid in s.releases && !Over(s.releases[rid])) && (o.verdict != Ok ==> o.changes == [])
  {
    hide SweepLoop;
  }

  lemma RevertedTo(s: State, t: Task, rid: string, reason: string, now: Time)
    ensures AfterSweep(s, Reverting(rid, reason), t, now) == SentForRollback(t, rid, reason, now)
  {}

  /** The agent gets the task that has waited longest, for five minutes, and it counts as an attempt. */
  lemma ClaimRollbackEffect(s: State, device: string, agent: string, pick: string, now: Time)
    requires Coherent(s, now)
    requires RollbackCandidates(s, device) != {} ==> Oldest(s, RollbackCandidates(s, device), pick)
    ensures var o := ClaimRollback(s, device, agent, pick, now);
      if forall k :: k in s.tasks ==> !Awaits(s.tasks[k], device) then o == Refuse(NoTask)
      else
        && o.verdict == Ok && pick in s.tasks && Awaits(s.tasks[pick], device)
        && (forall k :: k in s.tasks && Awaits(s.tasks[k], device) ==> s.tasks[pick].updatedAt <= s.tasks[k].updatedAt)
        && TaskSet(s, ApplyAll(s, o.changes),
                   s.tasks[pick].(status := TaskRollingBack, leaseOwner := agent,
                                  leaseUntil := now + 5 * 60 * 1_000_000_000,
                                  attempts := s.tasks[pick].attempts + 1, updatedAt := now))
  {
    CandidatesAre(s, device);
    hide RollbackCandidates, Coherent;
    if RollbackCandidates(s, device) != {} {
      OneTaskSet(s, s.tasks[pick].(status := TaskRollingBack, leaseOwner := agent,
                                   leaseUntil := now + 5 * 60 * 1_000_000_000,
                                   attempts := s.tasks[pick].attempts + 1, updatedAt := now));
      hide ApplyAll, TaskSet;
    }
  }

  predicate Awaits(t: Task, device: string) { t.deviceId == device && t.status == TaskRollbackQueued }

  lemma CandidatesAre(s: State, device: string)
    ensures forall k :: k in RollbackCandidates(s, device) <==> k in s.tasks && Awaits(s.tasks[k], device)
    ensures RollbackCandidates(s, device) == {} <==> forall k :: k in s.tasks ==> !Awaits(s.tasks[k], device)
  {
    assert forall k :: k in RollbackCandidates(s, device) <==> k in s.tasks && Awaits(s.tasks[k], device);
  }

  /** The other tasks of the release need no rollback any more. */
  predicate OthersDone(s: State, id: string) {
    id in s.tasks && forall k :: k in s.tasks && k != id && s.tasks[k].releaseId == s.tasks[id].releaseId ==>
      s.tasks[k].status == TaskRolledBack || s.tasks[k].status == TaskQueued || s.tasks[k].status == TaskRejected
  }

  predicate MayRevert(s: State, id: string, agent: string, now: Time) {
    id in s.tasks && s.tasks[id].status == TaskRollingBack && HoldsLease(s.tasks[id], agent, now)
  }

  function BackOn(t: Task, now: Time): Task {
    t.(status := TaskRolledBack, leaseOwner := "", leaseUntil := 0, updatedAt := now)
  }

  /** The last of them takes the release along, if that is still pending; if it is not, the task stays rolled back. */
  lemma CompleteRollbackEffect(s: State, id: string, agent: string, now: Time)
    requires Coherent(s, now)
    ensures var o := CompleteRollback(s, id, agent, now);
      if !MayRevert(s, id, agent, now) then
        o.changes == [] && (o.verdict == Ok <==> id in s.tasks && s.tasks[id].status == TaskRolledBack)
      else
        var s', t := ApplyAll(s, o.changes), s.tasks[id];
        t.releaseId in s.releases &&
        var r := s.releases[t.releaseId];
        var pending := r.status == StatusRollbackPending || r.status == StatusRolledBack;
        && s'.tasks == s.tasks[id := BackOn(t, now)] && s'.devices == s.devices
        && s'.releases == (if OthersDone(s, id) && pending
                           then s.releases[t.releaseId := r.(status := StatusRolledBack, updatedAt := now)]
                           else s.releases)
        && (o.verdict == Ok <==> !OthersDone(s, id) || pending)
  {
    CompleteRollbackShape(s, id, agent, now);
    MayFinishIs(s, id, agent, now);
    if MayRevert(s, id, agent, now) {
      Known(s, id, now);
      hide CompleteRollback, MayFinish, Coherent, HoldsLease, OthersDone, ApplyAll, Finish;
      var u := BackOn(s.tasks[id], now);
      FinishEffect(s, u, now);
    } else {
      hide Coherent, MayFinish, MayRevert, HoldsLease, Finish;
      NotReverting(s, id, agent, now);
    }
  }

  lemma MayFinishIs(s: State, id: string, agent: string, now: Time)
    ensures MayFinish(s, id, agent, now) <==> MayRevert(s, id, agent, now)
  {}

  lemma NotReverting(s: State, id: string, agent: string, now: Time)
    requires !MayRevert(s, id, agent, now)
    ensures CompleteRollback(s, id, agent, now).changes == []
    ensures CompleteRollback(s, id, agent, now).verdict == Ok <==> id in s.tasks && s.tasks[id].status == TaskRolledBack
  {
    hide Finish;
  }

  lemma FinishEffect(s: State, u: Task, now: Time)
    requires u.id in s.tasks && u.releaseId == s.tasks[u.id].releaseId && u.status == TaskRolledBack
    requires u.releaseId in s.releases && s.releases[u.releaseId].id == u.releaseId
    ensures var end := Finish(Apply(s, Updated(u)), u.releaseId, now);
      var s', r := ApplyAll(s, [Updated(u)] + end.changes), s.releases[u.releaseId];
      var pending := r.status == StatusRollbackPending || r.status == StatusRolledBack;
      && s'.tasks == s.tasks[u.id := u] && s'.devices == s.devices
      && s'.releases == (if OthersDone(s, u.id) && pending
                         then s.releases[u.releaseId := r.(status := StatusRolledBack, updatedAt := now)]
                         else s.releases)
      && (end.verdict == Ok <==> !OthersDone(s, u.id) || pending)
  {
    var s1 := Apply(s, Updated(u));
    var end := Finish(s1, u.releaseId, now);
    RevertedOthers(s, u);
    OthersDoneIs(s, u.id);
    hide AllReverted, OthersReverted, OthersDone;
    ApplyOne(s, Updated(u));
    if end.changes == [] {
      assert [Updated(u)] + [] == [Updated(u)];
    } else {
      ApplyTwo(s, Updated(u), end.changes[0]);
      assert [Updated(u)] + end.changes == [Updated(u), end.changes[0]];
    }
    hide ApplyAll;
  }

  lemma OthersDoneIs(s: State, id: string)
    ensures OthersDone(s, id) <==> OthersReverted(s, id)
  {}

  // ---- the reaper

  /** What the reaper makes of one task: a lease that has ended is taken away, and the attempts decide what follows. */
  function Reclaimed(t: Task, limit: int, now: Time): Task {
    var active := t.status == TaskLeased || t.status == TaskInstalling || t.status == TaskAwaiting;
    if (!active && t.status != TaskRollingBack) || t.leaseUntil == 0 || now <= t.leaseUntil then t
    else
      var u := t.(leaseOwner := "", leaseUntil := 0, error := "lease expired", updatedAt := now);
      if !active then u.(status := TaskRollbackQueued)
      else if t.attempts > limit then u.(status := TaskFailed)
      else u.(status := TaskQueued, nextRetry := now + t.attempts * 60 * 1_000_000_000)
  }

  lemma ReclaimedIs(s: State, t: Task, now: Time)
    requires t.releaseId in s.releases
    ensures AfterSweep(s, Reaping, t, now) == Reclaimed(t, s.releases[t.releaseId].retryLimit, now)
  {}

  /** The whole effect of a reap: each task by itself, then each release of a reclaimed task is recounted. */
  lemma ReapEffect(s: State, order: seq<string>, rids: seq<string>, now: Time)
    requires Coherent(s, now) && now > 0 && Visits(order, s.tasks.Keys) && Visits(rids, ReapedReleases(s, now))
    ensures forall k :: k in order ==> k in s.tasks
    ensures var s' := ApplyAll(s, ReapExpired(s, order, rids, now).changes);
      && s'.devices == s.devices && s'.tasks.Keys == s.tasks.Keys && s'.releases.Keys == s.releases.Keys
      && (forall k :: k in s.tasks ==>
            s.tasks[k].releaseId in s.releases && s'.tasks[k] == Reclaimed(s.tasks[k], Limit(s, k), now))
      && (forall rid :: rid in s.releases ==> RecountedIf(s, s', rid, now))
  {
    ReapOutcome(s, order, rids, now);
    var mid := SweptState(s, Reaping, s.tasks.Keys, now);
    hide ReapExpired, ApplyAll, AfterSweep, Reconciled, Visits, ReapedReleases, RecountedIf;
    forall k | k in s.tasks
      ensures s.tasks[k].releaseId in s.releases && mid.tasks[k] == Reclaimed(s.tasks[k], Limit(s, k), now)
    {
      Known(s, k, now);
      ReclaimedIs(s, s.tasks[k], now);
    }
    forall rid | rid in s.releases ensures RecountedIf(s, ReconciledState(mid, KeysOf(rids), now), rid, now) {
      ReapedExactly(s, rid, now);
      RecountAfterReap(s, mid, rids, rid, now);
    }
  }

  /** The reaper takes the release up exactly if it changed one of its tasks. */
  lemma ReapedExactly(s: State, rid: string, now: Time)
    requires Coherent(s, now)
    ensures var mid := SweptState(s, Reaping, s.tasks.Keys, now);
      rid in ReapedReleases(s, now) <==>
        !(forall k :: k in s.tasks && s.tasks[k].releaseId == rid ==> mid.tasks[k] == s.tasks[k])
  {
    forall k | k in s.tasks
      ensures k in Reaped(s, now) <==> AfterSweep(s, Reaping, s.tasks[k], now) != s.tasks[k]
    {
      Known(s, k, now);
      WriteChanges(s, s.tasks[k], now);
    }
    hide Coherent, Swept, AfterSweep, Reaped;
  }

  lemma WriteChanges(s: State, t: Task, now: Time)
    ensures Swept(s, Reaping, t, now).Write? <==> AfterSweep(s, Reaping, t, now) != t
  {}

  lemma SameCounting(a: State, b: State, rid: string)
    requires a.tasks == b.tasks
    ensures WithStatus(a, rid, TaskCompleted) == WithStatus(b, rid, TaskCompleted)
    ensures WithStatus(a, rid, TaskFailed) == WithStatus(b, rid, TaskFailed)
  {}

  lemma RecountAfterReap(s: State, mid: State, rids: seq<string>, rid: string, now: Time)
    requires rid in s.releases && mid.releases == s.releases && mid.tasks.Keys == s.tasks.Keys
    requires Visits(rids, ReapedReleases(s, now))
    requires rid in ReapedReleases(s, now) <==>
      !(forall k :: k in s.tasks && s.tasks[k].releaseId == rid ==> mid.tasks[k] == s.tasks[k])
    ensures RecountedIf(s, ReconciledState(mid, KeysOf(rids), now), rid, now)
  {
    var s' := ReconciledState(mid, KeysOf(rids), now);
    SameCounting(s', mid, rid);
    hide WithStatus, ReapedReleases, KeysOf, Distinct;
  }

  /** The release is recounted if one of its tasks changed, and else as it was. */
  predicate RecountedIf(s: State, s': State, rid: string, now: Time) {
    && rid in s.releases && rid in s'.releases && s.tasks.Keys == s'.tasks.Keys
    && var r, q := s.releases[rid], s'.releases[rid];
       var done, failed := |WithStatus(s', rid, TaskCompleted)|, |WithStatus(s', rid, TaskFailed)|;
       if forall k :: k in s.tasks && s.tasks[k].releaseId == rid ==> s'.tasks[k] == s.tasks[k] then q == r
       else && q == r.(status := q.status, completed := done, failed := failed, updatedAt := now)
            && q.status == if r.rollback.auto && failed > r.rollback.maxFailures then StatusRollbackPending
                           else if done == |r.devices| then StatusCompleted else r.status
  }

  /**
    A task that is requeued waits a minute for every attempt it has had: until then no device gets it, and from then on
    its backoff is over. Every other task keeps its backoff.
   */
  lemma ReapedWaits(s: State, order: seq<string>, rids: seq<string>, now: Time, k: string)
    requires Coherent(s, now) && now > 0 && Visits(order, s.tasks.Keys) && Visits(rids, ReapedReleases(s, now))
    requires k in s.tasks && forall x :: x in order ==> x in s.tasks
    ensures var s' := ApplyAll(s, ReapExpired(s, order, rids, now).changes);
      var t := s.tasks[k];
      var until := now + t.attempts * 60 * 1_000_000_000;
      && k in s'.tasks && t.releaseId in s.releases
      && (IsBusy(t) && t.leaseUntil < now && t.attempts <= Limit(s, k) ==>
            && s'.tasks[k].status == TaskQueued && Waits(s', k, until)
            && forall x :: x >= until ==> (CouldRun(s', t.deviceId, k, x) <==> GateOpen(s', t.releaseId)))
      && (!(IsBusy(t) && t.leaseUntil < now && t.attempts <= Limit(s, k)) ==> s'.tasks[k].nextRetry == t.nextRetry)
  {
    var s' := ApplyAll(s, ReapExpired(s, order, rids, now).changes);
    ReapEffect(s, order, rids, now);
    Known(s, k, now);
    assert TaskSound(s.tasks[k], Limit(s, k), now);
    ReclaimedWaits(s.tasks[k], Limit(s, k), now);
    hide *;
    if s'.tasks[k].nextRetry > 0 {
      NotBefore(s', k);
      forall x | x >= s'.tasks[k].nextRetry && s'.tasks[k].status == TaskQueued
        ensures CouldRun(s', s'.tasks[k].deviceId, k, x) <==> GateOpen(s', s'.tasks[k].releaseId)
      {
        RunsAfterwards(s', k, x);
      }
    }
  }

  lemma RunsAfterwards(s: State, k: string, x: Time)
    requires k in s.tasks && s.tasks[k].status == TaskQueued && s.tasks[k].nextRetry <= x
    ensures CouldRun(s, s.tasks[k].deviceId, k, x) <==> GateOpen(s, s.tasks[k].releaseId)
  {}

  lemma ReclaimedWaits(t: Task, limit: int, now: Time)
    requires TaskSound(t, limit, now) && now > 0
    ensures var u, until := Reclaimed(t, limit, now), now + t.attempts * 60 * 1_000_000_000;
      && u.releaseId == t.releaseId && u.deviceId == t.deviceId
      && (IsBusy(t) && t.leaseUntil < now && t.attempts <= limit ==>
            u.status == TaskQueued && u.nextRetry == until > 0)
      && (!(IsBusy(t) && t.leaseUntil < now && t.attempts <= limit) ==> u.nextRetry == t.nextRetry)
  {}

  // ---- devices

  predicate DeviceSet(s: State, s': State, d: Device) { s' == s.(devices := s.devices[d.id := d]) }

  lemma OneDeviceSet(s: State, d: Device)
    ensures DeviceSet(s, ApplyAll(s, [Change(DeviceRegistered, DeviceData(d))]), d)
  {
    ApplyOne(s, Change(DeviceRegistered, DeviceData(d)));
  }

  /** Registering again replaces what was known of the device. */
  lemma RegisterEffect(s: State, id: string, firmware: string, capabilities: seq<string>, now: Time)
    ensures var o := RegisterDevice(id, firmware, capabilities, now);
      && (o.verdict == Ok <==> id != "")
      && (o.verdict == Ok ==>
            var s' := ApplyAll(s, o.changes);
            id in s'.devices &&
            var d := s'.devices[id];
            && DeviceSet(s, s', d) && d.id == id && d.firmware == firmware && d.capabilities == capabilities
            && d.registeredAt == now && d.lastSeen == now && d.online)
      && (o.verdict != Ok ==> o.changes == [])
  {
    OneDeviceSet(s, Device(id, firmware, capabilities, now, now, true));
    hide ApplyAll;
  }

  lemma HeartbeatEffect(s: State, id: string, online: bool, now: Time)
    requires Coherent(s, now)
    ensures var o := DeviceHeartbeat(s, id, online, now);
      && (o.verdict == Ok <==> id in s.devices)
      && (o.verdict == Ok ==>
            DeviceSet(s, ApplyAll(s, o.changes), s.devices[id].(online := online, lastSeen := now)))
      && (o.verdict != Ok ==> o.changes == [])
  {
    if id in s.devices {
      assert s.devices[id].id == id;
      OneDeviceSet(s, s.devices[id].(online := online, lastSeen := now));
    }
    hide Coherent, ApplyAll, DeviceSet;
  }

  /** A device gets tasks exactly while its last heartbeat said it is online. */
  lemma OfflineGetsNothing(s: State, id: string, online: bool, now: Time, agent: string, ttl: int, later: Time)
    requires Coherent(s, now) && 0 < now <= later && id in s.devices
    requires agent != "" && 0 < ttl <= 60 * 60 * 1_000_000_000
    ensures var s' := ApplyAll(s, DeviceHeartbeat(s, id, online, now).changes);
      Claim(s', id, agent, ttl, later) == Refuse(DeviceOffline) <==> !online
  {
    var s' := ApplyAll(s, DeviceHeartbeat(s, id, online, now).changes);
    hide Claim, Coherent, ApplyAll, DeviceHeartbeat, LawfulRun;
    HeartbeatEffect(s, id, online, now);
    DeviceCommandsLawful(s, id, "", [], online, now);
    LawfulRunKeepsCoherent(s, DeviceHeartbeat(s, id, online, now).changes, now);
    CoherentLater(s', now, later);
    NamedDevice(s, id, now);
    ClaimAnswers(s', id, agent, ttl, later);
    if online { OnlineAnswer(s', id, agent, ttl, later); }
  }

  lemma NamedDevice(s: State, id: string, now: Time)
    requires Coherent(s, now) && id in s.devices
    ensures id != "" && s.devices[id].id == id
  {}

  lemma OnlineAnswer(s: State, id: string, agent: string, ttl: int, now: Time)
    requires GoodClaim(s, id, agent, ttl)
    ensures Claim(s, id, agent, ttl, now) != Refuse(DeviceOffline)
  {
    hide Eligible, Head, Opening;
  }

  // ---- what the gate reports, and what is left of a release

  /** The numbers add up, the reason is given exactly when the gate is shut, and it is the first that applies. */
  lemma DecisionMeans(s: State, rid: string, now: Time)
    requires Coherent(s, now)
    ensures var d := DecisionFor(s, rid);
      && (d.allowed <==> GateOpen(s, rid)) && (d.allowed <==> d.reason == Reason.None)
      && (rid !in s.releases <==> d.reason == ReleaseNotFound)
      && (rid in s.releases ==>
            var r := s.releases[rid];
            && d.active == |ActiveTasks(s, rid)| && 0 <= d.capacity <= r.batchSize
            && (d.capacity > 0 <==> d.active < r.maxConcurrent)
            && (d.capacity == 0 || d.capacity == r.batchSize || d.active + d.capacity == r.maxConcurrent)
            && (d.capacity > 0 ==> d.active + d.capacity <= r.maxConcurrent)
            && (d.reason == ReleaseTerminal <==> Over(r))
            && (d.reason == ReleasePaused <==> r.status == StatusPaused)
            && (d.reason == ReleaseRollingBack <==> r.status == StatusRollbackPending))
  {
    GateExactly(s, rid, now);
    if rid in s.releases { assert ReleaseSound(s, s.releases[rid]); }
    hide Coherent, ReleaseSound, ActiveTasks, GateOpen;
  }

  /** What is left to hand out: never more than a batch, and never more than the cap has room for. */
  lemma CapacityMeans(s: State, rid: string, now: Time)
    requires Coherent(s, now) && rid in s.releases
    ensures var r, c, busy := s.releases[rid], Capacity(s, rid), |BusyTasks(s, rid)|;
      && 0 <= c <= r.batchSize && (c > 0 <==> busy < r.maxConcurrent) && (c > 0 ==> busy + c <= r.maxConcurrent)
      && (c == 0 || c == r.batchSize || busy + c == r.maxConcurrent)
  {
    assert ReleaseSound(s, s.releases[rid]);
    hide Coherent, ReleaseSound, BusyTasks;
  }

  /** Confirming an install moves one task of the release to the completed ones and leaves the other counts alone. */
  lemma ConfirmCounts(s: State, id: string, agent: string, now: Time)
    requires Coherent(s, now) && id in s.tasks && s.tasks[id].status != TaskCompleted
    requires ConfirmInstall(s, id, agent, now).verdict == Ok
    ensures var rid, s' := s.tasks[id].releaseId, ApplyAll(s, ConfirmInstall(s, id, agent, now).changes);
      ReleaseProgress(s, rid).Counts? && ReleaseProgress(s', rid).Counts? &&
      var p, q := ReleaseProgress(s, rid), ReleaseProgress(s', rid);
      q.completed == p.completed + 1 && q.failed == p.failed && q.total == p.total && q.inconsistent == p.inconsistent
  {
    var s' := ApplyAll(s, ConfirmInstall(s, id, agent, now).changes);
    ConfirmInstallEffect(s, id, agent, now);
    Known(s, id, now);
    hide Coherent, ConfirmInstall, ApplyAll;
    CountsMove(s, s', id, Confirmed(s.tasks[id], now));
    SameDevices(s, s', s.tasks[id].releaseId, now);
    hide WithStatus, TasksOf, Recounted;
  }

  lemma SameDevices(s: State, s': State, rid: string, now: Time)
    requires Recounted(s, s', rid, now)
    ensures rid in s.releases && rid in s'.releases && s'.releases[rid].devices == s.releases[rid].devices
  {}

  lemma CountsMove(s: State, s': State, id: string, u: Task)
    requires id in s.tasks && u.id == id && u.releaseId == s.tasks[id].releaseId && s'.tasks == s.tasks[id := u]
    ensures TasksOf(s', u.releaseId) == TasksOf(s, u.releaseId)
    ensures var rid, t := u.releaseId, s.tasks[id];
      forall status ::
        |WithStatus(s', rid, status)| == |WithStatus(s, rid, status)|
          + (if u.status == status then 1 else 0) - (if t.status == status then 1 else 0)
  {
    var rid, t := u.releaseId, s.tasks[id];
    forall status ensures |WithStatus(s', rid, status)| == |WithStatus(s, rid, status)|
      + (if u.status == status then 1 else 0) - (if t.status == status then 1 else 0)
    {
      StatusMoves(s, s', id, u, status);
    }
  }

  lemma StatusMoves(s: State, s': State, id: string, u: Task, status: TaskStatus)
    requires id in s.tasks && u.id == id && u.releaseId == s.tasks[id].releaseId && s'.tasks == s.tasks[id := u]
    ensures |WithStatus(s', u.releaseId, status)| == |WithStatus(s, u.releaseId, status)|
      + (if u.status == status then 1 else 0) - (if s.tasks[id].status == status then 1 else 0)
  {
    StatusSets(s, s', id, u, status);
    hide *;
    OneMoved(WithStatus(s, u.releaseId, status), WithStatus(s', u.releaseId, status), id, u.status == status);
  }

  lemma StatusSets(s: State, s': State, id: string, u: Task, status: TaskStatus)
    requires id in s.tasks && u.id == id && u.releaseId == s.tasks[id].releaseId && s'.tasks == s.tasks[id := u]
    ensures var a, b := WithStatus(s, u.releaseId, status), WithStatus(s', u.releaseId, status);
      && b == (a - {id}) + (if u.status == status then {id} else {}) && (id in a <==> s.tasks[id].status == status)
  {}

  lemma OneMoved(a: set<string>, b: set<string>, id: string, stays: bool)
    requires b == (a - {id}) + if stays then {id} else {}
    ensures |b| == |a| + (if stays then 1 else 0) - (if id in a then 1 else 0)
  {
    assert |a - {id}| == |a| - if id in a then 1 else 0;
    assert b == if stays then (a - {id}) + {id} else a - {id};
  }

  /** A final failure moves it to the failed ones. */
  lemma FailCounts(s: State, id: string, agent: string, reason: string, now: Time)
    requires Coherent(s, now) && id in s.tasks
    requires s.tasks[id].status != TaskFailed && s.tasks[id].status != TaskCompleted
    requires FailTask(s, id, agent, reason, false, now).verdict == Ok
    ensures var rid, s' := s.tasks[id].releaseId, ApplyAll(s, FailTask(s, id, agent, reason, false, now).changes);
      ReleaseProgress(s, rid).Counts? && ReleaseProgress(s', rid).Counts? &&
      var p, q := ReleaseProgress(s, rid), ReleaseProgress(s', rid);
      q.failed == p.failed + 1 && q.completed == p.completed && q.total == p.total && q.inconsistent == p.inconsistent
  {
    var s' := ApplyAll(s, FailTask(s, id, agent, reason, false, now).changes);
    FailTaskEffect(s, id, agent, reason, false, now);
    Known(s, id, now);
    hide Coherent, FailTask, ApplyAll, SentBack;
    CountsMove(s, s', id, FailedBy(s.tasks[id], Limit(s, id), reason, false, now));
    SameDevices(s, s', s.tasks[id].releaseId, now);
    hide WithStatus, TasksOf, Recounted;
  }
}
