/** scheduler.BuildPlan: the read-side plan, and how it compares with the claim gate (internal/scheduler/plan.go). */
module Plan {
  import opened Domain
  import opened Projection
  import opened Commands
  import opened Dispatch
  import opened Lifecycle
  import opened Sorting
  import opened Loops

  datatype PlanItem = PlanItem(releaseId: string, taskId: string, deviceId: string,
    priority: int, status: TaskStatus, readyAt: Time)

  /** Release.Ready: a release that is rolling back is not excluded. */
  predicate Ready(s: State, rid: string) {
    rid in s.releases && !Terminal(s.releases[rid]) && s.releases[rid].status != StatusPaused && Capacity(s, rid) > 0
  }

  predicate Plannable(t: Task, now: Time) {
    (t.status == TaskQueued || t.status == TaskRejected) && RetryReady(t, now)
  }

  /** The tasks the plan should hold. */
  function Planned(s: State, now: Time): set<string> {
    set k | k in s.tasks && Plannable(s.tasks[k], now) && Ready(s, s.tasks[k].releaseId)
  }

  function ItemFor(s: State, k: string): PlanItem
    requires k in s.tasks && s.tasks[k].releaseId in s.releases
  {
    var t := s.tasks[k];
    PlanItem(t.releaseId, k, t.deviceId, s.releases[t.releaseId].maxConcurrent - Capacity(s, t.releaseId),
      t.status, t.nextRetry)
  }

  /** The list holds one item for each of these tasks and nothing else. */
  ghost predicate Holds(s: State, items: seq<PlanItem>, keys: set<string>) {
    && |items| == |keys|
    && (forall k :: k in keys ==> k in s.tasks && s.tasks[k].releaseId in s.releases && ItemFor(s, k) in items)
    && (forall p :: p in items ==> p.taskId in keys && p == ItemFor(s, p.taskId))
  }

  lemma HoldOne(s: State, items: seq<PlanItem>, keys: set<string>, k: string)
    requires Holds(s, items, keys) && k !in keys && k in s.tasks && s.tasks[k].releaseId in s.releases
    ensures Holds(s, items + [ItemFor(s, k)], keys + {k})
  {}

  const BY_PRIORITY: (PlanItem, PlanItem) -> bool :=
    (a: PlanItem, b: PlanItem) => if a.priority == b.priority then a.readyAt < b.readyAt else a.priority < b.priority

  lemma ByPriorityOrders()
    ensures Orders(BY_PRIORITY)
  {}

  lemma HoldPermuted(s: State, items: seq<PlanItem>, sorted: seq<PlanItem>, keys: set<string>)
    requires Holds(s, items, keys) && multiset(sorted) == multiset(items)
    ensures Holds(s, sorted, keys)
  {
    hide ItemFor;
    assert |multiset(sorted)| == |sorted| && |multiset(items)| == |items|;
    forall p ensures p in sorted <==> p in items { assert p in multiset(sorted) <==> p in multiset(items); }
  }

  // ---- the loops

  predicate DistinctTasks(ts: seq<Task>) {
    forall i, j :: 0 <= i < j < |ts| ==> ts[i].id != ts[j].id
  }

  /** ListTasks: the tasks of a release in map order. */
  method ListTasks(s: State, rid: string) returns (out: seq<Task>)
    requires Keyed(s)
    ensures Lists(s, out, TasksOf(s, rid)) && DistinctTasks(out)
  {
    hide Lists;
    out := [];
    var left := s.tasks.Keys;
    ListStarts(s, TasksOf(s, rid));
    while left != {}
      invariant left <= s.tasks.Keys && Lists(s, out, TasksOf(s, rid) - left)
      invariant DistinctTasks(out) && forall u :: u in out ==> u.id !in left
    {
      var k :| k in left;
      ListOne(s, out, TasksOf(s, rid), left, k);
      left := left - {k};
      if s.tasks[k].releaseId == rid {
        out := out + [s.tasks[k]];
      }
    }
    ListEnds(s, out, TasksOf(s, rid));
  }

  function BusyIn(rid: string, ts: seq<Task>): set<string> {
    set u | u in ts && u.releaseId == rid && IsBusy(u) :: u.id
  }

  lemma BusyOneMore(rid: string, ts: seq<Task>, i: nat)
    requires i < |ts| && DistinctTasks(ts)
    ensures |BusyIn(rid, ts[..i + 1])|
      == |BusyIn(rid, ts[..i])| + if ts[i].releaseId == rid && IsBusy(ts[i]) then 1 else 0
  {
    assert ts[..i + 1] == ts[..i] + [ts[i]];
    assert ts[i].id !in BusyIn(rid, ts[..i]);
    assert BusyIn(rid, ts[..i + 1])
      == if ts[i].releaseId == rid && IsBusy(ts[i]) then BusyIn(rid, ts[..i]) + {ts[i].id} else BusyIn(rid, ts[..i]);
  }

  lemma BusyListed(s: State, rid: string, ts: seq<Task>)
    requires Lists(s, ts, TasksOf(s, rid))
    ensures BusyIn(rid, ts) == BusyTasks(s, rid)
  {
    forall k | k in BusyTasks(s, rid) ensures k in BusyIn(rid, ts) { assert k in TasksOf(s, rid) && s.tasks[k] in ts; }
  }

  /** Release.Capacity over a task list. */
  method CapacityOf(r: Release, ts: seq<Task>) returns (c: int)
    requires DistinctTasks(ts)
    ensures var left := r.maxConcurrent - |BusyIn(r.id, ts)|;
      c == if left < 0 then 0 else if left > r.batchSize then r.batchSize else left
  {
    var active := 0;
    for i := 0 to |ts|
      invariant active == |BusyIn(r.id, ts[..i])|
    {
      BusyOneMore(r.id, ts, i);
      if ts[i].releaseId == r.id &&
         (ts[i].status == TaskLeased || ts[i].status == TaskInstalling || ts[i].status == TaskAwaiting) {
        active := active + 1;
      }
    }
    assert ts[..|ts|] == ts;
    var left := r.maxConcurrent - active;
    if left < 0 { return 0; }
    if left > r.batchSize { return r.batchSize; }
    return left;
  }

  /** The planned tasks of the releases already visited. */
  function PlannedIn(s: State, rids: set<string>, now: Time): set<string> {
    set k | k in s.tasks && s.tasks[k].releaseId in rids && Plannable(s.tasks[k], now) && Ready(s, s.tasks[k].releaseId)
  }

  function PlannedAmong(ts: seq<Task>, now: Time): set<string> {
    set u | u in ts && Plannable(u, now) :: u.id
  }

  lemma AmongOneMore(ts: seq<Task>, i: nat, now: Time)
    requires i < |ts| && DistinctTasks(ts)
    ensures ts[i].id !in PlannedAmong(ts[..i], now)
    ensures PlannedAmong(ts[..i + 1], now)
      == if Plannable(ts[i], now) then PlannedAmong(ts[..i], now) + {ts[i].id} else PlannedAmong(ts[..i], now)
  {
    assert ts[..i + 1] == ts[..i] + [ts[i]];
  }

  lemma VisitedRelease(s: State, rids: set<string>, rid: string, ts: seq<Task>, now: Time)
    requires Lists(s, ts, TasksOf(s, rid)) && rid !in rids
    ensures PlannedIn(s, rids + {rid}, now)
      == if Ready(s, rid) then PlannedIn(s, rids, now) + PlannedAmong(ts, now) else PlannedIn(s, rids, now)
    ensures PlannedIn(s, rids, now) !! PlannedAmong(ts, now)
  {
    forall k | k in PlannedIn(s, rids + {rid}, now) && s.tasks[k].releaseId == rid ensures k in PlannedAmong(ts, now) {
      assert k in TasksOf(s, rid) && s.tasks[k] in ts;
    }
  }

  method MakeItem(s: State, rid: string, t: Task) returns (item: PlanItem)
    requires Keyed(s) && rid in s.releases && t.id in s.tasks && s.tasks[t.id] == t && t.releaseId == rid
    ensures item == ItemFor(s, t.id)
  {
    hide Lists, TasksOf, BusyTasks, BusyIn;
    var all := ListTasks(s, rid);
    var capacity := CapacityOf(s.releases[rid], all);
    BusyListed(s, rid, all);
    item := PlanItem(rid, t.id, t.deviceId, s.releases[rid].maxConcurrent - capacity, t.status, t.nextRetry);
  }

  /** The inner loop: the items of one ready release. */
  method PlanRelease(s: State, rid: string, now: Time, items: seq<PlanItem>, ts: seq<Task>, ghost keys: set<string>)
    returns (more: seq<PlanItem>)
    requires Keyed(s) && rid in s.releases && Lists(s, ts, TasksOf(s, rid)) && DistinctTasks(ts)
    requires Holds(s, items, keys) && keys !! PlannedAmong(ts, now)
    ensures Holds(s, more, keys + PlannedAmong(ts, now))
  {
    hide Holds, DistinctTasks, PlannedAmong, ItemFor, Lists, TasksOf, Keyed;
    more := items;
    NoneAmong(ts, now, keys);
    for i := 0 to |ts|
      invariant Holds(s, more, keys + PlannedAmong(ts[..i], now))
    {
      var t := ts[i];
      AmongStep(ts, i, keys, now);
      Listed(s, rid, ts, i);
      if t.status != TaskQueued && t.status != TaskRejected { continue; }
      if t.nextRetry != ZERO_TIME && now < t.nextRetry { continue; }
      ghost var before := keys + PlannedAmong(ts[..i], now);
      HoldOne(s, more, before, t.id);
      var item := MakeItem(s, rid, t);
      assert keys + PlannedAmong(ts[..i + 1], now) == before + {t.id};
      more := more + [item];
    }
    assert ts[..|ts|] == ts;
  }

  lemma NoneAmong(ts: seq<Task>, now: Time, keys: set<string>)
    ensures keys + PlannedAmong(ts[..0], now) == keys
  {}

  /** One more task of the list, on top of the tasks planned before. */
  lemma AmongStep(ts: seq<Task>, i: nat, keys: set<string>, now: Time)
    requires i < |ts| && DistinctTasks(ts) && keys !! PlannedAmong(ts, now)
    ensures Plannable(ts[i], now) ==> ts[i].id !in keys + PlannedAmong(ts[..i], now)
    ensures keys + PlannedAmong(ts[..i + 1], now)
      == if Plannable(ts[i], now) then (keys + PlannedAmong(ts[..i], now)) + {ts[i].id}
        else keys + PlannedAmong(ts[..i], now)
  {
    AmongOneMore(ts, i, now);
    assert Plannable(ts[i], now) ==> ts[i].id in PlannedAmong(ts, now);
    hide PlannedAmong, DistinctTasks;
  }

  lemma Listed(s: State, rid: string, ts: seq<Task>, i: nat)
    requires Lists(s, ts, TasksOf(s, rid)) && i < |ts|
    ensures ts[i].id in s.tasks && s.tasks[ts[i].id] == ts[i] && ts[i].releaseId == rid
  {
    assert ts[i] in ts;
  }

  /** One item for every ready task of every ready release, sorted by priority, then by when it became ready. */
  method BuildPlan(s: State, now: Time) returns (plan: seq<PlanItem>)
    requires Keyed(s)
    ensures Holds(s, plan, Planned(s, now))
    ensures Sorted(plan, BY_PRIORITY)
  {
    hide Holds, PlannedIn, Planned, PlannedAmong, Lists, DistinctTasks, Sorted, Orders, BusyIn, BusyTasks, TasksOf;
    var items: seq<PlanItem> := [];
    var left := s.releases.Keys;
    NothingPlanned(s, now);
    while left != {}
      invariant left <= s.releases.Keys && Holds(s, items, PlannedIn(s, s.releases.Keys - left, now))
    {
      var rid :| rid in left;
      var seen := s.releases.Keys - left;
      left := left - {rid};
      assert s.releases.Keys - left == seen + {rid};
      var r := s.releases[rid];
      var ts := ListTasks(s, rid);
      VisitedRelease(s, seen, rid, ts, now);
      BusyListed(s, rid, ts);
      var capacity := CapacityOf(r, ts);
      if Terminal(r) || r.status == StatusPaused || !(capacity > 0) { continue; }
      items := PlanRelease(s, rid, now, items, ts, PlannedIn(s, seen, now));
    }
    assert s.releases.Keys - {} == s.releases.Keys;
    AllPlanned(s, now);
    ByPriorityOrders();
    plan := SortSlice(items, BY_PRIORITY);
    HoldPermuted(s, items, plan, Planned(s, now));
  }

  lemma NothingPlanned(s: State, now: Time)
    ensures Holds(s, [], PlannedIn(s, s.releases.Keys - s.releases.Keys, now))
  {
    assert PlannedIn(s, s.releases.Keys - s.releases.Keys, now) == {};
  }

  lemma AllPlanned(s: State, now: Time)
    ensures PlannedIn(s, s.releases.Keys, now) == Planned(s, now)
  {}

  // ---- plan and gate

  /**
    The plan against the claim gate, task by task: outside rolling-back releases the planned tasks are exactly the
    eligible tasks of their device whose release has Release.Capacity left. So every such item can be dispatched at
    once.
   */
  lemma PlanVersusGate(s: State, k: string, now: Time)
    requires Coherent(s, now) && k in s.tasks
    ensures var t := s.tasks[k];
      k in Planned(s, now) && s.releases[t.releaseId].status != StatusRollbackPending
      <==> k in Eligible(s, t.deviceId, now) && Capacity(s, t.releaseId) > 0
  {
    var rid := s.tasks[k].releaseId;
    assert ReleaseSound(s, s.releases[rid]);
    GateIsLooser(s, rid);
    hide Coherent, ReleaseSound, ActiveTasks, BusyTasks, WithStatus;
  }

  /** With no task of the release leased, the plan misses no eligible task. */
  lemma PlanIsGateWhenNothingLeased(s: State, k: string, now: Time)
    requires Coherent(s, now) && k in s.tasks && WithStatus(s, s.tasks[k].releaseId, TaskLeased) == {}
    ensures k in Eligible(s, s.tasks[k].deviceId, now) ==> k in Planned(s, now)
  {
    var rid := s.tasks[k].releaseId;
    assert ReleaseSound(s, s.releases[rid]);
    GateIsLooser(s, rid);
    hide Coherent, ReleaseSound, ActiveTasks, BusyTasks, WithStatus;
  }

  // ---- what a plan tells

  /** The task waits and is past its backoff; its release is neither finished nor paused and has room under its cap. */
  predicate Dispatchable(s: State, k: string, now: Time) {
    && k in s.tasks && (s.tasks[k].status == TaskQueued || s.tasks[k].status == TaskRejected)
    && (s.tasks[k].nextRetry == 0 || s.tasks[k].nextRetry <= now) && s.tasks[k].releaseId in s.releases
    && var r := s.releases[s.tasks[k].releaseId];
       && r.status != StatusCompleted && r.status != StatusRolledBack && r.status != StatusFailed
       && r.status != StatusPaused && |BusyTasks(s, s.tasks[k].releaseId)| < r.maxConcurrent
  }

  /** The item speaks of its task; the fewer tasks its release has under way, down to a batch less, the sooner. */
  predicate Describes(s: State, p: PlanItem) {
    && p.taskId in s.tasks && s.tasks[p.taskId].releaseId in s.releases
    && var t, r := s.tasks[p.taskId], s.releases[s.tasks[p.taskId].releaseId];
       var busy := |BusyTasks(s, t.releaseId)|;
       && p.releaseId == t.releaseId && p.deviceId == t.deviceId && p.status == t.status && p.readyAt == t.nextRetry
       && p.priority == if busy > r.maxConcurrent - r.batchSize then busy else r.maxConcurrent - r.batchSize
  }

  predicate NotAfter(p: PlanItem, q: PlanItem) {
    p.priority < q.priority || (p.priority == q.priority && p.readyAt <= q.readyAt)
  }

  lemma PlannedExactly(s: State, k: string, now: Time)
    requires Coherent(s, now)
    ensures k in Planned(s, now) <==> Dispatchable(s, k, now)
    ensures k in Planned(s, now) ==> Describes(s, ItemFor(s, k)) && ItemFor(s, k).taskId == k
  {
    if k in s.tasks {
      TaskHasRelease(s, k, now);
      assert ReleaseSound(s, s.releases[s.tasks[k].releaseId]);
    }
    hide Coherent, ReleaseSound, BusyTasks;
  }

  /** A plan holds one item for each task that could be dispatched and no other, the most urgent first. */
  lemma PlanMeans(s: State, plan: seq<PlanItem>, now: Time)
    requires Coherent(s, now) && Holds(s, plan, Planned(s, now)) && Sorted(plan, BY_PRIORITY)
    ensures forall k :: Dispatchable(s, k, now) <==> exists p :: p in plan && p.taskId == k
    ensures forall p :: p in plan ==> Describes(s, p)
    ensures forall i, j :: 0 <= i < j < |plan| ==> plan[i].taskId != plan[j].taskId && NotAfter(plan[i], plan[j])
  {
    forall k ensures k in Planned(s, now) <==> Dispatchable(s, k, now) { PlannedExactly(s, k, now); }
    forall p | p in plan ensures Describes(s, p) && p.taskId in Planned(s, now) { PlannedExactly(s, p.taskId, now); }
    forall k | k in Planned(s, now) ensures ItemFor(s, k) in plan && ItemFor(s, k).taskId == k {
      PlannedExactly(s, k, now);
    }
    OneItemEach(s, plan, Planned(s, now));
    hide Planned, Dispatchable, Describes, ItemFor, Coherent;
  }

  lemma OneItemEach(s: State, items: seq<PlanItem>, keys: set<string>)
    requires Holds(s, items, keys)
    ensures forall i, j :: 0 <= i < j < |items| ==> items[i].taskId != items[j].taskId
  {
    var ids := seq(|items|, i requires 0 <= i < |items| => items[i].taskId);
    forall k ensures k in KeysOf(ids) <==> k in keys {
      if k in keys {
        assert ItemFor(s, k) in items && ItemFor(s, k).taskId == k;
        var i :| 0 <= i < |items| && items[i] == ItemFor(s, k);
        assert ids[i] == k;
      }
      if k in KeysOf(ids) {
        var i :| 0 <= i < |ids| && ids[i] == k;
        assert items[i] in items;
      }
    }
    assert KeysOf(ids) == keys;
    DistinctBySize(ids);
    forall i, j | 0 <= i < j < |items| ensures items[i].taskId != items[j].taskId { assert ids[i] != ids[j]; }
  }

  lemma {:induction false} DistinctBySize(ids: seq<string>)
    ensures |KeysOf(ids)| <= |ids|
    ensures |KeysOf(ids)| == |ids| ==> Distinct(ids)
  {
    if ids != [] {
      var n := |ids| - 1;
      DistinctBySize(ids[..n]);
      LastKey(ids);
      hide *;
      var before := KeysOf(ids[..n]);
      if ids[n] in before {
        assert before + {ids[n]} == before;
      } else {
        assert |before + {ids[n]}| == |before| + 1;
      }
    } else {
      assert KeysOf(ids) == {};
    }
  }

  lemma LastKey(ids: seq<string>)
    requires ids != []
    ensures KeysOf(ids) == KeysOf(ids[..|ids| - 1]) + {ids[|ids| - 1]}
    ensures Distinct(ids[..|ids| - 1]) && ids[|ids| - 1] !in KeysOf(ids[..|ids| - 1]) ==> Distinct(ids)
  {
    var n := |ids| - 1;
    if Distinct(ids[..n]) && ids[n] !in KeysOf(ids[..n]) {
      forall i, j | 0 <= i < j < |ids| ensures ids[i] != ids[j] {
        assert ids[i] == ids[..n][i] && ids[i] in ids[..n];
        if j < n { assert ids[j] == ids[..n][j]; }
      }
    }
  }
}
