/** What one iteration of each loop of the service does, on values: the loop invariants' step lemmas. */
module Loops {
  import opened Domain
  import opened Projection
  import opened Commands
  import opened Lifecycle
  import opened CommandLaws
  import opened Dispatch
  import opened Sorting
  import opened Text

  // ---- the two sweeps

  /** The live state after a sweep visited the keys of order, with the release map as it then is. */
  function Halfway(s: State, w: Sweep, rels: map<string, Release>, order: seq<string>, now: Time): State {
    SweptState(s, w, KeysOf(order), now).(releases := rels)
  }

  lemma KeysSnoc(order: seq<string>, k: string)
    ensures KeysOf(order + [k]) == KeysOf(order) + {k}
    ensures Distinct(order) && k !in KeysOf(order) ==> Distinct(order + [k])
  {
    var all := order + [k];
    forall x ensures x in all <==> x in order || x == k {
      if x == k { assert all[|order|] == k; }
    }
  }

  lemma NoKeys()
    ensures KeysOf([]) == {} && Distinct([])
  {}

  lemma HalfwayKeys(s: State, w: Sweep, rels: map<string, Release>, order: seq<string>, now: Time)
    ensures Halfway(s, w, rels, order, now).tasks.Keys == s.tasks.Keys &&
      Halfway(s, w, rels, order, now).releases == rels
  {}

  /** One more visit: a skipped task leaves everything as it is, a written one is emitted. */
  lemma Visit(s: State, w: Sweep, rels: map<string, Release>, order: seq<string>, k: string, now: Time)
    requires k in s.tasks && k !in KeysOf(order) && forall x :: x in order ==> x in s.tasks
    ensures forall x :: x in order + [k] ==> x in s.tasks
    ensures KeysOf(order + [k]) == KeysOf(order) + {k} && (Distinct(order) ==> Distinct(order + [k]))
    ensures var mid, end := Halfway(s, w, rels, order, now), Halfway(s, w, rels, order + [k], now);
      var before, after := SweepLoop(s, w, order, now), SweepLoop(s, w, order + [k], now);
      && mid.tasks[k] == s.tasks[k]
      && match Swept(s, w, s.tasks[k], now)
         case Skip => end == mid && after == before
         case Write(u) => after == before + [Updated(u)] && (u.id == k ==> end == Apply(mid, Updated(u)))
  {
    KeysSnoc(order, k);
    SweptStep(s, w, KeysOf(order), k, now);
    var all := order + [k];
    assert all[..|all| - 1] == order && all[|all| - 1] == k;
    hide SweptState, KeysOf, Distinct;
    if Swept(s, w, s.tasks[k], now).Skip? {
      var m := SweptState(s, w, KeysOf(order), now);
      assert m.tasks[k := s.tasks[k]] == m.tasks;
    }
  }

  lemma SweepStarts(s: State, w: Sweep, rels: map<string, Release>, now: Time)
    ensures Halfway(s, w, rels, [], now) == s.(releases := rels) && SweepLoop(s, w, [], now) == []
  {
    assert SweptState(s, w, KeysOf([]), now) == s;
  }

  /** Once every key is visited, the records emitted account for the whole change. */
  lemma SweepEnds(s: State, w: Sweep, rels: map<string, Release>, order: seq<string>, now: Time)
    requires Coherent(s, now) && SweepAllowed(s, w) && Distinct(order) && forall k :: k in order ==> k in s.tasks
    ensures ApplyAll(s, SweepLoop(s, w, order, now)).(releases := rels) == Halfway(s, w, rels, order, now)
    ensures ApplyAll(s, SweepLoop(s, w, order, now)).releases == s.releases
    ensures LawfulRun(s, SweepLoop(s, w, order, now), now)
  {
    VisitsLawful(s, w, now);
    SweepLoopLawful(s, w, order, now);
  }

  // ---- QueueRollback

  /** The task records among some changes, in order. */
  function TaskRecords(cs: seq<Change>): seq<Task> {
    if cs == [] then []
    else
      var n := |cs| - 1;
      TaskRecords(cs[..n]) + if cs[n].data.TaskData? then [cs[n].data.task] else []
  }

  lemma TaskRecordsNone()
    ensures TaskRecords([]) == []
  {}

  lemma TaskRecordsSnoc(cs: seq<Change>, u: Task)
    ensures TaskRecords(cs + [Updated(u)]) == TaskRecords(cs) + [u]
  {
    assert (cs + [Updated(u)])[..|cs + [Updated(u)]| - 1] == cs;
  }

  const BY_DEVICE: (Task, Task) -> bool := (a: Task, b: Task) => Less(a.deviceId, b.deviceId)

  lemma ByDeviceOrders()
    ensures Orders(BY_DEVICE)
  {
    forall a ensures !BY_DEVICE(a, a) { LessIrreflexive(a.deviceId); }
    forall a, b, c | BY_DEVICE(a, b) && BY_DEVICE(b, c) ensures BY_DEVICE(a, c) {
      LessTransitive(a.deviceId, b.deviceId, c.deviceId);
    }
    forall a, b, c | !BY_DEVICE(a, b) && !BY_DEVICE(b, c) ensures !BY_DEVICE(a, c) {
      LessNegTransitive(a.deviceId, b.deviceId, c.deviceId);
    }
  }

  lemma DeviceOrder(xs: seq<Task>)
    requires Sorted(xs, BY_DEVICE)
    ensures forall i, j :: 0 <= i < j < |xs| ==> !Less(xs[j].deviceId, xs[i].deviceId)
  {
    forall i, j | 0 <= i < j < |xs| ensures !Less(xs[j].deviceId, xs[i].deviceId) { assert !BY_DEVICE(xs[j], xs[i]); }
  }

  lemma NameOrder(xs: seq<string>)
    requires Sorted(xs, BY_NAME)
    ensures forall i, j :: 0 <= i < j < |xs| ==> !Less(xs[j], xs[i])
  {
    forall i, j | 0 <= i < j < |xs| ensures !Less(xs[j], xs[i]) { assert !BY_NAME(xs[j], xs[i]); }
  }

  lemma LessNegTransitive(a: string, b: string, c: string)
    requires !Less(a, b) && !Less(b, c)
    ensures !Less(a, c)
  {
    LessTotal(a, b);
    LessTotal(b, c);
    if Less(a, c) {
      if a == b || b == c {
      } else {
        LessTransitive(c, b, a);
        LessTransitive(a, c, a);
        LessIrreflexive(a);
      }
    }
  }

  /** The rollback sweep does not look at the releases. */
  lemma {:induction false} RevertingIgnoresReleases(s: State, rid: string, reason: string, rels: map<string, Release>,
                                                   order: seq<string>, now: Time)
    requires forall k :: k in order ==> k in s.tasks
    ensures SweepLoop(s.(releases := rels), Reverting(rid, reason), order, now)
      == SweepLoop(s, Reverting(rid, reason), order, now)
    ensures Halfway(s.(releases := rels), Reverting(rid, reason), rels, order, now)
         == Halfway(s, Reverting(rid, reason), rels, order, now)
  {
    if order != [] { RevertingIgnoresReleases(s, rid, reason, rels, order[..|order| - 1], now); }
  }

  /** The release, pending in place since before the loop, is emitted last. */
  lemma RollbackEnds(s: State, rid: string, reason: string, rels: map<string, Release>, order: seq<string>, now: Time)
    requires Coherent(s, now) && Distinct(order) && forall k :: k in order ==> k in s.tasks
    requires QueueRollback(s, rid, reason, order, now).verdict == Ok
    requires rels == s.releases[rid := s.releases[rid].(status := StatusRollbackPending)]
    ensures var q := s.releases[rid].(status := StatusRollbackPending, updatedAt := now);
      && QueueRollback(s, rid, reason, order, now).changes
         == SweepLoop(s, Reverting(rid, reason), order, now) + [Rewritten(q)]
      && Apply(Halfway(s, Reverting(rid, reason), rels, order, now), Rewritten(q))
         == ApplyAll(s, QueueRollback(s, rid, reason, order, now).changes)
  {
    var w := Reverting(rid, reason);
    var sweep := SweepLoop(s, w, order, now);
    var q := s.releases[rid].(status := StatusRollbackPending, updatedAt := now);
    RollbackRecords(s, rid, reason, order, now);
    hide *;
    SweepEnds(s, w, rels, order, now);
    ApplyAllSplit(s, sweep, [Rewritten(q)]);
    ApplyOne(ApplyAll(s, sweep), Rewritten(q));
    Overwritten(s, ApplyAll(s, sweep), rels, s.releases[rid].(status := StatusRollbackPending), q);
  }

  lemma RollbackRecords(s: State, rid: string, reason: string, order: seq<string>, now: Time)
    requires Coherent(s, now) && forall k :: k in order ==> k in s.tasks
    requires QueueRollback(s, rid, reason, order, now).verdict == Ok
    ensures rid in s.releases && s.releases[rid].id == rid && SweepAllowed(s, Reverting(rid, reason))
    ensures QueueRollback(s, rid, reason, order, now).changes == SweepLoop(s, Reverting(rid, reason), order, now)
      + [Rewritten(s.releases[rid].(status := StatusRollbackPending, updatedAt := now))]
  {
    hide SweepLoop;
  }

  lemma Overwritten(s: State, end: State, rels: map<string, Release>, p: Release, q: Release)
    requires end.releases == s.releases && rels == s.releases[q.id := p]
    ensures Apply(end.(releases := rels), Rewritten(q)) == Apply(end, Rewritten(q))
  {
    assert rels[q.id := q] == s.releases[q.id := q];
  }

  // ---- the reaper

  /** The visited tasks the reaper changed, to Failed or back to a queue. */
  function Outcomes(s: State, keys: set<string>, failed: bool, now: Time): set<string> {
    set k | k in keys && k in s.tasks && Swept(s, Reaping, s.tasks[k], now).Write?
            && (Swept(s, Reaping, s.tasks[k], now).task.status == TaskFailed) == failed
  }

  function Touched(s: State, keys: set<string>, now: Time): set<string> {
    set k | k in keys && k in s.tasks && Swept(s, Reaping, s.tasks[k], now).Write? :: s.tasks[k].releaseId
  }

  lemma NoOutcomes(s: State, now: Time)
    ensures |Outcomes(s, {}, true, now)| == 0 && |Outcomes(s, {}, false, now)| == 0 && Touched(s, {}, now) == {}
  {
    assert Outcomes(s, {}, true, now) == {} && Outcomes(s, {}, false, now) == {};
  }

  lemma OneOutcome(s: State, keys: set<string>, k: string, failed: bool, now: Time)
    requires k in s.tasks && k !in keys
    ensures var e := Swept(s, Reaping, s.tasks[k], now);
      |Outcomes(s, keys + {k}, failed, now)| == |Outcomes(s, keys, failed, now)|
        + (if e.Write? && (e.task.status == TaskFailed) == failed then 1 else 0)
  {
    hide Swept;
    var e, all := Swept(s, Reaping, s.tasks[k], now), Outcomes(s, keys, failed, now);
    assert Outcomes(s, keys + {k}, failed, now)
      == if e.Write? && (e.task.status == TaskFailed) == failed then all + {k} else all;
  }

  lemma OneTouched(s: State, keys: set<string>, k: string, now: Time)
    requires k in s.tasks && k !in keys
    ensures Touched(s, keys + {k}, now)
      == if Swept(s, Reaping, s.tasks[k], now).Write? then Touched(s, keys, now) + {s.tasks[k].releaseId}
        else Touched(s, keys, now)
  {
    hide Swept;
    forall x | x in Touched(s, keys + {k}, now) && x !in Touched(s, keys, now)
      ensures Swept(s, Reaping, s.tasks[k], now).Write? && x == s.tasks[k].releaseId
    {
      var y :| y in keys + {k} && y in s.tasks && Swept(s, Reaping, s.tasks[y], now).Write? &&
        s.tasks[y].releaseId == x;
      assert y in keys ==> x in Touched(s, keys, now);
    }
  }

  lemma AllOutcomes(s: State, now: Time)
    ensures |Outcomes(s, s.tasks.Keys, true, now)| + |Outcomes(s, s.tasks.Keys, false, now)| == |Reaped(s, now)|
    ensures Touched(s, s.tasks.Keys, now) == ReapedReleases(s, now)
  {
    hide Swept;
    var a, b := Outcomes(s, s.tasks.Keys, true, now), Outcomes(s, s.tasks.Keys, false, now);
    assert a + b == Reaped(s, now) && a !! b;
  }

  lemma ReapVisit(s: State, order: seq<string>, k: string, now: Time)
    requires k in s.tasks && k !in KeysOf(order) && forall x :: x in order ==> x in s.tasks
    ensures forall x :: x in order + [k] ==> x in s.tasks
    ensures KeysOf(order + [k]) == KeysOf(order) + {k} && (Distinct(order) ==> Distinct(order + [k]))
    ensures var mid, end := Halfway(s, Reaping, s.releases, order, now),
      Halfway(s, Reaping, s.releases, order + [k], now);
      var before, after, e := SweepLoop(s, Reaping, order, now), SweepLoop(s, Reaping, order + [k], now),
        Swept(s, Reaping, s.tasks[k], now);
      && mid.tasks[k] == s.tasks[k] && Swept(mid, Reaping, s.tasks[k], now) == e
      && match e
         case Skip => end == mid && after == before
         case Write(u) => after == before + [Updated(u)] && (s.tasks[k].id == k ==> end == Apply(mid, Updated(u)))
  {
    Visit(s, Reaping, s.releases, order, k, now);
    hide KeysOf, Distinct, SweepLoop, SweptState;
  }

  /** The bookkeeping of the reaper's loop after visiting the keys of order. */
  ghost predicate Tallied(s: State, order: seq<string>, requeued: int, failed: int, changed: set<string>, now: Time) {
    && failed == |Outcomes(s, KeysOf(order), true, now)| && requeued == |Outcomes(s, KeysOf(order), false, now)|
    && changed == Touched(s, KeysOf(order), now)
  }

  lemma TallyStarts(s: State, now: Time)
    ensures Tallied(s, [], 0, 0, {}, now)
  {
    NoOutcomes(s, now);
    NoKeys();
  }

  lemma TallyOne(s: State, order: seq<string>, requeued: int, failed: int, changed: set<string>, k: string, now: Time)
    requires Tallied(s, order, requeued, failed, changed, now) && k in s.tasks && k !in KeysOf(order)
    ensures match Swept(s, Reaping, s.tasks[k], now)
      case Skip => Tallied(s, order + [k], requeued, failed, changed, now)
      case Write(u) =>
        Tallied(s, order + [k], if u.status == TaskFailed then requeued else requeued + 1,
                if u.status == TaskFailed then failed + 1 else failed, changed + {s.tasks[k].releaseId}, now)
  {
    hide Swept, Outcomes, Touched, KeysOf, Distinct;
    OneOutcome(s, KeysOf(order), k, true, now);
    OneOutcome(s, KeysOf(order), k, false, now);
    OneTouched(s, KeysOf(order), k, now);
    KeysSnoc(order, k);
  }

  lemma TouchedExist(s: State, now: Time)
    requires Coherent(s, now)
    ensures Touched(s, s.tasks.Keys, now) <= s.releases.Keys
  {}

  lemma VisitsKeys(order: seq<string>, keys: set<string>)
    requires Visits(order, keys)
    ensures Distinct(order) && forall k :: k in order ==> k in keys
  {
    assert forall k :: k in order ==> k in KeysOf(order);
  }

  /** One more release reconciled after a reap. */
  lemma ReconcileNext(mid: State, rids: seq<string>, rid: string, now: Time)
    requires rid !in KeysOf(rids) && rid in mid.releases && mid.releases[rid].id == rid
    ensures var cur := ReconciledState(mid, KeysOf(rids), now);
      && Reconcile(cur, rid, now) == [Rewritten(Reconciled(mid, rid, now))]
      && ApplyAll(cur, Reconcile(cur, rid, now)) == ReconciledState(mid, KeysOf(rids + [rid]), now)
      && ReconcileLoop(mid, rids + [rid], now) == ReconcileLoop(mid, rids, now) + Reconcile(cur, rid, now)
  {
    var cur, all := ReconciledState(mid, KeysOf(rids), now), rids + [rid];
    KeysSnoc(rids, rid);
    assert all[..|all| - 1] == rids;
    assert WithStatus(cur, rid, TaskCompleted) == WithStatus(mid, rid, TaskCompleted);
    assert WithStatus(cur, rid, TaskFailed) == WithStatus(mid, rid, TaskFailed);
    ReconcileStep(mid, KeysOf(rids), rid, now);
    ApplyOne(cur, Rewritten(Reconciled(mid, rid, now)));
  }

  const BY_NAME: (string, string) -> bool := (a: string, b: string) => Less(a, b)

  lemma ByNameOrders()
    ensures Orders(BY_NAME)
  {
    forall a ensures !BY_NAME(a, a) { LessIrreflexive(a); }
    forall a, b, c | BY_NAME(a, b) && BY_NAME(b, c) ensures BY_NAME(a, c) { LessTransitive(a, b, c); }
    forall a, b, c | !BY_NAME(a, b) && !BY_NAME(b, c) ensures !BY_NAME(a, c) { LessNegTransitive(a, b, c); }
  }

  lemma ReconcileStarts(mid: State, now: Time)
    ensures ReconciledState(mid, KeysOf([]), now) == mid && ReconcileLoop(mid, [], now) == []
  {}

  lemma ReapEnds(s: State, order: seq<string>, rids: seq<string>, now: Time)
    requires Coherent(s, now) && now > 0 && Distinct(order) && forall k :: k in order ==> k in s.tasks
    requires forall k :: k in rids ==> k in s.releases
    ensures var mid := Halfway(s, Reaping, s.releases, order, now);
      && ReapExpired(s, order, rids, now).changes == SweepLoop(s, Reaping, order, now) + ReconcileLoop(mid, rids, now)
      && ApplyAll(s, ReapExpired(s, order, rids, now).changes) == ReconciledState(mid, KeysOf(rids), now)
  {
    var sweep, mid := SweepLoop(s, Reaping, order, now), Halfway(s, Reaping, s.releases, order, now);
    VisitsLawful(s, Reaping, now);
    SweepLoopLawful(s, Reaping, order, now);
    LawfulRunKeepsCoherent(s, sweep, now);
    ReconcileLoopLawful(mid, rids, now);
    ApplyAllSplit(s, sweep, ReconcileLoop(mid, rids, now));
  }

  // ---- collecting tasks by a loop over the map

  /** The list holds the records of exactly these keys, each once. */
  predicate Lists(s: State, out: seq<Task>, keys: set<string>) {
    && |out| == |keys|
    && (forall u :: u in out ==> u.id in keys && u.id in s.tasks && u == s.tasks[u.id])
    && (forall k :: k in keys ==> k in s.tasks && s.tasks[k].id == k && s.tasks[k] in out)
  }

  lemma ListStarts(s: State, all: set<string>)
    requires all <= s.tasks.Keys
    ensures Lists(s, [], all - s.tasks.Keys)
  {
    assert all - s.tasks.Keys == {};
  }

  lemma ListOne(s: State, out: seq<Task>, all: set<string>, left: set<string>, k: string)
    requires Lists(s, out, all - left) && k in left && k in s.tasks && s.tasks[k].id == k
    ensures if k in all then Lists(s, out + [s.tasks[k]], all - (left - {k})) else Lists(s, out, all - (left - {k}))
  {
    if k in all {
      assert all - (left - {k}) == (all - left) + {k};
    } else {
      assert all - (left - {k}) == all - left;
    }
  }

  lemma ListEnds(s: State, out: seq<Task>, all: set<string>)
    requires Lists(s, out, all - {})
    ensures Lists(s, out, all)
  {
    assert all - {} == all;
  }

  lemma ListSize(s: State, out: seq<Task>, keys: set<string>)
    requires Lists(s, out, keys)
    ensures out == [] <==> keys == {}
    ensures out != [] ==> out[0].id in keys && out[0].id in s.tasks && out[0] == s.tasks[out[0].id]
  {}

  lemma ListPermuted(s: State, out: seq<Task>, sorted: seq<Task>, keys: set<string>)
    requires Lists(s, out, keys) && multiset(sorted) == multiset(out)
    ensures Lists(s, sorted, keys)
  {
    assert |multiset(sorted)| == |sorted| && |multiset(out)| == |out|;
    forall u ensures u in sorted <==> u in out { assert u in multiset(sorted) <==> u in multiset(out); }
  }

  const BY_UPDATE: (Task, Task) -> bool := (a: Task, b: Task) => a.updatedAt < b.updatedAt

  lemma ByUpdateOrders()
    ensures Orders(BY_UPDATE)
  {}

  lemma FirstIsOldest(s: State, sorted: seq<Task>, keys: set<string>)
    requires Lists(s, sorted, keys) && Sorted(sorted, BY_UPDATE) && sorted != []
    ensures Oldest(s, keys, sorted[0].id)
  {
    forall k | k in keys && k in s.tasks ensures sorted[0].updatedAt <= s.tasks[k].updatedAt {
      var j :| 0 <= j < |sorted| && sorted[j] == s.tasks[k];
      assert j > 0 ==> !BY_UPDATE(sorted[j], sorted[0]);
    }
  }

  function Created(s: State): map<string, Time> { map k | k in s.releases :: s.releases[k].createdAt }

  function CreationOf(created: map<string, Time>, rid: string): Time {
    if rid in created then created[rid] else ZERO_TIME
  }

  function ByCreation(created: map<string, Time>): (Task, Task) -> bool {
    (a: Task, b: Task) =>
      if CreationOf(created, a.releaseId) == CreationOf(created, b.releaseId) then Less(a.id, b.id)
      else CreationOf(created, a.releaseId) < CreationOf(created, b.releaseId)
  }

  lemma ByCreationOrders(created: map<string, Time>)
    ensures Orders(ByCreation(created))
  {
    var less := ByCreation(created);
    forall a ensures !less(a, a) { LessIrreflexive(a.id); }
    forall a, b, c | less(a, b) && less(b, c) ensures less(a, c) {
      if Less(a.id, b.id) && Less(b.id, c.id) { LessTransitive(a.id, b.id, c.id); }
    }
    forall a, b, c | !less(a, b) && !less(b, c) ensures !less(a, c) {
      if !Less(a.id, b.id) && !Less(b.id, c.id) { LessNegTransitive(a.id, b.id, c.id); }
    }
  }

  /** The first of the sorted list is the head that the claim is specified to take. */
  lemma FirstIsHead(s: State, sorted: seq<Task>, keys: set<string>)
    requires Lists(s, sorted, keys) && Sorted(sorted, ByCreation(Created(s))) && sorted != []
    ensures IsHead(s, keys, sorted[0].id)
  {
    var h := sorted[0];
    forall k | k in keys && k != h.id ensures Precedes(s, h.id, k) {
      var j :| 0 <= j < |sorted| && sorted[j] == s.tasks[k];
      assert j > 0 && !ByCreation(Created(s))(sorted[j], h);
      PrecedesIsStrictTotal(s, h.id, k, k);
    }
  }

  /** In the sorted list each task strictly precedes the later ones. */
  lemma SortedIsStrict(s: State, sorted: seq<Task>, i: nat, j: nat)
    requires Sorted(sorted, ByCreation(Created(s))) && i < j < |sorted| && sorted[i].id != sorted[j].id
    requires forall u :: u in sorted ==> u.id in s.tasks && u == s.tasks[u.id]
    ensures Precedes(s, sorted[i].id, sorted[j].id)
  {
    assert sorted[i] in sorted && sorted[j] in sorted;
    assert !ByCreation(Created(s))(sorted[j], sorted[i]);
    PrecedesIsStrictTotal(s, sorted[i].id, sorted[j].id, sorted[j].id);
  }

  lemma ApplyThen(s: State, c: Change, cs: seq<Change>)
    ensures ApplyAll(s, [c] + cs) == ApplyAll(Apply(s, c), cs)
  {
    ApplyOne(s, c);
    ApplyAllSplit(s, [c], cs);
  }

  lemma OpeningKept(s: State, s1: State, rid: string, now: Time)
    requires s1.releases == s.releases && rid in s.releases
    ensures Opening(s1, rid, now) == Opening(s, rid, now)
  {}

  lemma ReleasesKept(s: State, c: Change, rid: string)
    requires c.kind == TaskUpdated && c.data.TaskData?
    ensures Apply(s, c).releases == s.releases
  {}

  lemma EligibleOpen(s: State, device: string, k: string, now: Time)
    requires k in Eligible(s, device, now)
    ensures k in s.tasks && s.tasks[k].releaseId in s.releases && DecisionFor(s, s.tasks[k].releaseId).allowed
    ensures !Terminal(s.releases[s.tasks[k].releaseId])
  {}

  lemma ActiveEnds(s: State, rid: string)
    ensures |ActiveTasks(s, rid) - s.tasks.Keys| == 0 && ActiveTasks(s, rid) - {} == ActiveTasks(s, rid)
  {
    assert ActiveTasks(s, rid) - s.tasks.Keys == {};
  }

  lemma OneActive(s: State, rid: string, left: set<string>, k: string)
    requires k in left && k in s.tasks
    ensures var t := s.tasks[k];
      |ActiveTasks(s, rid) - (left - {k})| == |ActiveTasks(s, rid) - left|
        + if t.releaseId == rid && (t.status == TaskInstalling || t.status == TaskAwaiting) then 1 else 0
  {
    var all := ActiveTasks(s, rid);
    if k in all {
      assert all - (left - {k}) == (all - left) + {k};
    } else {
      assert all - (left - {k}) == all - left;
    }
  }

  // ---- CreateRelease

  lemma NewTasksSnoc(rid: string, devices: seq<string>, n: nat, tids: seq<string>, tid: string, now: Time)
    requires |tids| == n < |devices|
    ensures NewTasks(rid, devices[..n + 1], tids + [tid], now)
         == NewTasks(rid, devices[..n], tids, now) + [Change(TaskCreated, TaskData(NewTask(tid, rid, devices[n], now)))]
  {}

  lemma CreateStarts(s: State, rid: string, devices: seq<string>, now: Time)
    ensures NewTasks(rid, devices[..0], [], now) == [] && ApplyAll(s, []) == s
  {}

  lemma DistinctSnoc(xs: seq<string>, x: string)
    requires Distinct(xs) && x !in xs
    ensures Distinct(xs + [x])
  {}

  lemma ApplySnoc(s: State, cs: seq<Change>, c: Change)
    ensures ApplyAll(s, cs + [c]) == Apply(ApplyAll(s, cs), c)
  {
    assert (cs + [c])[..|cs + [c]| - 1] == cs;
  }
}
