/** The log side of the service: what emitting adds to the log, and the invariant that survives every entry. */
module Entries {
  import opened Domain
  import opened Projection
  import opened Lifecycle
  import opened Recovery
  import opened Store
  import C = Commands

  /** The id of the record an event carries. */
  function RecordId(data: Payload): string {
    match data
    case TaskData(t) => t.id
    case ReleaseData(r) => r.id
    case DeviceData(d) => d.id
    case Opaque(_) => ""
  }

  /** The log grew by exactly these changes, all at this instant, and each under the id of its record. */
  ghost predicate Emitted(before: seq<Event>, after: seq<Event>, cs: seq<Change>, now: Time) {
    && before <= after && ChangesOf(after[|before|..]) == cs
    && forall e :: e in after[|before|..] ==> e.at == now && e.aggregate == RecordId(e.data)
  }

  /** Ids are new, times never go back. */
  predicate Stamped(log: seq<Event>, now: Time) {
    && LastTime(log) <= now
    && (log == [] || (Stamped(log[..|log| - 1], now) && NextStamp(log[..|log| - 1], log[|log| - 1])))
  }

  /** The clock may move freely, but not to before the last entry. */
  lemma {:induction false} StampedLater(log: seq<Event>, now: Time, later: Time)
    requires Stamped(log, now)
    ensures Stamped(log, later) <==> LastTime(log) <= later
  {
    if log != [] && LastTime(log) <= later {
      var n := |log| - 1;
      assert LastTime(log[..n]) <= log[n].at;
      StampedLater(log[..n], now, later);
    }
  }

  lemma {:induction false} StampedPrefix(log: seq<Event>, n: nat, now: Time)
    requires Stamped(log, now) && n <= |log|
    ensures Stamped(log[..n], now)
  {
    if n == |log| {
      assert log[..n] == log;
    } else {
      StampedPrefix(log[..|log| - 1], n, now);
      assert log[..|log| - 1][..n] == log[..n];
    }
  }

  lemma EmittedNothing(log: seq<Event>, now: Time)
    ensures Emitted(log, log, [], now)
  {}

  lemma EmittedThen(a: seq<Event>, b: seq<Event>, c: seq<Event>, cs: seq<Change>, ds: seq<Change>, now: Time)
    requires Emitted(a, b, cs, now) && Emitted(b, c, ds, now)
    ensures Emitted(a, c, cs + ds, now)
  {
    assert c[|a|..] == b[|a|..] + c[|b|..];
  }

  lemma OneMoreEntry(log: seq<Event>, e: Event)
    requires ValidLog(log) && NextStamp(log, e) && Lawful(Replay(log), ChangeOf(e), e.at)
    ensures ValidLog(log + [e]) && Replay(log + [e]) == Projection.Apply(Replay(log), ChangeOf(e))
  {
    assert (log + [e])[..|log + [e]| - 1] == log;
    ReplayStep(log, e);
  }

  /** Lawful changes, freshly stamped, extend a valid log to a valid log. */
  lemma {:induction false} LogGrows(before: seq<Event>, after: seq<Event>, cs: seq<Change>, now: Time)
    requires ValidLog(before) && Stamped(after, now) && Emitted(before, after, cs, now)
    requires LawfulRun(Replay(before), cs, now)
    ensures ValidLog(after) && Replay(after) == ApplyAll(Replay(before), cs)
  {
    hide Emitted, ValidLog, Replay, Lawful;
    if cs == [] {
      NoneEmitted(before, after, now);
    } else {
      LastEmitted(before, after, cs, now);
      var mid, e := after[..|after| - 1], after[|after| - 1];
      LogGrows(before, mid, cs[..|cs| - 1], now);
      assert mid + [e] == after;
      OneMoreEntry(mid, e);
    }
  }

  lemma NoneEmitted(before: seq<Event>, after: seq<Event>, now: Time)
    requires Emitted(before, after, [], now)
    ensures after == before
  {
    assert |after[|before|..]| == 0;
  }

  lemma LastEmitted(before: seq<Event>, after: seq<Event>, cs: seq<Change>, now: Time)
    requires Emitted(before, after, cs, now) && Stamped(after, now) && cs != []
    ensures |after| > |before| && Emitted(before, after[..|after| - 1], cs[..|cs| - 1], now)
    ensures ChangeOf(after[|after| - 1]) == cs[|cs| - 1] && after[|after| - 1].at == now
    ensures Stamped(after[..|after| - 1], now) && NextStamp(after[..|after| - 1], after[|after| - 1])
  {
    hide NextStamp;
    var n := |after| - 1;
    assert after[..n][|before|..] == after[|before|..][..|cs| - 1];
    assert after[|before|..][|cs| - 1] == after[n];
  }

  lemma SaneLog(log: seq<Event>, now: Time)
    requires ValidLog(log) && Stamped(log, now)
    ensures Coherent(Replay(log), now)
  {
    ValidLogCoherent(log, now);
  }

  /** The ends of a loop that counts by status. */
  lemma CountEnds(s: State, rid: string, status: TaskStatus)
    ensures |C.WithStatus(s, rid, status) - s.tasks.Keys| == 0 &&
      C.WithStatus(s, rid, status) - {} == C.WithStatus(s, rid, status)
  {
    assert C.WithStatus(s, rid, status) - s.tasks.Keys == {};
  }

  lemma OneCounted(s: State, rid: string, status: TaskStatus, left: set<string>, k: string)
    requires k in left && k in s.tasks
    ensures |C.WithStatus(s, rid, status) - (left - {k})| == |C.WithStatus(s, rid, status) - left|
      + if s.tasks[k].releaseId == rid && s.tasks[k].status == status then 1 else 0
  {
    var all := C.WithStatus(s, rid, status);
    if k in all {
      assert all - (left - {k}) == (all - left) + {k};
    } else {
      assert all - (left - {k}) == all - left;
    }
  }

  lemma TotalEnds(s: State, rid: string)
    ensures |C.TasksOf(s, rid) - s.tasks.Keys| == 0 && C.TasksOf(s, rid) - {} == C.TasksOf(s, rid)
  {
    assert C.TasksOf(s, rid) - s.tasks.Keys == {};
  }

  lemma OneTotal(s: State, rid: string, left: set<string>, k: string)
    requires k in left && k in s.tasks
    ensures |C.TasksOf(s, rid) - (left - {k})|
      == |C.TasksOf(s, rid) - left| + if s.tasks[k].releaseId == rid then 1 else 0
  {
    var all := C.TasksOf(s, rid);
    if k in all {
      assert all - (left - {k}) == (all - left) + {k};
    } else {
      assert all - (left - {k}) == all - left;
    }
  }

  /** The counters of ReleaseProgress, with the tasks of left still to be visited. */
  ghost predicate Counted(s: State, rid: string, left: set<string>, completed: int, total: int, failed: int) {
    && total == |C.TasksOf(s, rid) - left| && completed == |C.WithStatus(s, rid, TaskCompleted) - left|
    && failed == |C.WithStatus(s, rid, TaskFailed) - left|
  }

  lemma CountedEnds(s: State, rid: string, completed: int, total: int, failed: int)
    ensures Counted(s, rid, s.tasks.Keys, 0, 0, 0)
    ensures Counted(s, rid, {}, completed, total, failed) ==>
      total == |C.TasksOf(s, rid)| && completed == |C.WithStatus(s, rid, TaskCompleted)| &&
        failed == |C.WithStatus(s, rid, TaskFailed)|
  {
    CountEnds(s, rid, TaskCompleted);
    CountEnds(s, rid, TaskFailed);
    TotalEnds(s, rid);
  }

  lemma CountedOne(s: State, rid: string, left: set<string>, completed: int, total: int, failed: int, k: string)
    requires Counted(s, rid, left, completed, total, failed) && k in left && k in s.tasks
    ensures var t := s.tasks[k];
      Counted(s, rid, left - {k},
              if t.releaseId == rid && t.status == TaskCompleted then completed + 1 else completed,
              if t.releaseId == rid then total + 1 else total,
              if t.releaseId == rid && t.status == TaskFailed then failed + 1 else failed)
  {
    hide C.TasksOf, C.WithStatus;
    OneCounted(s, rid, TaskCompleted, left, k);
    OneCounted(s, rid, TaskFailed, left, k);
    OneTotal(s, rid, left, k);
  }

  lemma SettleSteps(s: State, s1: State, log: seq<Event>, mid: seq<Event>, end: seq<Event>, u: Task, now: Time)
    requires s1 == Projection.Apply(s, Updated(u)) && Emitted(log, mid, [Updated(u)], now)
    requires Emitted(mid, end, C.Reconcile(s1, u.releaseId, now), now)
    ensures ApplyAll(s1, C.Reconcile(s1, u.releaseId, now)) == ApplyAll(s, C.Settle(s, u, now))
    ensures Emitted(log, end, C.Settle(s, u, now), now)
  {
    var rest := C.Reconcile(s1, u.releaseId, now);
    ApplyOne(s, Updated(u));
    ApplyAllSplit(s, [Updated(u)], rest);
    EmittedThen(log, mid, end, [Updated(u)], rest, now);
  }

  /** The value side of Logged. */
  ghost predicate LogSound(log: seq<Event>, shown: State, issued: set<string>, now: Time) {
    && now > ZERO_TIME && Stamped(log, now) && (forall e :: e in log ==> e.id in issued)
    && shown.releases.Keys <= issued && shown.tasks.Keys <= issued && Covered(shown, Replay(log))
  }

  /** A change that brings no key of its own to the maps, unless its id was issued. */
  predicate KeysIssued(c: Change, shown: State, issued: set<string>) {
    match c
    case Change(TaskCreated, TaskData(t)) => t.id in issued
    case Change(TaskUpdated, TaskData(t)) => t.id in shown.tasks
    case Change(ReleaseCreated, ReleaseData(r)) => r.id in issued
    case Change(ReleaseUpdated, ReleaseData(r)) => r.id in shown.releases
    case _ => true
  }

  /** A record of the maps may be changed in place before it is emitted. */
  lemma TaskInPlace(log: seq<Event>, s: State, u: Task, issued: set<string>, now: Time)
    requires LogSound(log, s, issued, now) && u.id in s.tasks
    ensures var s' := s.(tasks := s.tasks[u.id := u]);
      && LogSound(log, s', issued, now) && KeysIssued(Updated(u), s', issued)
      && Projection.Apply(s', Updated(u)) == Projection.Apply(s, Updated(u))
  {}

  lemma ReleaseInPlace(log: seq<Event>, s: State, q: Release, issued: set<string>, now: Time)
    requires LogSound(log, s, issued, now) && q.id in s.releases
    ensures var s' := s.(releases := s.releases[q.id := q]);
      && LogSound(log, s', issued, now) && KeysIssued(Rewritten(q), s', issued)
      && Projection.Apply(s', Rewritten(q)) == Projection.Apply(s, Rewritten(q))
  {}

  lemma DeviceInPlace(log: seq<Event>, s: State, d: Device, issued: set<string>, now: Time)
    requires LogSound(log, s, issued, now) && d.id in s.devices
    ensures var s', c := s.(devices := s.devices[d.id := d]), Change(DeviceRegistered, DeviceData(d));
      LogSound(log, s', issued, now) && KeysIssued(c, s', issued) && Projection.Apply(s', c) == Projection.Apply(s, c)
  {}

  lemma EntryAdded(log: seq<Event>, e: Event, was: State, issued: set<string>, now: Time)
    requires LogSound(log, was, issued, now) && e.id != "" && e.at == now && e.id !in issued
    requires KeysIssued(ChangeOf(e), was, issued)
    ensures LogSound(log + [e], Projection.Apply(was, ChangeOf(e)), issued + {e.id}, now)
    ensures Audited(log, e) == log + [e]
    ensures e.aggregate == RecordId(e.data) ==> Emitted(log, log + [e], [ChangeOf(e)], now)
  {
    EntryStamped(log, e, now);
    EntryCovered(log, e, was);
  }

  lemma EntryStamped(log: seq<Event>, e: Event, now: Time)
    requires Stamped(log, now) && e.id != "" && e.at == now > ZERO_TIME && forall x :: x in log ==> x.id != e.id
    ensures Stamped(log + [e], now) && Audited(log, e) == log + [e]
    ensures e.aggregate == RecordId(e.data) ==> Emitted(log, log + [e], [ChangeOf(e)], now)
  {
    assert (log + [e])[..|log + [e]| - 1] == log && (log + [e])[|log|..] == [e];
    assert NextStamp(log, e);
    hide Stamped;
  }

  lemma ApplyCovered(a: State, b: State, c: Change)
    requires Covered(a, b)
    ensures Covered(Projection.Apply(a, c), Projection.Apply(b, c))
  {}

  lemma EntryCovered(log: seq<Event>, e: Event, was: State)
    requires Covered(was, Replay(log))
    ensures Covered(Projection.Apply(was, ChangeOf(e)), Replay(log + [e]))
  {
    hide *;
    ReplayStep(log, e);
    ApplyCovered(was, Replay(log), ChangeOf(e));
  }

  // ---- across clock steps and restarts

  /** A prefix of the log is as sound as the log, with the maps it projects to. */
  lemma PrefixSound(log: seq<Event>, n: nat, issued: set<string>, now: Time)
    requires ValidLog(log) && LogSound(log, Replay(log), issued, now) && n <= |log|
    ensures ValidLog(log[..n]) && LogSound(log[..n], Replay(log[..n]), issued, now)
  {
    StampedPrefix(log, n, now);
    ValidLogPrefix(log, n);
    forall e | e in log[..n] ensures e.id in issued { assert e in log; }
    hide Stamped, ValidLog, Replay;
    CoveredLater(Replay(log[..n]), log[..n], log);
  }

  lemma LogSoundLater(log: seq<Event>, shown: State, issued: set<string>, now: Time, later: Time)
    requires LogSound(log, shown, issued, now)
    ensures LogSound(log, shown, issued, later) <==> later > ZERO_TIME && LastTime(log) <= later
  {
    StampedLater(log, now, later);
    hide Stamped, Replay, LastTime;
  }
}
