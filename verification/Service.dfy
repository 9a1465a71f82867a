/**
  The service: it changes live records in place, logs each change as a full record, swaps the live record for the
  decoded copy, and snapshots. Each command is tied to its outcome in Commands, and the log stays a valid log.
 */
module Service {
  import opened Domain
  import opened Projection
  import opened Journal
  import opened Store
  import opened Entries
  import opened Lifecycle
  import opened Loops
  import opened Recovery
  import opened Records
  import opened Ids
  import opened Sorting
  import opened Text
  import C = Commands
  import D = Dispatch
  import Laws = CommandLaws
  import R = Runs

  class Service {
    const st: DurableStore
    const clock: Clock
    const ids: SequenceID
    var releases: map<string, LiveRelease>
    var devices: map<string, LiveDevice>
    var tasks: map<string, LiveTask>
    var audit: seq<Event>
    ghost var shown: State  // the values of the live records
    ghost var repr: set<object>

    /** The live maps hold the shown values. */
    ghost predicate Shows()
      reads this, repr
    {
      && this in repr && st in repr && ids in repr && clock !in repr
      && releases.Keys == shown.releases.Keys && devices.Keys == shown.devices.Keys && tasks.Keys == shown.tasks.Keys
      && (forall k :: k in releases ==> releases[k] in repr && releases[k].Val() == shown.releases[k])
      && (forall k :: k in devices ==> devices[k] in repr && devices[k].Val() == shown.devices[k])
      && (forall k :: k in tasks ==> tasks[k] in repr && tasks[k].Val() == shown.tasks[k])
    }

    /** Each live map holds the shown values under their ids, so no two keys share a record. */
    ghost predicate TiedReleases()
      reads this, repr
    {
      && releases.Keys == shown.releases.Keys
      && (forall k :: k in releases ==>
        releases[k] in repr && releases[k].id == k && releases[k].Val() == shown.releases[k])
    }

    ghost predicate TiedDevices()
      reads this, repr
    {
      && devices.Keys == shown.devices.Keys
      && (forall k :: k in devices ==> devices[k] in repr && devices[k].id == k && devices[k].Val() == shown.devices[k])
    }

    ghost predicate TiedTasks()
      reads this, repr
    {
      && tasks.Keys == shown.tasks.Keys
      && (forall k :: k in tasks ==> tasks[k] in repr && tasks[k].id == k && tasks[k].Val() == shown.tasks[k])
    }

    ghost predicate Tied()
      reads this, repr
    {
      this in repr && st in repr && ids in repr && clock !in repr && TiedReleases() && TiedDevices() && TiedTasks()
    }

    lemma TiedIfKeyed()
      ensures Tied() <==> Shows() && Keyed(shown)
    {
      hide LiveTask.Val, LiveRelease.Val, LiveDevice.Val;
    }

    /** The state Snapshot encodes. */
    function View(): (s: State)
      requires Tied()
      reads this, repr
      ensures s == shown
    {
      var s := State(map k | k in releases :: releases[k].Val(), map k | k in devices :: devices[k].Val(),
                     map k | k in tasks :: tasks[k].Val());
      assert s.releases == shown.releases && s.devices == shown.devices && s.tasks == shown.tasks;
      s
    }

    /** Log, audit list, ids and durable states are sound at every moment, also in the middle of a command. */
    ghost predicate Logged()
      reads this, st, ids, clock
    {
      st.Valid() && ids.Valid() && audit == st.events && LogSound(st.events, shown, ids.issued, clock.now)
    }

    ghost predicate Linked()
      reads this, st, ids, clock, repr
    {
      Tied() && Logged()
    }

    /** Between commands the live maps are the projection of the log, and the log is valid. */
    ghost predicate Valid()
      reads this, st, ids, clock, repr
    {
      Linked() && shown == Replay(st.events) && ValidLog(st.events)
    }

    /** What a restart needs: log, ids and durable states are sound, whatever the live maps show. */
    ghost predicate Durable()
      reads st, ids, clock
    {
      && st.Valid() && ids.Valid() && ValidLog(st.events)
      && LogSound(st.events, Replay(st.events), ids.issued, clock.now)
    }

    /** The outcome of a command: the live maps and the log both took exactly these changes. */
    ghost predicate Performed(pre: State, log: seq<Event>, cs: seq<Change>)
      reads this, st, ids, clock, repr
    {
      Valid() && shown == ApplyAll(pre, cs) && Emitted(log, st.events, cs, clock.now)
    }

    /** The footprint only grows by new objects. */
    twostate predicate Grew()
      reads this
    {
      forall o :: o in repr ==> o in old(repr) || fresh(o)
    }

    /** Not one record, map, log or id was changed. */
    twostate predicate Untouched()
      reads this, repr
    {
      repr == old(repr) && forall o :: o in repr ==> unchanged(o)
    }

    constructor (st: DurableStore, clock: Clock, ids: SequenceID)
      ensures this.st == st && this.clock == clock && this.ids == ids
      ensures shown == EMPTY && Tied() && audit == [] && repr == {this, st, ids}
    {
      this.st, this.clock, this.ids := st, clock, ids;
      releases, devices, tasks, audit := map[], map[], map[], [];
      shown := EMPTY;
      repr := {this, st, ids};
    }

    method InstallRelease(k: string, r: Release)
      requires Shows()
      modifies this`releases, this`shown, this`repr
      ensures Shows() && shown == old(shown).(releases := old(shown).releases[k := r]) && Grew()
    {
      var l := new LiveRelease(r);
      repr := repr + {l};
      shown := shown.(releases := shown.releases[k := r]);
      releases := releases[k := l];
    }

    method InstallDevice(k: string, d: Device)
      requires Shows()
      modifies this`devices, this`shown, this`repr
      ensures Shows() && shown == old(shown).(devices := old(shown).devices[k := d]) && Grew()
    {
      var l := new LiveDevice(d);
      repr := repr + {l};
      shown := shown.(devices := shown.devices[k := d]);
      devices := devices[k := l];
    }

    method InstallTask(k: string, t: Task)
      requires Shows()
      modifies this`tasks, this`shown, this`repr
      ensures Shows() && shown == old(shown).(tasks := old(shown).tasks[k := t]) && Grew()
    {
      var l := new LiveTask(t);
      repr := repr + {l};
      shown := shown.(tasks := shown.tasks[k := t]);
      tasks := tasks[k := l];
    }

    /** Install the decoded copy of a record under its id. */
    method Install(c: Change)
      requires Shows()
      modifies this`releases, this`devices, this`tasks, this`shown, this`repr
      ensures Shows() && Grew() && shown == Projection.Apply(old(shown), c) && (old(Tied()) ==> Tied())
      ensures !c.kind.ReleaseCreated? && !c.kind.ReleaseUpdated? ==> releases == old(releases)
      ensures !c.kind.DeviceRegistered? ==> devices == old(devices)
      ensures !c.kind.TaskCreated? && !c.kind.TaskUpdated? ==> tasks == old(tasks)
    {
      hide Shows, Tied, Keyed;
      ghost var before := shown;
      TiedIfKeyed();
      match c {
        case Change(ReleaseCreated, ReleaseData(r)) => InstallRelease(r.id, r);
        case Change(ReleaseUpdated, ReleaseData(r)) => InstallRelease(r.id, r);
        case Change(DeviceRegistered, DeviceData(d)) => InstallDevice(d.id, d);
        case Change(TaskCreated, TaskData(t)) => InstallTask(t.id, t);
        case Change(TaskUpdated, TaskData(t)) => InstallTask(t.id, t);
        case _ =>
      }
      if Keyed(before) { KeyedKept(before, c); }
      TiedIfKeyed();
    }

    /** Add the event to the audit list and install the decoded copy of its record. */
    method Apply(e: Event)
      requires Shows()
      modifies this
      ensures Shows() && Grew() && (old(Tied()) ==> Tied())
      ensures shown == Projection.Apply(old(shown), ChangeOf(e)) && audit == Audited(old(audit), e)
      ensures audit ==
        if old(audit) == [] || old(audit)[|old(audit)| - 1].id != e.id then old(audit) + [e] else old(audit)
      ensures !e.kind.ReleaseCreated? && !e.kind.ReleaseUpdated? ==> releases == old(releases)
      ensures !e.kind.DeviceRegistered? ==> devices == old(devices)
      ensures !e.kind.TaskCreated? && !e.kind.TaskUpdated? ==> tasks == old(tasks)
    {
      hide LiveTask.Val, LiveRelease.Val, LiveDevice.Val, Projection.Apply;
      if audit == [] || audit[|audit| - 1].id != e.id {
        audit := audit + [e];
      }
      Install(ChangeOf(e));
    }

    // ---- emit

    /** The store and the id generator hold nothing that the maps show. */
    twostate lemma StillTied()
      requires old(Tied()) && forall o :: o in old(repr) && o != st && o != ids ==> unchanged(o)
      ensures Tied() && unchanged(this)
    {
      hide LiveTask.Val, LiveRelease.Val, LiveDevice.Val;
    }

    /** Stamp the event and append it to the log. */
    method Persist(kind: Kind, aggregate: string, data: Payload) returns (v: Verdict, e: Event)
      requires Linked() && !kind.OtherKind?
      modifies st, ids
      ensures v == Ok && Tied() && st.Valid() && ids.Valid() && st.events == old(st.events) + [e]
      ensures e == Event(e.id, kind, aggregate, data, clock.now) && e.id != "" && e.id !in old(ids.issued)
      ensures ids.issued == old(ids.issued) + {e.id}
    {
      hide Tied, Covered, Stamped, SequenceID.Valid;
      InRepr();
      var id := ids.New("evt");
      e := Event(id, kind, aggregate, data, clock.Now());
      v := st.Append(e);
      StillTied();
    }

    /** Write the snapshot. */
    method Save()
      requires Linked()
      modifies st
      ensures Linked() && st.events == old(st.events)
    {
      KeysAreIds();
      hide Tied, SequenceID.Valid, Covered, Stamped;
      InRepr();
      st.Snapshot(Checkpoint(View(), audit));
      StillTied();
    }

    /** Append, apply, snapshot; the live maps may already be ahead of the log. */
    method Emit(kind: Kind, aggregate: string, data: Payload) returns (v: Verdict)
      requires Linked() && !kind.OtherKind?
      requires KeysIssued(Change(kind, data), shown, ids.issued)
      modifies this, st, ids
      ensures Linked() && v == Ok && Grew()
      ensures shown == Projection.Apply(old(shown), Change(kind, data))
      ensures aggregate == RecordId(data) ==> Emitted(old(st.events), st.events, [Change(kind, data)], clock.now)
      ensures old(ids.issued) <= ids.issued
      ensures !kind.ReleaseCreated? && !kind.ReleaseUpdated? ==> releases == old(releases)
      ensures !kind.DeviceRegistered? ==> devices == old(devices)
      ensures !kind.TaskCreated? && !kind.TaskUpdated? ==> tasks == old(tasks)
    {
      var e;
      v, e := Persist(kind, aggregate, data);
      ghost var log, was, issued := old(st.events), shown, old(ids.issued);
      TiedIfKeyed();
      Apply(e);
      EntryAdded(log, e, was, issued, clock.now);
      Save();
    }

    // ---- changing a live record in place

    /** The live maps are tied, except that the record t may have been changed in place. */
    ghost predicate TiedBut(t: LiveTask)
      reads this, repr
    {
      && this in repr && st in repr && ids in repr && clock !in repr && TiedReleases() && TiedDevices()
      && t.id in tasks && tasks[t.id] == t && tasks.Keys == shown.tasks.Keys
      && (forall k :: k in tasks ==>
        tasks[k] in repr && tasks[k].id == k && (k != t.id ==> tasks[k].Val() == shown.tasks[k]))
    }

    ghost predicate TiedButRelease(r: LiveRelease)
      reads this, repr
    {
      && this in repr && st in repr && ids in repr && clock !in repr && TiedDevices() && TiedTasks()
      && r.id in releases && releases[r.id] == r && releases.Keys == shown.releases.Keys
      && (forall k :: k in releases ==>
            releases[k] in repr && releases[k].id == k && (k != r.id ==> releases[k].Val() == shown.releases[k]))
    }

    ghost predicate TiedButDevice(d: LiveDevice)
      reads this, repr
    {
      && this in repr && st in repr && ids in repr && clock !in repr && TiedReleases() && TiedTasks()
      && d.id in devices && devices[d.id] == d && devices.Keys == shown.devices.Keys
      && (forall k :: k in devices ==>
            devices[k] in repr && devices[k].id == k && (k != d.id ==> devices[k].Val() == shown.devices[k]))
    }

    /** After changing only the task record t in place. */
    twostate lemma Changed(t: LiveTask)
      requires old(Linked()) && old(t.id in tasks && tasks[t.id] == t)
      requires (forall o :: o in old(repr) && o != t ==> unchanged(o)) && unchanged(clock)
      ensures TiedBut(t) && Logged() && unchanged(this) && unchanged(st)
    {}

    twostate lemma ChangedRelease(r: LiveRelease)
      requires old(Linked()) && old(r.id in releases && releases[r.id] == r)
      requires (forall o :: o in old(repr) && o != r ==> unchanged(o)) && unchanged(clock)
      ensures TiedButRelease(r) && Logged() && unchanged(this) && unchanged(st)
    {}

    twostate lemma ChangedDevice(d: LiveDevice)
      requires old(Linked()) && old(d.id in devices && devices[d.id] == d)
      requires (forall o :: o in old(repr) && o != d ==> unchanged(o)) && unchanged(clock)
      ensures TiedButDevice(d) && Logged() && unchanged(this) && unchanged(st)
    {}

    ghost method ShowTask(t: LiveTask)
      requires TiedBut(t) && Logged()
      modifies this`shown
      ensures Linked() && shown == old(shown).(tasks := old(shown).tasks[t.id := t.Val()])
      ensures Projection.Apply(shown, Updated(t.Val())) == Projection.Apply(old(shown), Updated(t.Val()))
      ensures KeysIssued(Updated(t.Val()), shown, ids.issued)
    {
      hide LogSound, DurableStore.Valid, SequenceID.Valid, KeysIssued, Projection.Apply;
      hide LiveTask.Val, LiveRelease.Val, LiveDevice.Val;
      TaskInPlace(st.events, shown, t.Val(), ids.issued, clock.now);
      shown := shown.(tasks := shown.tasks[t.id := t.Val()]);
    }

    ghost method ShowRelease(r: LiveRelease)
      requires TiedButRelease(r) && Logged()
      modifies this`shown
      ensures Linked() && shown == old(shown).(releases := old(shown).releases[r.id := r.Val()])
      ensures Projection.Apply(shown, Rewritten(r.Val())) == Projection.Apply(old(shown), Rewritten(r.Val()))
      ensures KeysIssued(Rewritten(r.Val()), shown, ids.issued)
    {
      hide LogSound, DurableStore.Valid, SequenceID.Valid, KeysIssued, Projection.Apply;
      hide LiveTask.Val, LiveRelease.Val, LiveDevice.Val;
      ReleaseInPlace(st.events, shown, r.Val(), ids.issued, clock.now);
      shown := shown.(releases := shown.releases[r.id := r.Val()]);
    }

    ghost method ShowDevice(d: LiveDevice)
      requires TiedButDevice(d) && Logged()
      modifies this`shown
      ensures Linked() && shown == old(shown).(devices := old(shown).devices[d.id := d.Val()])
      ensures var c := Change(DeviceRegistered, DeviceData(d.Val()));
        Projection.Apply(shown, c) == Projection.Apply(old(shown), c) && KeysIssued(c, shown, ids.issued)
    {
      hide LogSound, DurableStore.Valid, SequenceID.Valid, KeysIssued, Projection.Apply;
      hide LiveTask.Val, LiveRelease.Val, LiveDevice.Val;
      DeviceInPlace(st.events, shown, d.Val(), ids.issued, clock.now);
      shown := shown.(devices := shown.devices[d.id := d.Val()]);
    }

    method EmitTask(t: LiveTask) returns (v: Verdict)
      requires TiedBut(t) && Logged()
      modifies this, st, ids
      ensures v == Ok && Linked() && Grew()
      ensures shown == Projection.Apply(old(shown), Updated(old(t.Val())))
      ensures Emitted(old(st.events), st.events, [Updated(old(t.Val()))], clock.now)
      ensures releases == old(releases) && devices == old(devices) && old(ids.issued) <= ids.issued
      ensures tasks.Keys == old(tasks.Keys)
    {
      hide Tied, TiedBut, Logged, Emitted;
      KeyOf(t);
      ShowTask(t);
      v := Emit(TaskUpdated, t.id, TaskData(t.Val()));
      KeysTied();
    }

    method EmitRelease(r: LiveRelease) returns (v: Verdict)
      requires TiedButRelease(r) && Logged()
      modifies this, st, ids
      ensures v == Ok && Linked() && Grew()
      ensures shown == Projection.Apply(old(shown), Rewritten(old(r.Val())))
      ensures Emitted(old(st.events), st.events, [Rewritten(old(r.Val()))], clock.now)
      ensures tasks == old(tasks) && devices == old(devices) && old(ids.issued) <= ids.issued
    {
      hide Tied, TiedButRelease, Logged, Emitted;
      ShowRelease(r);
      v := Emit(ReleaseUpdated, r.id, ReleaseData(r.Val()));
    }

    method EmitDevice(d: LiveDevice) returns (v: Verdict)
      requires TiedButDevice(d) && Logged()
      modifies this, st, ids
      ensures v == Ok && Linked() && Grew()
      ensures shown == Projection.Apply(old(shown), Change(DeviceRegistered, DeviceData(old(d.Val()))))
      ensures Emitted(old(st.events), st.events, [Change(DeviceRegistered, DeviceData(old(d.Val())))], clock.now)
    {
      hide Tied, TiedButDevice, Logged, Emitted;
      ShowDevice(d);
      v := Emit(DeviceRegistered, d.id, DeviceData(d.Val()));
    }

    // ---- what the tied maps say

    lemma KeysAreIds()
      requires Tied()
      ensures Keyed(shown)
    {}

    lemma KeysTied()
      requires Tied()
      ensures releases.Keys == shown.releases.Keys && devices.Keys == shown.devices.Keys &&
        tasks.Keys == shown.tasks.Keys
    {}

    lemma KeyOf(t: LiveTask)
      requires TiedBut(t)
      ensures t.id in tasks && tasks[t.id] == t && tasks.Keys == shown.tasks.Keys && t in repr
    {}

    lemma LookTask(id: string)
      requires Tied()
      ensures id in tasks <==> id in shown.tasks
      ensures id in tasks ==> tasks[id] in repr && tasks[id].id == id && tasks[id].Val() == shown.tasks[id]
    {}

    lemma LookRelease(id: string)
      requires Tied()
      ensures id in releases <==> id in shown.releases
      ensures id in releases ==>
        releases[id] in repr && releases[id].id == id && releases[id].Val() == shown.releases[id]
    {}

    lemma LookDevice(id: string)
      requires Tied()
      ensures id in devices <==> id in shown.devices
      ensures id in devices ==> devices[id] in repr && devices[id].id == id && devices[id].Val() == shown.devices[id]
    {}

    // ---- reconcile

    /** The counting loop of reconcile. */
    method CountTasks(rid: string) returns (done: nat, fail: nat)
      requires Tied()
      ensures done == |C.WithStatus(shown, rid, TaskCompleted)| && fail == |C.WithStatus(shown, rid, TaskFailed)|
    {
      hide Tied, C.WithStatus;
      KeysTied();
      done, fail := 0, 0;
      var left := tasks.Keys;
      CountEnds(shown, rid, TaskCompleted);
      CountEnds(shown, rid, TaskFailed);
      while left != {}
        invariant left <= tasks.Keys
        invariant done == |C.WithStatus(shown, rid, TaskCompleted) - left|
        invariant fail == |C.WithStatus(shown, rid, TaskFailed) - left|
      {
        var k :| k in left;
        LookTask(k);
        var t := tasks[k];
        OneCounted(shown, rid, TaskCompleted, left, k);
        OneCounted(shown, rid, TaskFailed, left, k);
        if t.releaseId == rid {
          if t.status == TaskCompleted {
            done := done + 1;
          }
          if t.status == TaskFailed {
            fail := fail + 1;
          }
        }
        left := left - {k};
      }
    }

    method Reconcile(rid: string)
      requires Linked()
      modifies repr
      ensures Linked() && Grew()
      ensures shown == ApplyAll(old(shown), C.Reconcile(old(shown), rid, clock.now))
      ensures Emitted(old(st.events), st.events, C.Reconcile(old(shown), rid, clock.now), clock.now)
      ensures tasks == old(tasks) && devices == old(devices) && old(ids.issued) <= ids.issued
    {
      hide Tied, TiedButRelease, Logged, Emitted;
      LookRelease(rid);
      EmittedNothing(st.events, clock.now);
      InRepr();
      if rid !in releases { return; }
      var r := releases[rid];
      var done, fail := CountTasks(rid);
      r.TakeCounts(done, fail, clock.Now());
      ChangedRelease(r);
      ApplyOne(shown, Rewritten(r.Val()));
      var _ := EmitRelease(r);
    }

    lemma InRepr()
      requires Tied()
      ensures this in repr && st in repr && ids in repr && clock !in repr
    {}

    /** Emit the task, then reconcile its release. */
    method Settle(t: LiveTask) returns (v: Verdict)
      requires TiedBut(t) && Logged()
      modifies repr
      ensures v == Ok && Linked() && Grew()
      ensures shown == ApplyAll(old(shown), C.Settle(old(shown), old(t.Val()), clock.now))
      ensures Emitted(old(st.events), st.events, C.Settle(old(shown), old(t.Val()), clock.now), clock.now)
    {
      hide Tied, Logged, Emitted, C.Settle, C.Reconcile, ApplyAll;
      ghost var s, log, u := shown, st.events, t.Val();
      v := EmitTask(t);
      ghost var mid, s1 := st.events, shown;
      InRepr();
      Reconcile(t.releaseId);
      SettleSteps(s, s1, log, mid, st.events, u, clock.now);
    }

    // ---- opening and closing a command

    lemma Begin()
      requires Valid()
      ensures Coherent(shown, clock.now) && clock.now > ZERO_TIME && Performed(shown, st.events, [])
      ensures this in repr && st in repr && ids in repr && clock !in repr
    {
      SaneLog(st.events, clock.now);
      EmittedNothing(st.events, clock.now);
    }

    lemma Close(s: State, log: seq<Event>, cs: seq<Change>)
      requires Linked() && s == Replay(log) && ValidLog(log) && LawfulRun(s, cs, clock.now)
      requires Emitted(log, st.events, cs, clock.now) && shown == ApplyAll(s, cs)
      ensures Performed(s, log, cs)
    {
      LogGrows(log, st.events, cs, clock.now);
    }

    // ---- agent commands

    lemma ValidDurable()
      requires Valid()
      ensures Durable()
    {
      hide Tied, ValidLog, Replay, LogSound, DurableStore.Valid;
    }

    lemma DurableDue()
      requires Durable()
      ensures ValidLog(st.events) && LastTime(st.events) <= clock.now
    {
      hide ValidLog, Replay, DurableStore.Valid;
    }

    lemma PerformedShown(pre: State, log: seq<Event>, cs: seq<Change>)
      requires Performed(pre, log, cs)
      ensures Valid() && shown == ApplyAll(pre, cs) && Emitted(log, st.events, cs, clock.now)
    {
      hide Valid, Emitted, ApplyAll;
    }

    lemma ValidShown()
      requires Valid()
      ensures shown == Replay(st.events) && Durable()
    {
      ValidDurable();
      hide Linked, Durable;
    }

    /** A panic in ScheduleRetry: the live record was changed, and nothing was logged; a restart undoes it. */
    twostate predicate PanickedOn(id: string, reason: string)
      reads this, st, ids, clock, repr
    {
      && id in old(shown.tasks) && Linked() && Durable() && st.events == old(st.events)
      && var t := old(shown).tasks[id];
         shown == old(shown).(tasks := old(shown).tasks[id :=
           t.(status := TaskRejected, leaseOwner := "", leaseUntil := 0, error := reason, updatedAt := clock.now)])
    }

    /** The switch of UpdateTask. */
    method Act(t: LiveTask, action: C.TaskAction, reason: string, now: Time) returns (v: Verdict)
      modifies t
      ensures match C.Acted(old(t.Val()), action, reason, now)
        case Denied(e) => v == Refused(e) && unchanged(t)
        case Done(u) => v == Ok && t.Val() == u
    {
      match action {
        case Ack =>
          if t.status != TaskLeased { return Refused(TaskNotLeased); }
          t.status := TaskInstalling;
        case Reject =>
          t.status, t.error, t.nextRetry := TaskRejected, reason, now + (t.attempts + 1) * MINUTE;
        case Complete =>
          if t.status != TaskInstalling && t.status != TaskAwaiting { return Refused(TaskNotActive); }
          t.status, t.leaseOwner, t.leaseUntil := TaskCompleted, "", ZERO_TIME;
        case UnknownTaskAction => return Refused(UnknownAction);
      }
      t.updatedAt := now;
      return Ok;
    }

    /** The record update of ReportProgress. */
    method Progressed(t: LiveTask, percent: int, detail: string, now: Time)
      modifies t
      ensures t.Val() == old(t.Val()).(error := if detail != "" then detail else old(t.error),
        status := if percent == 100 then TaskAwaiting else old(t.status), updatedAt := now)
    {
      if detail != "" {
        t.error := detail;
      }
      if percent == 100 {
        t.status := TaskAwaiting;
      }
      t.updatedAt := now;
    }

    method StartTask(id: string, agent: string) returns (v: Verdict)
      requires Valid()
      modifies repr
      ensures Grew()
      ensures v != Ok ==> Untouched()
      ensures var o := C.StartTask(old(shown), id, agent, clock.now);
        v == o.verdict && Performed(old(shown), old(st.events), o.changes)
    {
      hide Tied, TiedBut, Logged, Emitted, ValidLog, Replay, LawfulRun, Coherent;
      ghost var s, log := shown, st.events;
      Begin();
      LookTask(id);
      if id !in tasks { return Refused(NotFound); }
      var t := tasks[id];
      v := VerifyLease(t.Val(), agent, clock.Now());
      if v != Ok { return; }
      v := t.Transition(TaskInstalling);
      if v != Ok { return; }
      t.updatedAt := clock.Now();
      Changed(t);
      ApplyOne(s, Updated(t.Val()));
      v := EmitTask(t);
      Close(s, log, C.StartTask(s, id, agent, clock.now).changes) by {
        Laws.StartTaskLawful(s, id, agent, clock.now);
      }
    }

    method RejectTask(id: string, agent: string, reason: string) returns (v: Verdict)
      requires Valid()
      modifies repr
      ensures Grew()
      ensures v != Ok && v != Refused(Panic) ==> Untouched()
      ensures var o := C.RejectTask(old(shown), id, agent, reason, clock.now);
        v == o.verdict && (v != Refused(Panic) ==> Performed(old(shown), old(st.events), o.changes))
      ensures v == Refused(Panic) ==> PanickedOn(id, TrimSpace(reason))
    {
      hide Tied, TiedBut, Logged, Durable, Emitted, ValidLog, Replay, LawfulRun, Coherent;
      ghost var s, log := shown, st.events;
      Begin();
      ValidDurable();
      LookTask(id);
      if id !in tasks { return Refused(NotFound); }
      var t := tasks[id];
      v := VerifyLease(t.Val(), agent, clock.Now());
      if v != Ok { return; }
      LookRelease(t.releaseId);
      if t.releaseId !in releases { return Refused(ReleaseMissing); }
      var r := releases[t.releaseId];
      var _, panics := t.ScheduleRetry(clock.Now(), SECOND, r.retryLimit, TrimSpace(reason));
      Changed(t);
      if panics {
        ShowTask(t);
        return Refused(Panic);
      }
      ApplyOne(s, Updated(t.Val()));
      v := EmitTask(t);
      Close(s, log, C.RejectTask(s, id, agent, reason, clock.now).changes) by {
        Laws.RejectTaskLawful(s, id, agent, reason, clock.now);
      }
    }

    method MarkFailed(t: LiveTask, retryable: bool, limit: int, reason: string, now: Time) returns (panics: bool)
      modifies t
      ensures panics <==> retryable && !CanScheduleRetry(old(t.Val()), limit)
      ensures t.Val() ==
        if panics then Stranded(old(t.Val()), now, reason)
        else if retryable then RetryScheduled(old(t.Val()), now, SECOND, limit, reason)
        else Released(old(t.Val())).(status := TaskFailed, error := reason, updatedAt := now)
    {
      if retryable {
        var retry;
        retry, panics := t.ScheduleRetry(now, SECOND, limit, reason);
      } else {
        panics := false;
        t.status := TaskFailed;
        t.error := reason;
        t.ReleaseLease();
        t.updatedAt := now;
      }
    }

    method FailTask(id: string, agent: string, reason: string, retryable: bool) returns (v: Verdict)
      requires Valid()
      modifies repr
      ensures Grew()
      ensures v != Ok && v != Refused(Panic) ==> Untouched()
      ensures var o := C.FailTask(old(shown), id, agent, reason, retryable, clock.now);
        v == o.verdict && (v != Refused(Panic) ==> Performed(old(shown), old(st.events), o.changes))
      ensures v == Refused(Panic) ==> PanickedOn(id, reason)
    {
      hide Tied, TiedBut, Logged, Durable, Emitted, ValidLog, Replay, LawfulRun, Coherent;
      ghost var s, log := shown, st.events;
      Begin();
      ValidDurable();
      LookTask(id);
      if id !in tasks { return Refused(NotFound); }
      var t := tasks[id];
      if t.status == TaskFailed && t.error == reason { return Ok; }
      v := VerifyLease(t.Val(), agent, clock.Now());
      if v != Ok { return; }
      LookRelease(t.releaseId);
      if t.releaseId !in releases { return Refused(ReleaseMissing); }
      var r := releases[t.releaseId];
      var panics := MarkFailed(t, retryable, r.retryLimit, reason, clock.Now());
      Changed(t);
      if panics {
        ShowTask(t);
        return Refused(Panic);
      }
      v := Settle(t);
      Close(s, log, C.FailTask(s, id, agent, reason, retryable, clock.now).changes) by {
        Laws.FailTaskLawful(s, id, agent, reason, retryable, clock.now);
      }
    }

    method ReportProgress(id: string, agent: string, percent: int, detail: string) returns (v: Verdict)
      requires Valid()
      modifies repr
      ensures Grew()
      ensures v != Ok ==> Untouched()
      ensures var o := C.ReportProgress(old(shown), id, agent, percent, detail, clock.now);
        v == o.verdict && Performed(old(shown), old(st.events), o.changes)
    {
      hide Tied, TiedBut, Logged, Emitted, ValidLog, Replay, LawfulRun, Coherent;
      ghost var s, log := shown, st.events;
      Begin();
      if percent < 0 || percent > 100 { return Refused(BadArgument); }
      LookTask(id);
      if id !in tasks { return Refused(NotFound); }
      var t := tasks[id];
      v := VerifyLease(t.Val(), agent, clock.Now());
      if v != Ok { return; }
      if t.status != TaskInstalling && t.status != TaskAwaiting { return Refused(Conflict); }
      Progressed(t, percent, detail, clock.Now());
      Changed(t);
      ApplyOne(s, Updated(t.Val()));
      v := EmitTask(t);
      Close(s, log, C.ReportProgress(s, id, agent, percent, detail, clock.now).changes) by {
        Laws.ReportProgressLawful(s, id, agent, percent, detail, clock.now);
      }
    }

    method ConfirmInstall(id: string, agent: string) returns (v: Verdict)
      requires Valid()
      modifies repr
      ensures Grew()
      ensures v != Ok ==> Untouched()
      ensures var o := C.ConfirmInstall(old(shown), id, agent, clock.now);
        v == o.verdict && Performed(old(shown), old(st.events), o.changes)
    {
      hide Tied, TiedBut, Logged, Emitted, ValidLog, Replay, LawfulRun, Coherent;
      ghost var s, log := shown, st.events;
      Begin();
      LookTask(id);
      if id !in tasks { return Refused(NotFound); }
      var t := tasks[id];
      if t.status == TaskCompleted { return Ok; }
      if t.leaseOwner != agent || clock.Now() > t.leaseUntil { return Refused(LeaseNotOwned); }
      if t.status != TaskAwaiting { return Refused(Conflict); }
      t.status, t.leaseOwner, t.leaseUntil, t.updatedAt := TaskCompleted, "", ZERO_TIME, clock.Now();
      Changed(t);
      v := Settle(t);
      Close(s, log, C.ConfirmInstall(s, id, agent, clock.now).changes) by {
        Laws.ConfirmInstallLawful(s, id, agent, clock.now);
      }
    }

    method RenewLease(id: string, agent: string, ttl: int) returns (v: Verdict)
      requires Valid()
      modifies repr
      ensures Grew()
      ensures v != Ok ==> Untouched()
      ensures var o := C.RenewLease(old(shown), id, agent, ttl, clock.now);
        v == o.verdict && Performed(old(shown), old(st.events), o.changes)
    {
      hide Tied, TiedBut, Logged, Emitted, ValidLog, Replay, LawfulRun, Coherent;
      ghost var s, log := shown, st.events;
      Begin();
      if ttl <= 0 || ttl > HOUR { return Refused(BadArgument); }
      LookTask(id);
      if id !in tasks { return Refused(NotFound); }
      var t := tasks[id];
      var now := clock.Now();
      v := VerifyLease(t.Val(), agent, now);
      if v != Ok { return; }
      if t.status != TaskLeased && t.status != TaskInstalling && t.status != TaskAwaiting &&
        t.status != TaskRollingBack {
        return Refused(Conflict);
      }
      t.leaseUntil, t.updatedAt := now + ttl, now;
      assert C.RenewLease(s, id, agent, ttl, clock.now).changes == [Updated(t.Val())];
      Changed(t);
      ApplyOne(s, Updated(t.Val()));
      v := EmitTask(t);
      Close(s, log, C.RenewLease(s, id, agent, ttl, clock.now).changes) by {
        Laws.RenewLeaseLawful(s, id, agent, ttl, clock.now);
      }
    }

    // ---- operator commands

    method UpdateTask(id: string, action: C.TaskAction, reason: string) returns (v: Verdict)
      requires Valid()
      modifies repr
      ensures Grew()
      ensures v != Ok ==> Untouched()
      ensures var o := C.UpdateTask(old(shown), id, action, reason, clock.now);
        v == o.verdict && Performed(old(shown), old(st.events), o.changes)
    {
      hide Tied, TiedBut, Logged, Emitted, ValidLog, Replay, LawfulRun, Coherent;
      ghost var s, log := shown, st.events;
      Begin();
      LookTask(id);
      if id !in tasks { return Refused(NotFound); }
      var t := tasks[id];
      v := Act(t, action, reason, clock.Now());
      if v != Ok { return; }
      Changed(t);
      v := Settle(t);
      Close(s, log, C.UpdateTask(s, id, action, reason, clock.now).changes) by {
        Laws.UpdateTaskLawful(s, id, action, reason, clock.now);
      }
    }

    method ReportPreflight(id: string, ok: bool, detail: string) returns (v: Verdict)
      requires Valid()
      modifies repr
      ensures Grew()
      ensures v != Ok ==> Untouched()
      ensures var o := C.ReportPreflight(old(shown), id, ok, detail, clock.now);
        v == o.verdict && Performed(old(shown), old(st.events), o.changes)
    {
      hide Tied, TiedBut, Logged, Emitted, ValidLog, Replay, LawfulRun, Coherent;
      ghost var s, log := shown, st.events;
      Begin();
      LookTask(id);
      if id !in tasks { return Refused(NotFound); }
      var t := tasks[id];
      if t.status != TaskInstalling && t.status != TaskLeased { return Refused(Conflict); }
      if ok {
        t.status := TaskAwaiting;
        t.error := "";
      } else {
        t.status := TaskFailed;
        t.error := detail;
      }
      t.updatedAt := clock.Now();
      Changed(t);
      v := Settle(t);
      Close(s, log, C.ReportPreflight(s, id, ok, detail, clock.now).changes) by {
        Laws.ReportPreflightLawful(s, id, ok, detail, clock.now);
      }
    }

    method Requeue(t: LiveTask, now: Time)
      modifies t
      ensures t.Val() == old(t.Val()).(status := TaskQueued, nextRetry := now, error := "", updatedAt := now)
    {
      t.status, t.nextRetry, t.error, t.updatedAt := TaskQueued, now, "", now;
    }

    method RetryTask(id: string) returns (v: Verdict)
      requires Valid()
      modifies repr
      ensures Grew()
      ensures v != Ok ==> Untouched()
      ensures var o := C.RetryTask(old(shown), id, clock.now);
        v == o.verdict && Performed(old(shown), old(st.events), o.changes)
    {
      hide Tied, TiedBut, Logged, Emitted, ValidLog, Replay, LawfulRun, Coherent;
      ghost var s, log := shown, st.events;
      Begin();
      LookTask(id);
      if id !in tasks { return Refused(NotFound); }
      var t := tasks[id];
      if t.status != TaskFailed && t.status != TaskRejected { return Refused(Conflict); }
      TaskHasRelease(s, id, clock.now);
      LookRelease(t.releaseId);
      var r := releases[t.releaseId];
      if t.attempts > r.retryLimit { return Refused(RetryLimitReached); }
      Requeue(t, clock.Now());
      Changed(t);
      ApplyOne(s, Updated(t.Val()));
      v := EmitTask(t);
      Close(s, log, C.RetryTask(s, id, clock.now).changes) by {
        Laws.RetryTaskLawful(s, id, clock.now);
      }
    }

    method SetRelease(id: string, action: C.ReleaseAction) returns (v: Verdict)
      requires Valid()
      modifies repr
      ensures Grew()
      ensures v != Ok ==> Untouched()
      ensures var o := C.SetRelease(old(shown), id, action, clock.now);
        v == o.verdict && Performed(old(shown), old(st.events), o.changes)
    {
      hide Tied, TiedButRelease, Logged, Emitted, ValidLog, Replay, LawfulRun, Coherent;
      ghost var s, log := shown, st.events;
      Begin();
      LookRelease(id);
      if id !in releases { return Refused(NotFound); }
      var r := releases[id];
      match action {
        case Pause =>
          if !CanPause(r.Val()) { return Refused(CannotPause); }
          r.status := StatusPaused;
        case Resume =>
          if r.status != StatusPaused { return Refused(NotPaused); }
          r.status := StatusQueued;
        case Rollback =>
          r.status := StatusRollbackPending;
        case UnknownReleaseAction => return Refused(UnknownAction);
      }
      r.updatedAt := clock.Now();
      ChangedRelease(r);
      ApplyOne(s, Rewritten(r.Val()));
      v := EmitRelease(r);
      Close(s, log, C.SetRelease(s, id, action, clock.now).changes) by {
        Laws.ReleaseCommandsLawful(s, id, action, clock.now);
      }
    }

    method RequestRollback(id: string) returns (v: Verdict)
      requires Valid()
      modifies repr
      ensures Grew()
      ensures v != Ok ==> Untouched()
      ensures var o := C.RequestRollback(old(shown), id, clock.now);
        v == o.verdict && Performed(old(shown), old(st.events), o.changes)
    {
      hide Tied, TiedButRelease, Logged, Emitted, ValidLog, Replay, LawfulRun, Coherent;
      ghost var s, log := shown, st.events;
      Begin();
      LookRelease(id);
      if id !in releases { return Refused(NotFound); }
      var r := releases[id];
      if Terminal(r.Val()) && r.status != StatusCompleted { return Refused(Conflict); }
      v := r.Transition(StatusRollbackPending);
      if v != Ok { return; }
      r.updatedAt, r.failed := clock.Now(), r.failed + 1;
      assert C.RequestRollback(s, id, clock.now).changes == [Rewritten(r.Val())];
      ChangedRelease(r);
      ApplyOne(s, Rewritten(r.Val()));
      v := EmitRelease(r);
      Close(s, log, C.RequestRollback(s, id, clock.now).changes) by {
        Laws.ReleaseCommandsLawful(s, id, C.Pause, clock.now);
      }
    }

    // ---- devices

    method DeviceHeartbeat(id: string, online: bool) returns (v: Verdict)
      requires Valid()
      modifies repr
      ensures Grew()
      ensures v != Ok ==> Untouched()
      ensures var o := C.DeviceHeartbeat(old(shown), id, online, clock.now);
        v == o.verdict && Performed(old(shown), old(st.events), o.changes)
    {
      hide Tied, TiedButDevice, Logged, Emitted, ValidLog, Replay, LawfulRun, Coherent;
      ghost var s, log := shown, st.events;
      Begin();
      LookDevice(id);
      if id !in devices { return Refused(NotFound); }
      var d := devices[id];
      d.online := online;
      d.lastSeen := clock.Now();
      ChangedDevice(d);
      ApplyOne(s, Change(DeviceRegistered, DeviceData(d.Val())));
      v := EmitDevice(d);
      Close(s, log, C.DeviceHeartbeat(s, id, online, clock.now).changes) by {
        Laws.DeviceCommandsLawful(s, id, "", [], online, clock.now);
      }
    }

    method RegisterDevice(id: string, firmware: string, capabilities: seq<string>) returns (v: Verdict)
      requires Valid()
      modifies repr
      ensures Grew()
      ensures v != Ok ==> Untouched()
      ensures var o := C.RegisterDevice(id, firmware, capabilities, clock.now);
        v == o.verdict && Performed(old(shown), old(st.events), o.changes)
    {
      hide Tied, TiedButDevice, Logged, Emitted, ValidLog, Replay, LawfulRun, Coherent;
      ghost var s, log := shown, st.events;
      Begin();
      if id == "" { return Refused(BadArgument); }
      var now := clock.Now();
      var d := new LiveDevice(Device(id, firmware, capabilities, now, now, true));
      ApplyOne(s, Change(DeviceRegistered, DeviceData(d.Val())));
      v := Emit(DeviceRegistered, id, DeviceData(d.Val()));
      Close(s, log, C.RegisterDevice(id, firmware, capabilities, clock.now).changes) by {
        Laws.DeviceCommandsLawful(s, id, firmware, capabilities, true, clock.now);
      }
    }

    // ---- rollback

    /** One task of QueueRollback's loop. */
    method Revert(t: LiveTask, reason: string, now: Time)
      requires t.status == TaskCompleted || t.status == TaskFailed
      modifies t
      ensures t.Val() == Released(old(t.Val())).(status := TaskRollbackQueued, error := reason, updatedAt := now)
    {
      var moved := t.Transition(TaskRollbackQueued);
      t.error := reason;
      t.ReleaseLease();
      t.updatedAt := now;
    }

    /** The loop of QueueRollback: it visits the task map in some order. */
    method RevertTasks(rid: string, reason: string) returns (queued: seq<Task>, ghost order: seq<string>)
      requires Linked()
      modifies repr
      ensures Linked() && Grew() && releases == old(releases)
      ensures C.Visits(order, old(shown).tasks.Keys) && forall k :: k in order ==> k in old(shown).tasks
      ensures var w := C.Reverting(rid, reason);
        && shown == Halfway(old(shown), w, old(shown).releases, order, clock.now)
        && Emitted(old(st.events), st.events, C.SweepLoop(old(shown), w, order, clock.now), clock.now)
        && queued == TaskRecords(C.SweepLoop(old(shown), w, order, clock.now))
    {
      hide Tied, TiedBut, Logged, Emitted, C.SweepLoop, C.KeysOf, C.Distinct, Halfway, TaskRecords, Projection.Apply;
      ghost var s, log, w := shown, st.events, C.Reverting(rid, reason);
      queued, order := [], [];
      SweepStarts(s, w, s.releases, clock.now);
      TaskRecordsNone();
      EmittedNothing(log, clock.now);
      NoKeys();
      KeysTied();
      InRepr();
      var left := tasks.Keys;
      while left != {}
        invariant Linked() && Grew() && releases == old(releases)
        invariant left <= s.tasks.Keys && C.KeysOf(order) == s.tasks.Keys - left && C.Distinct(order)
        invariant forall k :: k in order ==> k in s.tasks
        invariant shown == Halfway(s, w, s.releases, order, clock.now)
        invariant Emitted(log, st.events, C.SweepLoop(s, w, order, clock.now), clock.now)
        invariant queued == TaskRecords(C.SweepLoop(s, w, order, clock.now))
      {
        var k :| k in left;
        left := left - {k};
        InRepr();
        LookTask(k);
        HalfwayKeys(s, w, s.releases, order, clock.now);
        Visit(s, w, s.releases, order, k, clock.now);
        ghost var before := C.SweepLoop(s, w, order, clock.now);
        order := order + [k];
        var t := tasks[k];
        if t.releaseId != rid || (t.status != TaskCompleted && t.status != TaskFailed) { continue; }
        label Before:
        Revert(t, reason, clock.Now());
        Changed@Before(t);
        ghost var mid, u := st.events, t.Val();
        queued := queued + [t.Val()];
        var _ := EmitTask(t);
        TaskRecordsSnoc(before, u);
        EmittedThen(log, mid, st.events, before, [Updated(u)], clock.now);
      }
    }

    method Pend(r: LiveRelease) returns (v: Verdict)
      modifies r
      ensures v == if ValidReleaseTransition(old(r.status), StatusRollbackPending) then Ok
        else Refused(InvalidReleaseTransition)
      ensures if v == Ok then r.Val() == old(r.Val()).(status := StatusRollbackPending) else unchanged(r)
    {
      v := Ok;
      if r.status != StatusRollbackPending {
        v := r.Transition(StatusRollbackPending);
      }
    }

    /** The release is pending in place, and in every snapshot, before the log says so. */
    method RevertRelease(rid: string, reason: string) returns (v: Verdict, queued: seq<Task>, ghost order: seq<string>)
      requires Valid()
      modifies repr
      ensures Grew()
      ensures v != Ok ==> Untouched()
      ensures forall k :: k in order ==> k in old(shown).tasks
      ensures v == Ok ==> C.Visits(order, old(shown).tasks.Keys)
      ensures var o := C.QueueRollback(old(shown), rid, reason, order, clock.now);
        v == o.verdict && Performed(old(shown), old(st.events), o.changes)
      ensures v == Ok ==> queued == TaskRecords(C.SweepLoop(old(shown), C.Reverting(rid, reason), order, clock.now))
    {
      hide Tied, TiedButRelease, Logged, Emitted, ValidLog, Replay, LawfulRun, Coherent, C.SweepLoop, C.Distinct,
           C.KeysOf, Halfway, TaskRecords, Projection.Apply, ValidReleaseTransition;
      ghost var s, log, w := shown, st.events, C.Reverting(rid, reason);
      queued, order := [], [];
      Begin();
      LookRelease(rid);
      if rid !in releases { v := Refused(NotFound); return; }
      var r := releases[rid];
      v := Pend(r);
      if v != Ok { return; }
      ChangedRelease(r);
      ShowRelease(r);
      ghost var rels := shown.releases;
      queued, order := RevertTasks(rid, reason);
      InRepr();
      LookRelease(rid);
      HalfwayKeys(s, w, rels, order, clock.now);
      RevertingIgnoresReleases(s, rid, reason, rels, order, clock.now);
      label Swept:
      r.updatedAt := clock.Now();
      ChangedRelease@Swept(r);
      ghost var mid, q, sweep := st.events, r.Val(), C.SweepLoop(s, w, order, clock.now);
      v := EmitRelease(r);
      EmittedThen(log, mid, st.events, sweep, [Rewritten(q)], clock.now);
      Close(s, log, C.QueueRollback(s, rid, reason, order, clock.now).changes) by {
        RollbackEnds(s, rid, reason, rels, order, clock.now);
        Laws.QueueRollbackLawful(s, rid, reason, order, clock.now);
      }
    }

    /** The whole command: the queued tasks are returned in device order. */
    method QueueRollback(rid: string, reason: string) returns (v: Verdict, queued: seq<Task>, ghost order: seq<string>)
      requires Valid()
      modifies repr
      ensures Grew()
      ensures v != Ok ==> Untouched()
      ensures forall k :: k in order ==> k in old(shown).tasks
      ensures v == Ok ==> C.Visits(order, old(shown).tasks.Keys)
      ensures var o := C.QueueRollback(old(shown), rid, reason, order, clock.now);
        v == o.verdict && Performed(old(shown), old(st.events), o.changes)
      ensures v == Ok ==> forall i, j :: 0 <= i < j < |queued| ==> !Less(queued[j].deviceId, queued[i].deviceId)
      ensures v == Ok ==>
        multiset(queued) == multiset(TaskRecords(C.SweepLoop(old(shown), C.Reverting(rid, reason), order, clock.now)))
    {
      hide Performed, C.QueueRollback, TaskRecords, Sorted, Orders;
      v, queued, order := RevertRelease(rid, reason);
      if v != Ok { return; }
      ByDeviceOrders();
      queued := SortSlice(queued, BY_DEVICE);
      DeviceOrder(queued);
    }

    // ---- the reaper

    /** What the reaper does to an expired task, by its attempts. */
    method Expire(t: LiveTask, limit: int, now: Time) returns (failed: bool)
      modifies t
      ensures var u := Released(old(t.Val())).(error := "lease expired", updatedAt := now);
        t.Val() == if old(t.status) == TaskRollingBack then u.(status := TaskRollbackQueued)
                   else if old(t.attempts) > limit then u.(status := TaskFailed)
                   else u.(status := TaskQueued, nextRetry := now + old(t.attempts) * MINUTE)
      ensures failed <==> t.status == TaskFailed
    {
      failed := false;
      if t.status == TaskRollingBack {
        t.status := TaskRollbackQueued;
      } else if t.attempts > limit {
        t.status := TaskFailed;
        failed := true;
      } else {
        t.status := TaskQueued;
        t.nextRetry := now + t.attempts * MINUTE;
      }
      t.ReleaseLease();
      t.error := "lease expired";
      t.updatedAt := now;
    }

    /** One iteration of the reaper's loop. */
    method ReapOne(k: string, now: Time) returns (changed: bool, failed: bool)
      requires Linked() && k in tasks && now == clock.now
      modifies repr
      ensures k in old(shown).tasks
      ensures var e := C.Swept(old(shown), C.Reaping, old(shown).tasks[k], now);
        && Linked() && Grew() && releases == old(releases) && (changed <==> e.Write?)
        && (changed ==> (failed <==> e.task.status == TaskFailed)
                        && shown == Projection.Apply(old(shown), Updated(e.task))
                        && Emitted(old(st.events), st.events, [Updated(e.task)], now))
        && (!changed ==> shown == old(shown) && st.events == old(st.events))
    {
      hide Tied, TiedBut, Logged, Emitted, Projection.Apply;
      changed, failed := false, false;
      InRepr();
      LookTask(k);
      var t := tasks[k];
      LookRelease(t.releaseId);
      if !IsActive(t.Val()) || t.leaseUntil == ZERO_TIME || !(now > t.leaseUntil) { return; }
      if t.releaseId !in releases { return; }
      changed := true;
      failed := Expire(t, releases[t.releaseId].retryLimit, now);
      Changed(t);
      var _ := EmitTask(t);
    }

    /** The first loop: it visits the task map in some order. */
    method ReapTasks() returns (requeued: nat, failed: nat, changed: set<string>, ghost order: seq<string>)
      requires Linked()
      modifies repr
      ensures Linked() && Grew() && releases == old(releases)
      ensures C.Visits(order, old(shown).tasks.Keys) && forall k :: k in order ==> k in old(shown).tasks
      ensures shown == Halfway(old(shown), C.Reaping, old(shown).releases, order, clock.now)
      ensures Emitted(old(st.events), st.events, C.SweepLoop(old(shown), C.Reaping, order, clock.now), clock.now)
      ensures Tallied(old(shown), order, requeued, failed, changed, clock.now)
    {
      hide Tied, Logged, Emitted, C.SweepLoop, C.Swept, C.KeysOf, C.Distinct, Halfway, Tallied, Projection.Apply;
      ghost var s, log := shown, st.events;
      var now := clock.Now();
      requeued, failed, changed, order := 0, 0, {}, [];
      SweepStarts(s, C.Reaping, s.releases, now);
      TallyStarts(s, now);
      EmittedNothing(log, now);
      NoKeys();
      KeysTied();
      InRepr();
      var left := tasks.Keys;
      while left != {}
        invariant Linked() && Grew() && releases == old(releases)
        invariant left <= s.tasks.Keys && C.KeysOf(order) == s.tasks.Keys - left && C.Distinct(order)
        invariant forall k :: k in order ==> k in s.tasks
        invariant shown == Halfway(s, C.Reaping, s.releases, order, now)
        invariant Emitted(log, st.events, C.SweepLoop(s, C.Reaping, order, now), now)
        invariant Tallied(s, order, requeued, failed, changed, now)
      {
        var k :| k in left;
        left := left - {k};
        InRepr();
        LookTask(k);
        HalfwayKeys(s, C.Reaping, s.releases, order, now);
        ReapVisit(s, order, k, now);
        TallyOne(s, order, requeued, failed, changed, k, now);
        ghost var before, mid := C.SweepLoop(s, C.Reaping, order, now), st.events;
        order := order + [k];
        var rid := tasks[k].releaseId;
        var reaped, gaveUp := ReapOne(k, now);
        if reaped {
          if gaveUp { failed := failed + 1; } else { requeued := requeued + 1; }
          changed := changed + {rid};
          EmittedThen(log, mid, st.events, before, [Updated(C.Swept(s, C.Reaping, s.tasks[k], now).task)], now);
        }
      }
    }

    /** The second loop: it reconciles the touched releases in some order. */
    method ReconcileAll(changed: set<string>) returns (names: seq<string>)
      requires Linked() && changed <= shown.releases.Keys
      modifies repr
      ensures Linked() && Grew()
      ensures C.Visits(names, changed)
      ensures shown == Laws.ReconciledState(old(shown), C.KeysOf(names), clock.now)
      ensures Emitted(old(st.events), st.events, C.ReconcileLoop(old(shown), names, clock.now), clock.now)
    {
      hide Tied, Logged, Emitted, C.ReconcileLoop, C.Reconcile, C.KeysOf, C.Distinct, Laws.ReconciledState, ApplyAll;
      ghost var s, log := shown, st.events;
      names := [];
      ReconcileStarts(s, clock.now);
      EmittedNothing(log, clock.now);
      NoKeys();
      InRepr();
      KeysAreIds();
      var left := changed;
      while left != {}
        invariant Linked() && Grew()
        invariant left <= changed && C.KeysOf(names) == changed - left && C.Distinct(names)
        invariant shown == Laws.ReconciledState(s, C.KeysOf(names), clock.now)
        invariant Emitted(log, st.events, C.ReconcileLoop(s, names, clock.now), clock.now)
      {
        var id :| id in left;
        left := left - {id};
        InRepr();
        ReconcileNext(s, names, id, clock.now);
        KeysSnoc(names, id);
        ghost var before, mid, step := C.ReconcileLoop(s, names, clock.now), st.events,
          C.Reconcile(shown, id, clock.now);
        Reconcile(id);
        names := names + [id];
        EmittedThen(log, mid, st.events, before, step, clock.now);
      }
    }

    method ReapExpiredDetailed()
      returns (requeued: nat, failed: nat, names: seq<string>, ghost order: seq<string>, ghost rids: seq<string>)
      requires Valid()
      modifies repr
      ensures Grew()
      ensures C.Visits(order, old(shown).tasks.Keys) && forall k :: k in order ==> k in old(shown).tasks
      ensures C.Visits(rids, C.ReapedReleases(old(shown), clock.now))
      ensures Performed(old(shown), old(st.events), C.ReapExpired(old(shown), order, rids, clock.now).changes)
      ensures requeued + failed == |C.Reaped(old(shown), clock.now)|
      ensures failed == |Outcomes(old(shown), old(shown).tasks.Keys, true, clock.now)|
      ensures multiset(names) == multiset(rids)
      ensures forall i, j :: 0 <= i < j < |names| ==> !Less(names[j], names[i])
    {
      hide Tied, Logged, Emitted, ValidLog, Replay, LawfulRun, Coherent, C.SweepLoop, C.Distinct, C.KeysOf, Halfway,
           Sorted, Orders, Outcomes, Touched, C.Reaped, C.ReapedReleases, C.ReapExpired, C.ReconcileLoop, ApplyAll;
      ghost var s, log := shown, st.events;
      var changed;
      Begin();
      requeued, failed, changed, order := ReapTasks();
      InRepr();
      AllOutcomes(s, clock.now);
      HalfwayKeys(s, C.Reaping, s.releases, order, clock.now);
      TouchedExist(s, clock.now);
      ghost var mid := st.events;
      names := ReconcileAll(changed);
      rids := names;
      VisitsKeys(rids, changed);
      ReapEnds(s, order, rids, clock.now);
      EmittedThen(log, mid, st.events, C.SweepLoop(s, C.Reaping, order, clock.now),
                  C.ReconcileLoop(Halfway(s, C.Reaping, s.releases, order, clock.now), rids, clock.now), clock.now);
      Close(s, log, C.ReapExpired(s, order, rids, clock.now).changes) by {
        Laws.ReapExpiredLawful(s, order, rids, clock.now);
      }
      ByNameOrders();
      names := SortSlice(names, BY_NAME);
      NameOrder(names);
    }

    // ---- rollback of one task

    /** The collecting loop of ClaimRollback. */
    method CollectRollbacks(device: string) returns (out: seq<Task>)
      requires Tied()
      ensures Lists(shown, out, C.RollbackCandidates(shown, device))
    {
      hide Tied, Lists;
      KeysTied();
      out := [];
      ghost var all := C.RollbackCandidates(shown, device);
      ListStarts(shown, all);
      var left := tasks.Keys;
      while left != {}
        invariant left <= tasks.Keys && Lists(shown, out, all - left)
      {
        var k :| k in left;
        LookTask(k);
        ListOne(shown, out, all, left, k);
        var t := tasks[k];
        if t.deviceId == device && t.status == TaskRollbackQueued {
          out := out + [t.Val()];
        }
        left := left - {k};
      }
      ListEnds(shown, out, all);
    }

    /** Sorts the candidates and takes the first: one that has waited longest. */
    method OldestRollback(device: string) returns (found: bool, pick: string)
      requires Tied()
      ensures found <==> C.RollbackCandidates(shown, device) != {}
      ensures found ==> C.Oldest(shown, C.RollbackCandidates(shown, device), pick)
    {
      hide Tied, Sorted, Orders, Lists, C.Oldest, C.RollbackCandidates;
      ghost var keys := C.RollbackCandidates(shown, device);
      var candidates := CollectRollbacks(device);
      ByUpdateOrders();
      var sorted := SortSlice(candidates, BY_UPDATE);
      ListPermuted(shown, candidates, sorted, keys);
      ListSize(shown, sorted, keys);
      if |sorted| == 0 { return false, ""; }
      FirstIsOldest(shown, sorted, keys);
      return true, sorted[0].id;
    }

    method ClaimRollback(device: string, agent: string) returns (v: Verdict, pick: string)
      requires Valid()
      modifies repr
      ensures Grew()
      ensures v != Ok ==> Untouched()
      ensures C.RollbackCandidates(old(shown), device) != {} ==>
        C.Oldest(old(shown), C.RollbackCandidates(old(shown), device), pick)
      ensures var o := C.ClaimRollback(old(shown), device, agent, pick, clock.now);
        v == o.verdict && Performed(old(shown), old(st.events), o.changes)
    {
      hide Tied, TiedBut, Logged, Emitted, ValidLog, Replay, LawfulRun, Coherent, C.RollbackCandidates;
      ghost var s, log := shown, st.events;
      Begin();
      var now := clock.Now();
      var found;
      found, pick := OldestRollback(device);
      if !found { return Refused(NoTask), pick; }
      LookTask(pick);
      var t := tasks[pick];
      t.status, t.leaseOwner, t.leaseUntil, t.attempts, t.updatedAt :=
        TaskRollingBack, agent, now + 5 * MINUTE, t.attempts + 1, now;
      assert C.ClaimRollback(s, device, agent, pick, now).changes == [Updated(t.Val())];
      Changed(t);
      ApplyOne(s, Updated(t.Val()));
      v := EmitTask(t);
      Close(s, log, C.ClaimRollback(s, device, agent, pick, clock.now).changes) by {
        Laws.ClaimRollbackLawful(s, device, agent, pick, clock.now);
      }
    }

    /** The scan of CompleteRollback, which stops at the first task still to be rolled back. */
    method AllReverted(rid: string) returns (all: bool)
      requires Tied()
      ensures all <==> C.AllReverted(shown, rid)
    {
      hide Tied;
      KeysTied();
      all := true;
      var left := tasks.Keys;
      while left != {}
        invariant left <= tasks.Keys
        invariant all <==> forall k :: k in shown.tasks.Keys - left && shown.tasks[k].releaseId == rid ==>
          shown.tasks[k].status == TaskRolledBack || shown.tasks[k].status == TaskQueued ||
            shown.tasks[k].status == TaskRejected
      {
        var k :| k in left;
        LookTask(k);
        var other := tasks[k];
        if other.releaseId == rid && other.status != TaskRolledBack &&
          other.status != TaskQueued && other.status != TaskRejected {
          all := false;
          break;
        }
        left := left - {k};
      }
    }

    method FinishRollback(rid: string) returns (v: Verdict)
      requires Linked() && rid in shown.releases
      modifies repr
      ensures Linked() && Grew()
      ensures var o := C.Finish(old(shown), rid, clock.now);
        v == o.verdict && shown == ApplyAll(old(shown), o.changes) &&
          Emitted(old(st.events), st.events, o.changes, clock.now)
    {
      hide Tied, TiedButRelease, Logged, Emitted, C.AllReverted, ValidReleaseTransition;
      EmittedNothing(st.events, clock.now);
      InRepr();
      var all := AllReverted(rid);
      if !all { return Ok; }
      LookRelease(rid);
      var r := releases[rid];
      v := r.Transition(StatusRolledBack);
      if v != Ok { return; }
      r.updatedAt := clock.Now();
      ChangedRelease(r);
      ApplyOne(shown, Rewritten(r.Val()));
      v := EmitRelease(r);
    }

    /** The checks of CompleteRollback and its update of the task record. */
    method MarkReverted(t: LiveTask, agent: string, now: Time) returns (v: Verdict)
      modifies t
      ensures v == match VerifyLease(old(t.Val()), agent, now)
        case Refused(e) => Refused(e)
        case Ok => if CanMove(old(t.status), TaskRolledBack) then Ok else Refused(InvalidTaskTransition)
      ensures if v == Ok then t.Val() == Released(old(t.Val())).(status := TaskRolledBack, updatedAt := now)
        else unchanged(t)
    {
      v := VerifyLease(t.Val(), agent, now);
      if v != Ok { return; }
      v := t.Transition(TaskRolledBack);
      if v != Ok { return; }
      t.ReleaseLease();
      t.updatedAt := now;
    }

    method CompleteRollback(id: string, agent: string) returns (v: Verdict)
      requires Valid()
      modifies repr
      ensures Grew()
      ensures var o := C.CompleteRollback(old(shown), id, agent, clock.now);
        && v == o.verdict && Performed(old(shown), old(st.events), o.changes)
        && (o.changes == [] ==> Untouched())
    {
      hide Tied, TiedBut, Logged, Emitted, ValidLog, Replay, LawfulRun, Coherent, C.Finish, Projection.Apply;
      ghost var s, log := shown, st.events;
      Begin();
      LookTask(id);
      if id !in tasks { return Refused(NotFound); }
      var t := tasks[id];
      if t.status == TaskRolledBack { return Ok; }
      v := MarkReverted(t, agent, clock.Now());
      if v != Ok { return; }
      ghost var c, o := Updated(t.Val()), C.CompleteRollback(s, id, agent, clock.now);
      assert var end := C.Finish(Projection.Apply(s, c), t.releaseId, clock.now);
        o == C.Outcome.Outcome(end.verdict, [c] + end.changes);
      TaskHasRelease(s, id, clock.now);
      Changed(t);
      v := FinishTask(t);
      Close(s, log, o.changes) by {
        Laws.CompleteRollbackLawful(s, id, agent, clock.now);
      }
    }

    /** Emit the task, then roll its release back once every task is. */
    method FinishTask(t: LiveTask) returns (v: Verdict)
      requires TiedBut(t) && Logged() && t.releaseId in shown.releases
      modifies repr
      ensures Linked() && Grew()
      ensures var c := Updated(old(t.Val()));
        var end := C.Finish(Projection.Apply(old(shown), c), t.releaseId, clock.now);
        && v == end.verdict && shown == ApplyAll(old(shown), [c] + end.changes)
        && Emitted(old(st.events), st.events, [c] + end.changes, clock.now)
    {
      hide Tied, Logged, Emitted, C.Finish, Projection.Apply;
      ghost var s, log, c := shown, st.events, Updated(t.Val());
      v := EmitTask(t);
      ghost var mid, s1 := st.events, shown;
      ReleasesKept(s, c, t.releaseId);
      InRepr();
      v := FinishRollback(t.releaseId);
      ghost var end := C.Finish(s1, t.releaseId, clock.now);
      EmittedThen(log, mid, st.events, [c], end.changes, clock.now);
      ApplyThen(s, c, end.changes);
    }

    // ---- releases

    /** A new id from the generator. */
    method NewId(prefix: string) returns (id: string)
      requires Linked()
      modifies ids
      ensures Linked() && id != "" && id !in old(ids.issued) && id in ids.issued && old(ids.issued) <= ids.issued
    {
      hide Tied, DurableStore.Valid, SequenceID.Valid, Stamped, Covered;
      InRepr();
      id := ids.New(prefix);
      StillTied();
    }

    lemma KeysWereIssued()
      requires Linked()
      ensures shown.releases.Keys <= ids.issued && shown.tasks.Keys <= ids.issued
    {}

    /** The loop of CreateRelease: one new task per device, in order. */
    method CreateTasks(rid: string, devs: seq<string>) returns (ghost tids: seq<string>)
      requires Linked()
      modifies repr
      ensures Linked() && Grew() && C.Distinct(tids) && |tids| == |devs|
      ensures forall x :: x in tids ==> x !in old(ids.issued) && x in ids.issued
      ensures shown == ApplyAll(old(shown), C.NewTasks(rid, devs, tids, clock.now))
      ensures Emitted(old(st.events), st.events, C.NewTasks(rid, devs, tids, clock.now), clock.now)
    {
      hide Tied, Logged, Emitted, ApplyAll, Projection.Apply, C.NewTasks;
      ghost var s, log, issued, now := shown, st.events, ids.issued, clock.now;
      tids := [];
      InRepr();
      CreateStarts(s, rid, devs, now);
      EmittedNothing(log, now);
      for i := 0 to |devs|
        invariant Linked() && Grew() && issued <= ids.issued
        invariant |tids| == i && C.Distinct(tids) && (forall x :: x in tids ==> x !in issued && x in ids.issued)
        invariant shown == ApplyAll(s, C.NewTasks(rid, devs[..i], tids, now))
        invariant Emitted(log, st.events, C.NewTasks(rid, devs[..i], tids, now), now)
      {
        InRepr();
        var tid := NewId("task");
        var t := new LiveTask(C.NewTask(tid, rid, devs[i], clock.Now()));
        ghost var before, sofar, d := st.events, C.NewTasks(rid, devs[..i], tids, now),
          Change(TaskCreated, TaskData(t.Val()));
        NewTasksSnoc(rid, devs, i, tids, tid, now);
        ApplySnoc(s, sofar, d);
        var v := Emit(TaskCreated, tid, TaskData(t.Val()));
        EmittedThen(log, before, st.events, sofar, [d], now);
        DistinctSnoc(tids, tid);
        tids := tids + [tid];
      }
      assert devs[..|devs|] == devs;
    }

    /** Emits the release, then one task per device. */
    method CreateRelease(version: string, devs: seq<string>, batch: int, conc: int, retries: int,
                         policy: RollbackPolicy)
      returns (v: Verdict, rid: string, ghost tids: seq<string>)
      requires Valid()
      modifies repr
      ensures Grew()
      ensures v != Ok ==> Untouched()
      ensures v == Ok <==> !C.BadRelease(version, devs, batch, conc, retries)
      ensures v == Ok ==> |tids| == |devs| && rid !in old(shown).releases && Laws.FreshIds(old(shown), tids)
      ensures v == Ok ==>
        var o := C.CreateRelease(version, devs, batch, conc, retries, policy, rid, tids, clock.now);
        o.verdict == Ok && Performed(old(shown), old(st.events), o.changes)
      ensures v != Ok ==> v == Refused(BadArgument) && Performed(old(shown), old(st.events), [])
    {
      hide Tied, Logged, Emitted, ValidLog, Replay, LawfulRun, Coherent, ApplyAll, Projection.Apply, C.NewTasks;
      ghost var s, log, issued := shown, st.events, ids.issued;
      tids := [];
      Begin();
      KeysWereIssued();
      if version == "" || |devs| == 0 || batch < 1 || conc < 1 || retries < 0 { return Refused(BadArgument), "", []; }
      rid := NewId("rel");
      var now := clock.Now();
      var r := new LiveRelease(C.NewRelease(version, devs, batch, conc, retries, policy, rid, now));
      ghost var c := Change(ReleaseCreated, ReleaseData(r.Val()));
      v := Emit(ReleaseCreated, rid, ReleaseData(r.Val()));
      ghost var mid, s1 := st.events, shown;
      InRepr();
      tids := CreateTasks(rid, devs);
      ghost var o := C.CreateRelease(version, devs, batch, conc, retries, policy, rid, tids, now);
      EmittedThen(log, mid, st.events, [c], C.NewTasks(rid, devs, tids, now), now);
      ApplyThen(s, c, C.NewTasks(rid, devs, tids, now));
      assert Laws.FreshIds(s, tids);
      Close(s, log, o.changes) by {
        Laws.CreateReleaseLawful(s, version, devs, batch, conc, retries, policy, rid, tids, now);
      }
    }

    method ReleaseProgress(rid: string) returns (p: R.Progress)
      requires Tied()
      ensures p == R.ReleaseProgress(shown, rid)
    {
      hide Tied, C.TasksOf, C.WithStatus, Counted;
      LookRelease(rid);
      if rid !in releases { return R.Missing; }
      KeysTied();
      var completed, total, failed := 0, 0, 0;
      var left := tasks.Keys;
      CountedEnds(shown, rid, completed, total, failed);
      while left != {}
        invariant left <= tasks.Keys && Counted(shown, rid, left, completed, total, failed)
      {
        var k :| k in left;
        LookTask(k);
        var t := tasks[k];
        CountedOne(shown, rid, left, completed, total, failed, k);
        left := left - {k};
        if t.releaseId != rid { continue; }
        total := total + 1;
        if t.status == TaskCompleted {
          completed := completed + 1;
        }
        if t.status == TaskFailed {
          failed := failed + 1;
        }
      }
      CountedEnds(shown, rid, completed, total, failed);
      p := R.Counts(completed, total, failed, total != |releases[rid].devices|);
    }

    // ---- dispatch

    /** scheduler.Active over the tasks of a release. */
    method CountActive(rid: string) returns (active: nat)
      requires Tied()
      ensures active == |D.ActiveTasks(shown, rid)|
    {
      hide Tied, D.ActiveTasks;
      KeysTied();
      active := 0;
      var left := tasks.Keys;
      ActiveEnds(shown, rid);
      while left != {}
        invariant left <= tasks.Keys && active == |D.ActiveTasks(shown, rid) - left|
      {
        var k :| k in left;
        LookTask(k);
        OneActive(shown, rid, left, k);
        var t := tasks[k];
        left := left - {k};
        if t.releaseId == rid && (t.status == TaskInstalling || t.status == TaskAwaiting) {
          active := active + 1;
        }
      }
    }

    method DispatchDecision(rid: string) returns (d: D.Decision)
      requires Tied()
      ensures d == D.DecisionFor(shown, rid)
    {
      hide Tied, D.ActiveTasks;
      LookRelease(rid);
      if rid !in releases { return D.Decision.Decision(false, D.ReleaseNotFound, 0, 0); }
      var r := releases[rid];
      var active := CountActive(rid);
      var capacity := r.maxConcurrent - active;
      if capacity > r.batchSize {
        capacity := r.batchSize;
      }
      if capacity < 0 {
        capacity := 0;
      }
      if Terminal(r.Val()) { return D.Decision.Decision(false, D.ReleaseTerminal, capacity, active); }
      if r.status == StatusPaused { return D.Decision.Decision(false, D.ReleasePaused, capacity, active); }
      if r.status == StatusRollbackPending {
        return D.Decision.Decision(false, D.ReleaseRollingBack, capacity, active);
      }
      if capacity <= 0 { return D.Decision.Decision(false, D.LimitReached, 0, active); }
      return D.Decision.Decision(true, D.None, capacity, active);
    }

    /** The eligible tasks of a device, each once, in dispatch order. */
    method EligibleTasks(device: string, now: Time) returns (sorted: seq<Task>)
      requires Tied()
      ensures Lists(shown, sorted, D.Eligible(shown, device, now))
      ensures Sorted(sorted, ByCreation(Created(shown)))
    {
      hide Tied, Lists, Sorted, Orders, ByCreation, D.DecisionFor;
      KeysTied();
      var out := [];
      ghost var all := D.Eligible(shown, device, now);
      ListStarts(shown, all);
      var left := tasks.Keys;
      while left != {}
        invariant left <= tasks.Keys && Lists(shown, out, all - left)
      {
        var k :| k in left;
        LookTask(k);
        ListOne(shown, out, all, left, k);
        var t := tasks[k];
        left := left - {k};
        if t.deviceId != device || (t.status != TaskQueued && t.status != TaskRejected) { continue; }
        if t.nextRetry != ZERO_TIME && now < t.nextRetry { continue; }
        var d := DispatchDecision(t.releaseId);
        if !d.allowed { continue; }
        out := out + [t.Val()];
      }
      ListEnds(shown, out, all);
      CreationTimes();
      var created := map k | k in releases :: releases[k].createdAt;
      ByCreationOrders(created);
      sorted := SortSlice(out, ByCreation(created));
      ListPermuted(shown, out, sorted, all);
    }

    lemma CreationTimes()
      requires Tied()
      ensures (map k | k in releases :: releases[k].createdAt) == Created(shown)
    {}

    /** The release part of the critical section. */
    method OpenRelease(rid: string) returns (v: Verdict)
      requires Linked() && rid in shown.releases
      modifies repr
      ensures v == Ok && Linked() && Grew()
      ensures shown == ApplyAll(old(shown), D.Opening(old(shown), rid, clock.now))
      ensures Emitted(old(st.events), st.events, D.Opening(old(shown), rid, clock.now), clock.now)
    {
      hide Tied, TiedButRelease, Logged, Emitted;
      EmittedNothing(st.events, clock.now);
      LookRelease(rid);
      InRepr();
      var r := releases[rid];
      if r.status != StatusQueued { return Ok; }
      v := r.Transition(StatusPreflight);
      r.updatedAt := clock.Now();
      ChangedRelease(r);
      ApplyOne(shown, Rewritten(r.Val()));
      v := EmitRelease(r);
    }

    /** Choose, check and lease; the nil check and the second look at the gate cannot fail under the lock. */
    method LeaseNext(device: string, agent: string, ttl: int) returns (v: Verdict, rid: string, ghost c: Change)
      requires Linked() && Coherent(shown, clock.now)
      modifies repr
      ensures Linked() && Grew()
      ensures v != Ok ==> Untouched()
      ensures var o := D.ClaimLocked(old(shown), device, agent, ttl, clock.now);
        && v == o.verdict
        && (v != Ok ==> o.changes == [] && shown == old(shown) && st.events == old(st.events))
        && (v == Ok ==> rid in old(shown).releases && o.changes == [c] + D.Opening(old(shown), rid, clock.now)
                        && c.kind == TaskUpdated && c.data.TaskData?
                        && shown == Projection.Apply(old(shown), c)
                        && Emitted(old(st.events), st.events, [c], clock.now))
    {
      hide Tied, TiedBut, Logged, Emitted, Coherent, Lists, Sorted, D.Eligible, D.DecisionFor, D.IsHead, D.Opening,
           Projection.Apply, Leased;
      ghost var s, keys := shown, D.Eligible(shown, device, clock.now);
      rid, c := "", Change(TaskUpdated, Opaque(""));
      InRepr();
      var items := EligibleTasks(device, clock.Now());
      ListSize(s, items, keys);
      if |items| == 0 { v := Refused(NoTask); return; }
      FirstIsHead(s, items, keys);
      D.HeadUnique(s, keys, items[0].id, D.Head(s, keys));
      EligibleOpen(s, device, items[0].id, clock.now);
      LookTask(items[0].id);
      var t := tasks[items[0].id];
      rid := t.releaseId;
      var again := DispatchDecision(rid);
      if !again.allowed { assert false; }
      v := t.Lease(agent, clock.Now(), ttl);
      if v != Ok { return; }
      Changed(t);
      c := Updated(t.Val());
      v := EmitTask(t);
    }

    method ClaimWithTTL(device: string, agent: string, ttl: int) returns (v: Verdict)
      requires Valid()
      modifies repr
      ensures Grew()
      ensures v != Ok ==> Untouched()
      ensures var o := D.Claim(old(shown), device, agent, ttl, clock.now);
        v == o.verdict && Performed(old(shown), old(st.events), o.changes)
    {
      hide Tied, Logged, Emitted, ValidLog, Replay, LawfulRun, Coherent, D.ClaimLocked, D.Opening, Projection.Apply;
      ghost var s, log := shown, st.events;
      Begin();
      if device == "" || agent == "" { return Refused(BadArgument); }
      if ttl <= 0 || ttl > HOUR { return Refused(BadArgument); }
      LookDevice(device);
      if device !in devices { return Refused(NotFound); }
      if !devices[device].online { return Refused(DeviceOffline); }
      var rid: string;
      ghost var c: Change;
      v, rid, c := LeaseNext(device, agent, ttl);
      if v != Ok {
        EmittedNothing(log, clock.now);
        Close(s, log, D.Claim(s, device, agent, ttl, clock.now).changes) by {
          Laws.ClaimLawful(s, device, agent, ttl, clock.now);
        }
        return;
      }
      InRepr();
      ghost var mid, s1 := st.events, shown;
      ReleasesKept(s, c, rid);
      OpeningKept(s, s1, rid, clock.now);
      v := OpenRelease(rid);
      EmittedThen(log, mid, st.events, [c], D.Opening(s, rid, clock.now), clock.now);
      ApplyThen(s, c, D.Opening(s, rid, clock.now));
      Close(s, log, D.Claim(s, device, agent, ttl, clock.now).changes) by {
        Laws.ClaimLawful(s, device, agent, ttl, clock.now);
      }
    }

    // ---- recovery

    /** Install the releases of a checkpoint in empty maps. */
    method RestoreReleases(s: State)
      modifies this`releases, this`devices, this`tasks, this`shown, this`repr
      ensures Shows() && shown == State(s.releases, map[], map[]) && fresh(repr - {this, st, ids})
    {
      releases, devices, tasks, shown, repr := map[], map[], map[], EMPTY, {this, st, ids};
      assert Shows();
      hide Shows, Without;
      NothingRestored(s);
      var left := s.releases.Keys;
      while left != {}
        invariant left <= s.releases.Keys && Shows() && fresh(repr - {this, st, ids})
        invariant shown == State(Without(s.releases, left), map[], map[])
      {
        var k :| k in left;
        OneRestored(s.releases, left, k);
        InstallRelease(k, s.releases[k]);
        left := left - {k};
      }
    }

    /** Install all records of a checkpoint. */
    method Restore(s: State)
      modifies this`releases, this`devices, this`tasks, this`shown, this`repr
      ensures Shows() && shown == s && fresh(repr - {this, st, ids})
    {
      hide Shows, Without;
      RestoreReleases(s);
      NothingRestored(s);
      var left := s.devices.Keys;
      while left != {}
        invariant left <= s.devices.Keys && Shows() && fresh(repr - {this, st, ids})
        invariant shown == State(s.releases, Without(s.devices, left), map[])
      {
        var k :| k in left;
        OneRestored(s.devices, left, k);
        InstallDevice(k, s.devices[k]);
        left := left - {k};
      }
      left := s.tasks.Keys;
      while left != {}
        invariant left <= s.tasks.Keys && Shows() && fresh(repr - {this, st, ids})
        invariant shown == State(s.releases, s.devices, Without(s.tasks, left))
      {
        var k :| k in left;
        OneRestored(s.tasks, left, k);
        InstallTask(k, s.tasks[k]);
        left := left - {k};
      }
    }

    /** The loop of Recover: apply every event of the log. */
    method ApplyEvents(log: seq<Event>)
      requires Shows()
      modifies this
      ensures Shows() && Grew()
      ensures Checkpoint(shown, audit) == Checkpoint(ApplyAll(old(shown), ChangesOf(log)), AuditAll(old(audit), log))
    {
      hide Shows, Projection.Apply, Audited;
      ReplayStarts(shown, audit);
      for i := 0 to |log|
        invariant Shows() && Grew()
        invariant shown == ApplyAll(old(shown), ChangesOf(log[..i])) && audit == AuditAll(old(audit), log[..i])
      {
        ReplayOne(old(shown), old(audit), log, i);
        Apply(log[i]);
      }
      assert log[..|log|] == log;
    }

    /** Continue from the log as it was found. */
    ghost method Adopt(log: seq<Event>)
      requires Tied() && Faithful(st.codec) && forall e :: e in log ==> e.id != ""
      requires st.log == Encoded(st.Lined(), log) && SoundFile(st.snapshot, st.version, log)
      requires ids.Valid() && audit == log && LogSound(log, shown, ids.issued, clock.now)
      modifies st`events, st`history
      ensures Linked() && st.events == log
    {
      st.Adopt(log);
    }

    /** Recover ignores the error of Load: what does not load is taken as empty. */
    method Recover() returns (err: LoadError, found: seq<Stored>, report: Report)
      modifies this, st`log
      ensures Shows() && fresh(repr - {this, st, ids})
      ensures Checkpoint(shown, audit) == Rebuilt(st.snapshot, st.version, found)
      ensures err == Loaded <==> Loads(st.snapshot, st.version)
      ensures err != Loaded ==> found == [] && st.log == old(st.log)
      ensures err == Loaded && st.truncateCorrupt ==> Recovered(st.Lined(), old(st.log), st.log, found, report)
      ensures err == Loaded && !st.truncateCorrupt ==>
        st.log == old(st.log) && found == AllGood(st.Lined(), Lines(st.log))
    {
      hide Shows, AuditAll, ApplyAll, Recovered;
      var checkpoint;
      err, checkpoint, found, report := st.LoadReport();
      audit := if |found| > 0 then [] else checkpoint.audit;
      Restore(checkpoint.state);
      ReplayStarts(shown, audit);
      ApplyEvents(found);
    }

    /**
      Restart after a crash at any sound point: the live maps are the projection of the surviving records, whatever the
      snapshot holds. If the torn tail, should there be one, lost more than its newline, the service is valid again.
     */
    method RecoverAt(ghost p: CrashPoint) returns (err: LoadError)
      requires Faithful(st.codec) && st.truncateCorrupt && Possible(st.Lined(), p) && SoundPoint(p, st.version)
      requires st.log == BytesAt(st.Lined(), p) && st.snapshot == p.snapshot
      requires var sur := Surviving(st.Lined(), p);
        ids.Valid() && ValidLog(sur) && LogSound(sur, Replay(sur), ids.issued, clock.now)
      modifies this, st
      ensures err == Loaded && Tied() && fresh(repr - {this, st, ids})
      ensures var sur := Surviving(st.Lined(), p);
        && shown == Replay(sur) && audit == sur
        && (Clean(st.Lined(), p) ==> Valid() && st.events == sur)
    {
      hide Tied, Possible, BytesAt, ValidLog, LogSound, Replay, Encoded, Keyed, Faithful, Recovered, Rebuilt, Clean,
           Surviving, SoundCheckpoint;
      LineCodecFaithful(st.codec, st.version);
      PointLoads(p, st.version);
      var found, report;
      err, found, report := Recover();
      SoundLoad(st.Lined(), st.version, p, st.log, found, report);
      LogKeyed(found);
      TiedIfKeyed();
      if Clean(st.Lined(), p) { Adopt(found); }
    }

    /** Every durable state any run of commands went through recovers to the projection of a valid prefix of its log. */
    lemma EveryCrashRecovers(p: CrashPoint)
      requires Durable() && p in st.history
      ensures SoundAt(st.Lined(), st.version, p, st.events)
      ensures var sur := Surviving(st.Lined(), p);
        && ValidLog(sur) && LogSound(sur, Replay(sur), ids.issued, clock.now)
        && GoodPrefix(st.Lined(), Lines(BytesAt(st.Lined(), p))) == sur
        && Rebuilt(p.snapshot, st.version, sur) == Checkpoint(Replay(sur), sur)
    {
      hide Tied, ValidLog, Replay, BytesAt, SoundPoint, Surviving, Possible, DistinctIds,
        Faithful, LogSound, Lines, GoodPrefix, Rebuilt;
      LineCodecFaithful(st.codec, st.version);
      SurvivorsSound(p);
      ValidLogDistinct(Surviving(st.Lined(), p));
      CrashRecovers(st.Lined(), st.version, p);
    }

    /** The surviving records of a sound point of this log are themselves a valid, sound log. */
    lemma SurvivorsSound(p: CrashPoint)
      requires Durable() && SoundAt(st.Lined(), st.version, p, st.events)
      ensures var sur := Surviving(st.Lined(), p); ValidLog(sur) && LogSound(sur, Replay(sur), ids.issued, clock.now)
    {
      var sur := Surviving(st.Lined(), p);
      assert sur == st.events[..|sur|];
      PrefixSound(st.events, |sur|, ids.issued, clock.now);
    }

    /** What a crash inside the next append leaves. */
    lemma TornPoint(next: Stored, k: nat)
      requires Valid() && k < |st.Lined().encode(next)|
      ensures var p := CrashPoint(st.events, Some(next), k, st.snapshot);
        && SoundAt(st.Lined(), st.version, p, st.events) && Clean(st.Lined(), p)
        && Surviving(st.Lined(), p) == st.events
        && BytesAt(st.Lined(), p) == st.log + st.Lined().encode(next)[..k]
    {
      hide Tied, ValidLog, Replay, LogSound, LineCodec, Encoded;
    }

    // ---- the passing of time

    lemma StillDue()
      requires Valid()
      ensures clock.now > ZERO_TIME && LastTime(st.events) <= clock.now
    {
      hide Tied, ValidLog, Replay, DurableStore.Valid;
    }

    /** The clock may be moved, even back: the service stays valid exactly if it does not fall behind the last entry. */
    method Wait(d: int)
      requires Valid()
      modifies clock
      ensures clock.now == old(clock.now) + d
      ensures Valid() <==> clock.now > ZERO_TIME && LastTime(st.events) <= clock.now
    {
      hide TiedReleases, TiedDevices, TiedTasks, LogSound, ValidLog, Replay, DurableStore.Valid;
      LogSoundLater(st.events, shown, ids.issued, clock.now, clock.now + d);
      clock.Advance(d);
    }
  }

  // ---- starting

  /** A service on an empty disk is valid and empty. */
  method Open(codec: Codec<Envelope>, version: int, clock: Clock, wall: nat) returns (s: Service)
    requires Faithful(codec) && clock.now > ZERO_TIME
    ensures fresh(s) && fresh(s.repr) && s.clock == clock && s.st.codec == codec
    ensures s.Valid() && s.shown == EMPTY && s.st.events == [] && s.audit == []
  {
    hide ValidLog, Replay, LogSound, Surviving, BytesAt, SoundPoint, Possible, Clean, Faithful;
    var st := new DurableStore(codec, version, true, [], Absent);
    var ids := new SequenceID(wall, {});
    s := new Service(st, clock, ids);
    ghost var p := CrashPoint([], None, 0, Absent);
    EmptyDisk(st.Lined(), version, ids.issued, clock.now);
    var _ := s.RecoverAt(p);
  }

  lemma EmptyDisk(l: Codec<Stored>, version: int, issued: set<string>, now: Time)
    requires now > ZERO_TIME
    ensures var p := CrashPoint([], None, 0, Absent);
      && Possible(l, p) && SoundPoint(p, version) && Clean(l, p) && Surviving(l, p) == [] && BytesAt(l, p) == []
    ensures ValidLog([]) && Replay([]) == EMPTY && LogSound([], Replay([]), issued, now)
  {}

  // ---- restarts

  /**
    A new process on what a crash of another left on disk, at any sound point of its log, with a clock that did not fall
    behind and a later wall time: it shows the projection of the surviving records, and is valid again unless just the
    newline of the last one was lost. The dead service need not have been valid: it may have panicked.
   */
  method Reboot(ghost dead: Service, ghost p: CrashPoint, codec: Codec<Envelope>,
                version: int, log: bytes, snapshot: SnapshotFile, clock: Clock, wall: nat)
    returns (s: Service)
    requires dead.Durable() && SoundAt(dead.st.Lined(), dead.st.version, p, dead.st.events)
    requires codec == dead.st.codec && version == dead.st.version
    requires log == BytesAt(dead.st.Lined(), p) && snapshot == p.snapshot
    requires clock.now >= dead.clock.now && wall > dead.ids.wall
    ensures fresh(s) && s.Tied() && fresh(s.repr) && s.clock == clock
    ensures var sur := Surviving(dead.st.Lined(), p);
      && s.shown == Replay(sur) && s.audit == sur && sur <= dead.st.events
      && (Clean(dead.st.Lined(), p) ==> s.Valid() && s.st.events == sur)
  {
    hide ValidLog, Replay, LogSound, Surviving, BytesAt, SoundPoint, Possible, Clean, Faithful;
    dead.SurvivorsSound(p);
    RestartSound(Surviving(dead.st.Lined(), p), dead.ids.issued, dead.clock.now, clock.now);
    dead.ids.MadeBefore(wall);
    var ids := new SequenceID(wall, dead.ids.issued);
    var st := new DurableStore(codec, version, true, log, snapshot);
    s := new Service(st, clock, ids);
    var _ := s.RecoverAt(p);
  }

  lemma RestartSound(log: seq<Event>, issued: set<string>, now: Time, later: Time)
    requires LogSound(log, Replay(log), issued, now) && now <= later
    ensures LogSound(log, Replay(log), issued, later)
  {
    LogSoundLater(log, Replay(log), issued, now, later);
    LastBefore(log, now);
    hide Stamped, Replay;
  }

  lemma LastBefore(log: seq<Event>, now: Time)
    requires Stamped(log, now)
    ensures LastTime(log) <= now
  {}

  /**
    A run: claim, wait, die with any k bytes of the next record written, and come back in a new process. Nothing logged
    is lost: the new service is valid, with the lease of the claim if there was one.
   */
  method ClaimWaitCrash(s: Service, device: string, agent: string, ttl: int, d: nat, next: Stored, k: nat)
    returns (v: Verdict, s2: Service)
    requires s.Valid() && k < |s.st.Lined().encode(next)|
    modifies s.repr, s.clock
    ensures s2.Valid() && fresh(s2)
    ensures var o := D.Claim(old(s.shown), device, agent, ttl, old(s.clock.now));
      && v == o.verdict && s2.shown == ApplyAll(old(s.shown), o.changes)
      && Emitted(old(s.st.events), s2.st.events, o.changes, old(s.clock.now))
  {
    hide ValidLog, Replay, Emitted, D.Claim, Surviving, BytesAt, SoundAt, Clean, LogSound, Stamped;
    v := s.ClaimWithTTL(device, agent, ttl);
    s.StillDue();
    s.Wait(d);
    var line := s.st.Lined().encode(next);
    s.TornPoint(next, k);
    s.ValidDurable();
    ghost var p := CrashPoint(s.st.events, Some(next), k, s.st.snapshot);
    s2 := Reboot(s, p, s.st.codec, s.st.version, s.st.log + line[..k], s.st.snapshot, s.clock, s.ids.wall + 1);
  }
}
