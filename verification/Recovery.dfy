/** Rebuilding the state from whatever snapshot exists plus the log (internal/service/service.go, Recover). */
module Recovery {
  import opened Domain
  import opened Projection
  import opened Journal
  import opened Store
  import opened Lifecycle

  // ---- the audit list

  /** apply appends an event to the audit list unless the last entry already has its id. */
  function Audited(audit: seq<Event>, e: Event): seq<Event> {
    if audit == [] || audit[|audit| - 1].id != e.id then audit + [e] else audit
  }

  function AuditAll(audit: seq<Event>, log: seq<Event>): seq<Event> {
    if log == [] then audit else Audited(AuditAll(audit, log[..|log| - 1]), log[|log| - 1])
  }

  predicate DistinctIds(log: seq<Event>) {
    forall i, j :: 0 <= i < j < |log| ==> log[i].id != log[j].id
  }

  lemma DistinctInit(log: seq<Event>)
    requires DistinctIds(log) && log != []
    ensures var n := |log| - 1;
      DistinctIds(log[..n]) && Audited(log[..n], log[n]) == log
  {
    var n := |log| - 1;
    assert log[..n] + [log[n]] == log;
  }

  lemma {:induction false} AuditIsLog(log: seq<Event>)
    requires DistinctIds(log)
    ensures AuditAll([], log) == log
  {
    hide DistinctIds, Audited;
    if log != [] {
      DistinctInit(log);
      AuditIsLog(log[..|log| - 1]);
    }
  }

  // ---- the whole of Recover

  /** Recover's result: the audit list restarts from the log when the log has any event. */
  function Recover(c: Checkpoint, log: seq<Event>): Checkpoint {
    Checkpoint(ApplyAll(c.state, ChangesOf(log)), AuditAll(if log != [] then [] else c.audit, log))
  }

  /**
    Recovery forgets the snapshot: on top of any sound snapshot, however new, stale or full of unlogged changes,
    replaying the log gives exactly the projection of the log from nothing, and the audit list is the log.
   */
  lemma RecoverForgetsSnapshot(c: Checkpoint, log: seq<Event>)
    requires SoundCheckpoint(c, log) && DistinctIds(log)
    ensures Recover(c, log) == Checkpoint(Replay(log), log)
  {
    ReplayOverlays(c.state, ChangesOf(log));
    assert Overlay(c.state, Replay(log)) == Replay(log);
    AuditIsLog(log);
  }

  /** The condition is exact for the maps: any other snapshot survives into the recovered state. */
  lemma RecoverForgetsExactly(c: Checkpoint, log: seq<Event>)
    ensures Recover(c, log).state == Replay(log) <==> Covered(c.state, Replay(log))
  {
    ReplayOverlays(c.state, ChangesOf(log));
    var o, r := Overlay(c.state, Replay(log)), Replay(log);
    if Covered(c.state, r) {
      assert o == r;
    } else {
      assert c.state.releases.Keys <= o.releases.Keys && c.state.devices.Keys <= o.devices.Keys &&
        c.state.tasks.Keys <= o.tasks.Keys;
    }
  }

  lemma {:induction false} ValidLogDistinct(log: seq<Event>)
    requires ValidLog(log)
    ensures DistinctIds(log)
  {
    if log != [] {
      var n := |log| - 1;
      ValidLogDistinct(log[..n]);
      assert NextStamp(log[..n], log[n]);
      hide ValidLog;
      forall i, j | 0 <= i < j < |log| ensures log[i].id != log[j].id {
        assert log[..n][i] == log[i];
        if j < n { assert log[..n][j] == log[j]; }
      }
    }
  }

  /** From any sound crash point, load and recover give the projection of the surviving records. */
  lemma CrashRecovers(l: Codec<Stored>, version: int, p: CrashPoint)
    requires Faithful(l) && Possible(l, p) && SoundPoint(p, version) && DistinctIds(Surviving(l, p))
    ensures GoodPrefix(l, Lines(BytesAt(l, p))) == Surviving(l, p)
    ensures Rebuilt(p.snapshot, version, Surviving(l, p)) == Checkpoint(Replay(Surviving(l, p)), Surviving(l, p))
  {
    CrashLoad(l, p);
    var c := Loadable(p.snapshot);
    assert p.events <= Surviving(l, p);
    CoveredLater(c.state, p.events, Surviving(l, p));
    RecoverForgetsSnapshot(c, Surviving(l, p));
  }

  // ---- the loops of Recover

  function Without<V>(m: map<string, V>, left: set<string>): map<string, V> {
    map k | k in m && k !in left :: m[k]
  }

  lemma NothingRestored(s: State)
    ensures Without(s.releases, s.releases.Keys) == map[] && Without(s.releases, {}) == s.releases
    ensures Without(s.devices, s.devices.Keys) == map[] && Without(s.devices, {}) == s.devices
    ensures Without(s.tasks, s.tasks.Keys) == map[] && Without(s.tasks, {}) == s.tasks
  {}

  lemma OneRestored<V>(m: map<string, V>, left: set<string>, k: string)
    requires k in left && k in m
    ensures Without(m, left - {k}) == Without(m, left)[k := m[k]]
  {}

  lemma ReplayStarts(s: State, audit: seq<Event>)
    ensures ApplyAll(s, ChangesOf([])) == s && AuditAll(audit, []) == audit
  {}

  lemma ReplayOne(s: State, audit: seq<Event>, log: seq<Event>, i: nat)
    requires i < |log|
    ensures ApplyAll(s, ChangesOf(log[..i + 1])) == Apply(ApplyAll(s, ChangesOf(log[..i])), ChangeOf(log[i]))
    ensures AuditAll(audit, log[..i + 1]) == Audited(AuditAll(audit, log[..i]), log[i])
  {
    assert log[..i + 1][..i] == log[..i];
    assert ChangesOf(log[..i + 1])[..i] == ChangesOf(log[..i]);
  }

  /** What a truncating load makes of any sound crash point. */
  lemma SoundLoad(l: Codec<Stored>, version: int, p: CrashPoint, log: bytes, found: seq<Stored>, r: Report)
    requires Faithful(l) && Possible(l, p) && SoundPoint(p, version) && ValidLog(Surviving(l, p))
    requires Recovered(l, BytesAt(l, p), log, found, r)
    ensures found == Surviving(l, p) && (Clean(l, p) ==> log == Encoded(l, found))
    ensures SoundFile(p.snapshot, version, found)
    ensures Rebuilt(p.snapshot, version, found) == Checkpoint(Replay(found), found)
  {
    hide Faithful, ValidLog, DistinctIds, Replay, Encoded, Lines, GoodPrefix, BadLines,
      Kept, BytesAt, Recover, Clean, SoundCheckpoint;
    CrashLoad(l, p);
    ValidLogDistinct(Surviving(l, p));
    SurvivorsFollow(l, p);
    SoundLater(p.snapshot, version, p.events, Surviving(l, p));
    CheckpointSound(p.snapshot, version, Surviving(l, p));
    RecoverForgetsSnapshot(Loadable(p.snapshot), Surviving(l, p));
  }

  lemma SurvivorsFollow(l: Codec<Stored>, p: CrashPoint)
    ensures p.events <= Surviving(l, p)
  {}

  lemma CheckpointSound(f: SnapshotFile, version: int, log: seq<Event>)
    requires SoundFile(f, version, log)
    ensures Loads(f, version) && SoundCheckpoint(Loadable(f), log)
  {}

  // ---- snapshots that do not load

  /** LoadReport accepts the snapshot file. */
  predicate Loads(f: SnapshotFile, version: int) {
    f.Absent? || (f.Written? && f.version == version)
  }

  function Loadable(f: SnapshotFile): Checkpoint {
    if f.Written? then f.checkpoint else Checkpoint(EMPTY, [])
  }

  /**
    What Recover leaves: it ignores the error of a snapshot that does not load, and then has neither snapshot nor
    events.
   */
  function Rebuilt(f: SnapshotFile, version: int, found: seq<Event>): Checkpoint {
    if Loads(f, version) then Recover(Loadable(f), found) else Checkpoint(EMPTY, [])
  }

  lemma LogKeyed(log: seq<Event>)
    requires ValidLog(log)
    ensures Keyed(Replay(log))
  {
    ValidLogCoherent(log, LastTime(log));
    hide ValidLog, Replay;
  }

  lemma PointLoads(p: CrashPoint, version: int)
    requires SoundPoint(p, version)
    ensures Loads(p.snapshot, version)
  {}

  lemma NonEmptyProjection(log: seq<Event>)
    requires ValidLog(log) && log != []
    ensures Replay(log) != EMPTY
  {
    var n := |log| - 1;
    var s, c := Replay(log[..n]), ChangeOf(log[n]);
    ReplayStep(log[..n], log[n]);
    assert log[..n] + [log[n]] == log;
    hide ValidLog, Replay;
    KeyWritten(s, c, log[n].at);
  }

  lemma KeyWritten(s: State, c: Change, now: Time)
    requires Lawful(s, c, now)
    ensures Apply(s, c) != EMPTY
  {
    var s' := Apply(s, c);
    match c.data
    case TaskData(t) => assert t.id in s'.tasks;
    case ReleaseData(r) => assert r.id in s'.releases;
    case DeviceData(d) => assert d.id in s'.devices;
    case Opaque(_) =>
  }

  /**
    Over a snapshot file that is sound if it loads, Recover yields the projection of the log exactly when the file
    loads, or there is no log: with a corrupt or wrong-version snapshot the service starts empty beside an intact log.
   */
  lemma RebuildsExactly(f: SnapshotFile, version: int, log: seq<Event>)
    requires ValidLog(log) && (Loads(f, version) ==> SoundCheckpoint(Loadable(f), log))
    ensures Rebuilt(f, version, log).state == Replay(log) <==> Loads(f, version) || log == []
  {
    if Loads(f, version) {
      ValidLogDistinct(log);
      RecoverForgetsSnapshot(Loadable(f), log);
    } else if log != [] {
      NonEmptyProjection(log);
    }
    hide ValidLog, Recover, SoundCheckpoint;
  }
}
