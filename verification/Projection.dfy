/** Events, the three record maps they project to, and replay (internal/service/service.go, apply). */
module Projection {
  import opened Domain

  datatype Kind =
    | ReleaseCreated | DeviceRegistered | TaskCreated | TaskUpdated | ReleaseUpdated
    | OtherKind(name: string)

  /** Event.Data decoded. Opaque stands for bytes that decode to no record. */
  datatype Payload = TaskData(task: Task) | ReleaseData(release: Release)
    | DeviceData(device: Device) | Opaque(bytes: string)

  datatype Event = Event(id: string, kind: Kind, aggregate: string, data: Payload, at: Time)

  /** The part of an event the projection depends on. */
  datatype Change = Change(kind: Kind, data: Payload)

  datatype State = State(releases: map<string, Release>, devices: map<string, Device>, tasks: map<string, Task>)

  const EMPTY := State(map[], map[], map[])

  function ChangeOf(e: Event): Change { Change(e.kind, e.data) }

  function Apply(s: State, c: Change): State {
    match c
    case Change(ReleaseCreated, ReleaseData(r)) => s.(releases := s.releases[r.id := r])
    case Change(ReleaseUpdated, ReleaseData(r)) => s.(releases := s.releases[r.id := r])
    case Change(DeviceRegistered, DeviceData(d)) => s.(devices := s.devices[d.id := d])
    case Change(TaskCreated, TaskData(t)) => s.(tasks := s.tasks[t.id := t])
    case Change(TaskUpdated, TaskData(t)) => s.(tasks := s.tasks[t.id := t])
    case _ => s
  }

  function ApplyAll(s: State, cs: seq<Change>): State {
    if cs == [] then s else Apply(ApplyAll(s, cs[..|cs| - 1]), cs[|cs| - 1])
  }

  function ChangesOf(log: seq<Event>): (cs: seq<Change>)
    ensures |cs| == |log|
    ensures forall i :: 0 <= i < |log| ==> cs[i] == ChangeOf(log[i])
  {
    seq(|log|, i requires 0 <= i < |log| => ChangeOf(log[i]))
  }

  /** What Recover computes from an empty snapshot. */
  function Replay(log: seq<Event>): State { ApplyAll(EMPTY, ChangesOf(log)) }

  function Updated(t: Task): Change { Change(TaskUpdated, TaskData(t)) }

  function Rewritten(r: Release): Change { Change(ReleaseUpdated, ReleaseData(r)) }

  lemma {:induction false} ApplyAllSplit(s: State, a: seq<Change>, b: seq<Change>)
    ensures ApplyAll(s, a + b) == ApplyAll(ApplyAll(s, a), b)
  {
    if b == [] {
      assert a + b == a;
    } else {
      var n := |b| - 1;
      ApplyAllSplit(s, a, b[..n]);
      assert (a + b)[..|a + b| - 1] == a + b[..n];
    }
  }

  lemma ApplyOne(s: State, c: Change)
    ensures ApplyAll(s, [c]) == Apply(s, c)
  {
    assert [c][..|[c]| - 1] == [];
  }

  lemma ApplyTwo(s: State, c: Change, d: Change)
    ensures ApplyAll(s, [c, d]) == Apply(Apply(s, c), d)
  {
    ApplyOne(s, c);
    assert [c, d][..|[c, d]| - 1] == [c];
  }

  lemma ReplayStep(log: seq<Event>, e: Event)
    ensures Replay(log + [e]) == Apply(Replay(log), ChangeOf(e))
  {
    assert ChangesOf(log + [e])[..|log|] == ChangesOf(log);
  }

  lemma ReplaySplit(log: seq<Event>, more: seq<Event>)
    ensures Replay(log + more) == ApplyAll(Replay(log), ChangesOf(more))
  {
    assert ChangesOf(log + more) == ChangesOf(log) + ChangesOf(more);
    ApplyAllSplit(EMPTY, ChangesOf(log), ChangesOf(more));
  }

  // ---- replay on top of a snapshot

  /** The records of b win over those of a. */
  function Overlay(a: State, b: State): State {
    State(a.releases + b.releases, a.devices + b.devices, a.tasks + b.tasks)
  }

  predicate Covered(a: State, b: State) {
    a.releases.Keys <= b.releases.Keys && a.devices.Keys <= b.devices.Keys && a.tasks.Keys <= b.tasks.Keys
  }

  /** Every record is stored under its id. */
  predicate Keyed(s: State) {
    && (forall k :: k in s.releases ==> s.releases[k].id == k)
    && (forall k :: k in s.devices ==> s.devices[k].id == k)
    && (forall k :: k in s.tasks ==> s.tasks[k].id == k)
  }

  lemma KeyedKept(s: State, c: Change)
    requires Keyed(s)
    ensures Keyed(Apply(s, c))
  {}

  lemma ApplyOverlay(a: State, b: State, c: Change)
    ensures Apply(Overlay(a, b), c) == Overlay(a, Apply(b, c))
  {
    match c
    case Change(ReleaseCreated, ReleaseData(r)) => OverlayPut(a.releases, b.releases, r.id, r);
    case Change(ReleaseUpdated, ReleaseData(r)) => OverlayPut(a.releases, b.releases, r.id, r);
    case Change(DeviceRegistered, DeviceData(d)) => OverlayPut(a.devices, b.devices, d.id, d);
    case Change(TaskCreated, TaskData(t)) => OverlayPut(a.tasks, b.tasks, t.id, t);
    case Change(TaskUpdated, TaskData(t)) => OverlayPut(a.tasks, b.tasks, t.id, t);
    case _ =>
  }

  lemma OverlayPut<V>(a: map<string, V>, b: map<string, V>, k: string, v: V)
    ensures (a + b)[k := v] == a + b[k := v]
  {}

  /** The last change of every key wins, whatever the base holds. */
  lemma {:induction false} ReplayOverlays(base: State, cs: seq<Change>)
    ensures ApplyAll(base, cs) == Overlay(base, ApplyAll(EMPTY, cs))
  {
    if cs == [] {
      assert Overlay(base, EMPTY) == base;
    } else {
      ReplayOverlays(base, cs[..|cs| - 1]);
      ApplyOverlay(base, ApplyAll(EMPTY, cs[..|cs| - 1]), cs[|cs| - 1]);
    }
  }

  lemma {:induction false} KeysGrow(s: State, cs: seq<Change>)
    ensures Covered(s, ApplyAll(s, cs))
  {
    if cs != [] { KeysGrow(s, cs[..|cs| - 1]); }
  }
}
