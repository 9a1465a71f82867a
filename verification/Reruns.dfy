/** Restart on the heap: a rollback cut off by a crash, a new process, and the same command again. */
module Reruns {
  import opened Domain
  import opened Projection
  import opened Journal
  import opened Store
  import opened Entries
  import opened Lifecycle
  import opened Recovery
  import opened Records
  import opened Restart
  import opened Service
  import C = Commands
  import R = Runs

  /** A log that is cut off among the records of one command replays to the state after so many of its records. */
  lemma CutState(log: seq<Event>, cut: seq<Event>, all: seq<Event>, cs: seq<Change>, at: Time) returns (n: nat)
    requires log <= cut <= all && Emitted(log, all, cs, at)
    ensures n == |cut| - |log| <= |cs| == |all| - |log| && Replay(cut) == ApplyAll(Replay(log), cs[..n])
  {
    n := |cut| - |log|;
    assert cut == log + cut[|log|..];
    assert ChangesOf(cut[|log|..]) == cs[..n];
    hide Replay, Emitted, ApplyAll;
    ReplaySplit(log, cut[|log|..]);
  }

  lemma FirstEmitted(log: seq<Event>, all: seq<Event>, cs: seq<Change>, at: Time)
    requires Emitted(log, all, cs, at) && cs != []
    ensures |log| < |all| && all[|log|].at == at && all[..|log|] == log && LastTime(all) == at
  {
    assert all[|log|] == all[|log|..][0] && all[|all| - 1] == all[|log|..][|cs| - 1];
  }

  /** The command found a coherent state, since the log was valid and its entries carry the time of the command. */
  lemma StartSound(log: seq<Event>, all: seq<Event>, cs: seq<Change>, at: Time)
    requires ValidLog(all) && Emitted(log, all, cs, at) && cs != []
    ensures at > 0 && Coherent(Replay(log), at) && at == LastTime(all)
  {
    FirstEmitted(log, all, cs, at);
    hide ValidLog, Replay, Coherent, Emitted, LastTime, Lawful;
    R.EntryLawful(all, |log|);
  }

  /** Whether QueueRollback is accepted does not depend on the order in which it would visit the tasks. */
  lemma AnyOrderAccepted(s: State, rid: string, reason: string, order: seq<string>, reason2: string,
                         order2: seq<string>, now: Time)
    requires forall k :: k in order ==> k in s.tasks
    requires forall k :: k in order2 ==> k in s.tasks
    ensures C.QueueRollback(s, rid, reason, order, now).verdict == C.QueueRollback(s, rid, reason2, order2, now).verdict
  {}

  /** The log was written by a QueueRollback accepted in the state that its first part replays to. */
  ghost predicate RollbackLogged(log: seq<Event>, all: seq<Event>, rid: string, reason: string, order: seq<string>,
                                 at: Time) {
    && C.Visits(order, Replay(log).tasks.Keys) && (forall k :: k in order ==> k in Replay(log).tasks)
    && C.QueueRollback(Replay(log), rid, reason, order, at).verdict == Ok
    && Emitted(log, all, C.QueueRollback(Replay(log), rid, reason, order, at).changes, at)
  }

  lemma RollbackKnown(log: seq<Event>, all: seq<Event>, rid: string, reason: string, order: seq<string>, at: Time)
    requires RollbackLogged(log, all, rid, reason, order, at)
    ensures C.Visits(order, Replay(log).tasks.Keys) && forall k :: k in order ==> k in Replay(log).tasks
    ensures var o := C.QueueRollback(Replay(log), rid, reason, order, at);
      o.verdict == Ok && o.changes != [] && Emitted(log, all, o.changes, at)
  {
    SomethingWritten(Replay(log), rid, reason, order, at);
  }

  /** The value side: in the state that survives, the command is accepted again in any order. */
  lemma RerunAccepted(log: seq<Event>, cut: seq<Event>, all: seq<Event>, rid: string, reason: string,
                      order: seq<string>, at: Time, reason2: string, order2: seq<string>, later: Time)
    requires ValidLog(all) && RollbackLogged(log, all, rid, reason, order, at) && log <= cut <= all
    requires LastTime(all) <= later && C.Visits(order2, Replay(log).tasks.Keys)
    ensures Replay(cut).tasks.Keys == Replay(log).tasks.Keys && forall k :: k in order2 ==> k in Replay(cut).tasks
    ensures var o := C.QueueRollback(Replay(cut), rid, reason2, order2, later);
      o.verdict == Ok && RolledTo(Replay(log), ApplyAll(Replay(cut), o.changes), rid)
    ensures RolledTo(Replay(log), Replay(all), rid)
  {
    RollbackKnown(log, all, rid, reason, order, at);
    hide *;
    var s := Replay(log);
    var cs := C.QueueRollback(s, rid, reason, order, at).changes;
    StartSound(log, all, cs, at);
    var n := CutState(log, cut, all, cs, at);
    var m := CutState(log, all, all, cs, at);
    assert cs[..m] == cs;
    CrashPartlyRolled(s, rid, reason, order, at, n);
    SameKeys(s, Replay(cut), rid);
    RollbackRestarts(s, rid, reason, order, at, n, reason2, order2, later);
  }

  lemma SameKeys(s: State, p: State, rid: string)
    requires PartlyRolled(s, p, rid)
    ensures p.tasks.Keys == s.tasks.Keys
  {}

  /** The same for the order in which the command did visit the tasks, if it visited any. */
  lemma RerunReachesStatuses(log: seq<Event>, cut: seq<Event>, all: seq<Event>, rid: string, reason: string,
                             order: seq<string>, at: Time, reason2: string, order2: seq<string>, later: Time)
    requires ValidLog(all) && RollbackLogged(log, all, rid, reason, order, at) && log <= cut <= all
    requires LastTime(all) <= later && forall k :: k in order2 ==> k in Replay(cut).tasks
    requires var o := C.QueueRollback(Replay(cut), rid, reason2, order2, later);
      o.verdict == Ok ==> C.Visits(order2, Replay(cut).tasks.Keys)
    ensures var o := C.QueueRollback(Replay(cut), rid, reason2, order2, later);
      o.verdict == Ok && RolledTo(Replay(log), ApplyAll(Replay(cut), o.changes), rid)
    ensures RolledTo(Replay(log), Replay(all), rid)
  {
    RollbackKnown(log, all, rid, reason, order, at);
    hide *;
    RerunAccepted(log, cut, all, rid, reason, order, at, reason2, order, later);
    AnyOrderAccepted(Replay(cut), rid, reason2, order, reason2, order2, later);
    RerunAccepted(log, cut, all, rid, reason, order, at, reason2, order2, later);
  }

  lemma SomethingWritten(s: State, rid: string, reason: string, order: seq<string>, at: Time)
    requires forall k :: k in order ==> k in s.tasks
    requires C.QueueRollback(s, rid, reason, order, at).verdict == Ok
    ensures C.QueueRollback(s, rid, reason, order, at).changes != []
  {}

  /** What an accepted QueueRollback of a live service leaves in its log. */
  method RollbackLogs(s: Service, rid: string, reason: string) returns (v: Verdict, ghost order: seq<string>)
    requires s.Valid()
    modifies s.repr
    ensures s.Durable()
    ensures v == Ok ==> RollbackLogged(old(s.st.events), s.st.events, rid, reason, order, s.clock.now)
  {
    hide *;
    s.ValidShown();
    ghost var pre, log := s.shown, s.st.events;
    var queued;
    v, queued, order := s.QueueRollback(rid, reason);
    s.PerformedShown(pre, log, C.QueueRollback(pre, rid, reason, order, s.clock.now).changes);
    s.ValidShown();
    if v == Ok { RollbackIsLogged(log, s.st.events, rid, reason, order, s.clock.now); }
  }

  lemma RollbackIsLogged(log: seq<Event>, all: seq<Event>, rid: string, reason: string, order: seq<string>, at: Time)
    requires C.Visits(order, Replay(log).tasks.Keys) && forall k :: k in order ==> k in Replay(log).tasks
    requires C.QueueRollback(Replay(log), rid, reason, order, at).verdict == Ok
    requires Emitted(log, all, C.QueueRollback(Replay(log), rid, reason, order, at).changes, at)
    ensures RollbackLogged(log, all, rid, reason, order, at)
  {
    hide C.Visits, C.QueueRollback, Emitted, Replay;
  }

  /**
    A service runs QueueRollback, here written to its log after log, and dies at some durable state it recorded while or
    after the command ran. A new process on what is left on disk accepts the command again, and then the tasks and the
    release have the same statuses as if the first run had gone through.
   */
  method RollbackAgain(ghost dead: Service, ghost log: seq<Event>, ghost reason: string, ghost order: seq<string>,
                       ghost at: Time, ghost p: CrashPoint, codec: Codec<Envelope>, version: int, disk: bytes,
                       snapshot: SnapshotFile, clock: Clock, wall: nat, rid: string, reason2: string)
    returns (v: Verdict, s: Service)
    requires dead.Durable() && RollbackLogged(log, dead.st.events, rid, reason, order, at)
    requires p in dead.st.history && Clean(dead.st.Lined(), p) && log <= Surviving(dead.st.Lined(), p)
    requires codec == dead.st.codec && version == dead.st.version
    requires Possible(dead.st.Lined(), p) && disk == BytesAt(dead.st.Lined(), p) && snapshot == p.snapshot
    requires clock.now >= dead.clock.now && wall > dead.ids.wall
    ensures v == Ok && fresh(s) && s.Valid()
    ensures RolledTo(Replay(log), s.shown, rid) && RolledTo(Replay(log), Replay(dead.st.events), rid)
  {
    hide *;
    dead.EveryCrashRecovers(p);
    dead.DurableDue();
    s := Reboot(dead, p, codec, version, disk, snapshot, clock, wall);
    ghost var pre, cut := s.shown, s.st.events;
    var queued;
    ghost var order2;
    v, queued, order2 := s.QueueRollback(rid, reason2);
    s.PerformedShown(pre, cut, C.QueueRollback(pre, rid, reason2, order2, clock.now).changes);
    RerunReachesStatuses(log, cut, dead.st.events, rid, reason, order, at, reason2, order2, clock.now);
  }
}
