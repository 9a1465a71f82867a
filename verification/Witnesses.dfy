/** Inputs for each property the code does not keep: every state here is reached by calls of the service's commands. */
module Witnesses {
  import opened Domain
  import opened Projection
  import opened Commands
  import opened Dispatch
  import opened Lifecycle
  import opened CommandLaws
  import opened Runs
  import opened Releases
  import opened Guarantees
  import opened Integrity
  import Calls

  // ---- one release, its tasks, its devices

  const FLEET: map<string, Device> :=
    map["x" := Device("x", "", [], 1, 1, true), "y" := Device("y", "", [], 1, 1, true)]
  const POLICY := RollbackPolicy(0, false)

  function Fleet(tasks: map<string, Task>, r: Release): State { State(map[r.id := r], FLEET, tasks) }

  lemma FleetReachable()
    ensures Calls.Reachable(State(map[], FLEET, map[]), 1)
  {
    var s := State(map[], map["x" := FLEET["x"]], map[]);
    Calls.NothingReachable();
    Registered(EMPTY, "x", 0);
    Registered(s, "y", 1);
    assert s.devices["y" := FLEET["y"]] == FLEET;
  }

  /** One more call. */
  lemma Reached(s: State, call: Calls.Call, cs: seq<Change>)
    requires Calls.Reachable(s, 1) && Calls.May(s, call, 1) && Calls.Perform(s, call, 1).changes == cs
    ensures Calls.Reachable(ApplyAll(s, cs), 1)
  {
    Calls.ReachableCall(s, call, 1, 1);
  }

  lemma Registered(s: State, id: string, now: Time)
    requires Calls.Reachable(s, now) && 0 <= now <= 1 && id != ""
    ensures Calls.Reachable(s.(devices := s.devices[id := Device(id, "", [], 1, 1, true)]), 1)
  {
    var cs := Calls.Perform(s, Calls.RegisterDevice(id, "", []), 1).changes;
    Calls.ReachableCall(s, Calls.RegisterDevice(id, "", []), now, 1);
    hide Calls.Reachable;
    ApplyOne(s, cs[0]);
  }

  /** CreateRelease for one device. */
  lemma CreatedReachable(device: string, policy: RollbackPolicy)
    ensures var r := NewRelease("v", [device], 1, 1, 0, policy, "r", 1);
      Calls.Reachable(Fleet(map["t" := NewTask("t", "r", device, 1)], r), 1)
  {
    var s, r := State(map[], FLEET, map[]), NewRelease("v", [device], 1, 1, 0, policy, "r", 1);
    var c, d := Change(ReleaseCreated, ReleaseData(r)), Change(TaskCreated, TaskData(NewTask("t", "r", device, 1)));
    var o := CreateRelease("v", [device], 1, 1, 0, policy, "r", ["t"], 1);
    assert o.changes == [c, d];
    FleetReachable();
    Reached(s, Calls.CreateRelease("v", [device], 1, 1, 0, policy, "r", ["t"]), o.changes);
    ApplyTwo(s, c, d);
  }

  lemma TwoTasks(s: State, t: Task, u: Task)
    ensures ApplyAll(s, [Change(TaskCreated, TaskData(t)), Change(TaskCreated, TaskData(u))])
      == s.(tasks := s.tasks[t.id := t][u.id := u])
  {
    ApplyTwo(s, Change(TaskCreated, TaskData(t)), Change(TaskCreated, TaskData(u)));
  }

  const GATED := NewRelease("v", ["x", "y"], 1, 1, 0, POLICY, "r", 1)
  const P := NewTask("p", "r", "x", 1)
  const Q := NewTask("q", "r", "y", 1)

  /** CreateRelease for two devices with room for one. */
  lemma GatedReachable()
    ensures Calls.Reachable(Fleet(map["p" := P, "q" := Q], GATED), 1)
  {
    var s := State(map[], FLEET, map[]);
    var c, ts := Change(ReleaseCreated, ReleaseData(GATED)),
      [Change(TaskCreated, TaskData(P)), Change(TaskCreated, TaskData(Q))];
    var o := CreateRelease("v", ["x", "y"], 1, 1, 0, POLICY, "r", ["p", "q"], 1);
    assert NewTasks("r", ["x", "y"], ["p", "q"], 1) == ts;
    assert o.changes == [c] + ts;
    FleetReachable();
    Reached(s, Calls.CreateRelease("v", ["x", "y"], 1, 1, 0, POLICY, "r", ["p", "q"]), o.changes);
    ApplyOne(s, c);
    ApplyAllSplit(s, [c], ts);
    TwoTasks(Apply(s, c), P, Q);
    assert map["p" := P][ "q" := Q] == map["p" := P, "q" := Q];
  }

  // ---- the gate

  /** A claim whose device has one eligible task, in a release with an open gate. */
  lemma OnlyClaim(s: State, device: string, k: string, agent: string)
    requires device in s.devices && s.devices[device].online && device != "" && agent != ""
    requires Eligible(s, device, 1) == {k} && s.tasks[k].status == TaskQueued && RetryReady(s.tasks[k], 1)
    ensures s.tasks[k].releaseId in s.releases
    ensures Claim(s, device, agent, MINUTE, 1)
      == Accept([Updated(Leased(s.tasks[k], agent, 1, MINUTE))] + Opening(s, s.tasks[k].releaseId, 1))
  {
    assert DecisionFor(s, s.tasks[k].releaseId).allowed by { assert k in Eligible(s, device, 1); }
    assert IsHead(s, {k}, k);
    HeadUnique(s, {k}, k, Head(s, {k}));
    hide DecisionFor, Eligible;
  }

  function Pair(p: Task, q: Task, r: Release): State { Fleet(map["p" := p, "q" := q], r) }

  lemma PairEligible(p: Task, q: Task, r: Release, first: bool)
    requires r == GATED || r == GATED.(status := StatusPreflight)
    requires p.id == "p" && p.deviceId == "x" && p.releaseId == "r" && q == Q &&
      (p == P || (!first && p.status == TaskLeased))
    ensures Eligible(Pair(p, q, r), if first then "x" else "y", 1) == {if first then "p" else "q"}
  {
    var s := Pair(p, q, r);
    assert ActiveTasks(s, "r") == {};
    assert DecisionFor(s, "r").allowed;
    hide DecisionFor;
  }

  lemma PairWrite(p: Task, q: Task, r: Release, u: Task)
    requires u.id == "p" || u.id == "q"
    ensures Apply(Pair(p, q, r), Updated(u)) == if u.id == "p" then Pair(u, q, r) else Pair(p, u, r)
  {
    var m := map["p" := p, "q" := q];
    assert m[u.id := u] == if u.id == "p" then map["p" := u, "q" := q] else map["p" := p, "q" := u];
  }

  lemma FleetRewrite(tasks: map<string, Task>, r: Release, q: Release)
    requires q.id == r.id
    ensures Apply(Fleet(tasks, r), Rewritten(q)) == Fleet(tasks, q)
  {
    assert (map[r.id := r])[q.id := q] == map[q.id := q];
  }

  lemma PairBusy(p: Task, q: Task, r: Release)
    requires p.releaseId == q.releaseId == "r" && r.id == "r" && r.maxConcurrent == 1
    ensures p.status == TaskQueued && q.status == TaskQueued ==> WithinCap(Pair(p, q, r), "r")
    ensures p.status == TaskLeased && q.status == TaskLeased ==> !WithinCap(Pair(p, q, r), "r")
  {
    var s := Pair(p, q, r);
    if p.status == TaskQueued && q.status == TaskQueued { assert BusyTasks(s, "r") == {}; }
    if p.status == TaskLeased && q.status == TaskLeased { assert BusyTasks(s, "r") == {"p", "q"}; }
  }

  /**
    The shipped gate does not count leased tasks: two devices claim both tasks of a new release although MaxConcurrent
    is 1.
   */
  lemma GateExceedsCap()
    ensures var s := Pair(P, Q, GATED);
      var s1 := ApplyAll(s, Claim(s, "x", "a", MINUTE, 1).changes);
      var s2 := ApplyAll(s1, Claim(s1, "y", "b", MINUTE, 1).changes);
      && Calls.Reachable(s, 1) && WithinCap(s, "r")
      && Claim(s, "x", "a", MINUTE, 1).verdict == Ok && Claim(s1, "y", "b", MINUTE, 1).verdict == Ok
      && !WithinCap(s2, "r")
  {
    hide Claim, Eligible, Calls.Reachable, WithinCap, ApplyAll, Apply;
    var u, w, r := Leased(P, "a", 1, MINUTE), Leased(Q, "b", 1, MINUTE), GATED.(status := StatusPreflight);
    var s, s1 := Pair(P, Q, GATED), Pair(u, Q, r);
    GatedReachable();
    PairEligible(P, Q, GATED, true);
    OnlyClaim(s, "x", "p", "a");
    assert Claim(s, "x", "a", MINUTE, 1) == Accept([Updated(u), Rewritten(r)]) by {
      assert Opening(s, "r", 1) == [Rewritten(r)];
    }
    ApplyTwo(s, Updated(u), Rewritten(r));
    PairWrite(P, Q, GATED, u);
    FleetRewrite(map["p" := u, "q" := Q], GATED, r);
    PairEligible(u, Q, r, false);
    OnlyClaim(s1, "y", "q", "b");
    assert Claim(s1, "y", "b", MINUTE, 1) == Accept([Updated(w)]) by { assert Opening(s1, "r", 1) == []; }
    ApplyOne(s1, Updated(w));
    PairWrite(u, Q, r, w);
    PairBusy(P, Q, GATED);
    PairBusy(u, w, r);
  }

  // ---- one task

  function Solo(t: Task, r: Release): State { Fleet(map["t" := t], r) }

  lemma SoloWrite(t: Task, r: Release, u: Task)
    requires u.id == "t"
    ensures Apply(Solo(t, r), Updated(u)) == Solo(u, r)
  {
    assert (map["t" := t])[u.id := u] == map["t" := u];
  }

  predicate IsSolo(t: Task, r: Release) { t.id == "t" && t.releaseId == "r" && r.id == "r" && |r.devices| == 1 }

  function Recounted(t: Task, r: Release): Release {
    var done, fail := if t.status == TaskCompleted then 1 else 0, if t.status == TaskFailed then 1 else 0;
    r.(completed := done, failed := fail, updatedAt := 1,
       status := if fail > r.rollback.maxFailures && r.rollback.auto then StatusRollbackPending
                 else if done == 1 then StatusCompleted else r.status)
  }

  lemma SoloReconciled(t: Task, r: Release)
    requires IsSolo(t, r)
    ensures Reconciled(Solo(t, r), "r", 1) == Recounted(t, r)
  {
    var s := Solo(t, r);
    assert WithStatus(s, "r", TaskCompleted) == if t.status == TaskCompleted then {"t"} else {};
    assert WithStatus(s, "r", TaskFailed) == if t.status == TaskFailed then {"t"} else {};
  }

  lemma SoloSettled(t: Task, r: Release, u: Task)
    requires IsSolo(t, r) && IsSolo(u, r)
    ensures ApplyAll(Solo(t, r), Settle(Solo(t, r), u, 1)) == Solo(u, Recounted(u, r))
  {
    SoloWrite(t, r, u);
    SoloReconciled(u, r);
    FleetRewrite(map["t" := u], r, Recounted(u, r));
    assert Settle(Solo(t, r), u, 1) == [Updated(u), Rewritten(Recounted(u, r))];
    hide Settle, Recounted;
    ApplyTwo(Solo(t, r), Updated(u), Rewritten(Recounted(u, r)));
  }

  function Made(policy: RollbackPolicy): Release { NewRelease("v", ["x"], 1, 1, 0, policy, "r", 1) }

  const T := NewTask("t", "r", "x", 1)
  const LEASED := Leased(T, "a", 1, MINUTE)
  const STARTED := LEASED.(status := TaskInstalling)
  const DONE := Released(STARTED).(status := TaskCompleted)

  function Finished(policy: RollbackPolicy): Release {
    Made(policy).(status := StatusCompleted, completed := 1)
  }

  lemma SoloEligible(policy: RollbackPolicy)
    ensures Eligible(Solo(T, Made(policy)), "x", 1) == {"t"}
  {
    var s := Solo(T, Made(policy));
    assert ActiveTasks(s, "r") == {};
    assert DecisionFor(s, "r").allowed;
    hide DecisionFor;
  }

  lemma LeasedReachable(policy: RollbackPolicy)
    ensures Calls.Reachable(Solo(LEASED, Made(policy).(status := StatusPreflight)), 1)
  {
    var r := Made(policy);
    var s, q := Solo(T, r), r.(status := StatusPreflight);
    hide Claim, Eligible, Calls.Reachable;
    CreatedReachable("x", policy);
    SoloEligible(policy);
    OnlyClaim(s, "x", "t", "a");
    assert Opening(s, "r", 1) == [Rewritten(q)];
    Reached(s, Calls.Claim("x", "a", MINUTE), [Updated(LEASED), Rewritten(q)]);
    ApplyTwo(s, Updated(LEASED), Rewritten(q));
    SoloWrite(T, r, LEASED);
    FleetRewrite(map["t" := LEASED], r, q);
  }

  lemma StartedReachable(policy: RollbackPolicy)
    ensures Calls.Reachable(Solo(STARTED, Made(policy).(status := StatusPreflight)), 1)
  {
    var r := Made(policy).(status := StatusPreflight);
    var s := Solo(LEASED, r);
    LeasedReachable(policy);
    assert StartTask(s, "t", "a", 1).changes == [Updated(STARTED)];
    hide StartTask, Calls.Reachable;
    Reached(s, Calls.StartTask("t", "a"), [Updated(STARTED)]);
    ApplyOne(s, Updated(STARTED));
    SoloWrite(LEASED, r, STARTED);
  }

  /** A completed release of one device. */
  lemma CompletedReachable(policy: RollbackPolicy)
    requires policy.maxFailures >= 0
    ensures Calls.Reachable(Solo(DONE, Finished(policy)), 1)
  {
    var r := Made(policy).(status := StatusPreflight);
    var s := Solo(STARTED, r);
    StartedReachable(policy);
    assert UpdateTask(s, "t", Complete, "", 1).changes == Settle(s, DONE, 1);
    hide UpdateTask, Calls.Reachable;
    Reached(s, Calls.UpdateTask("t", Complete, ""), Settle(s, DONE, 1));
    SoloSettled(STARTED, r, DONE);
    assert Recounted(DONE, r) == Finished(policy);
  }

  lemma SoloSettledCompleted(policy: RollbackPolicy)
    ensures AllSettled(Solo(DONE, Finished(policy)))
  {
    assert TasksOf(Solo(DONE, Finished(policy)), "r") == {"t"};
  }

  /** An operator's reject takes a task out of a completed release. */
  lemma RejectUnsettles()
    ensures var s := Solo(DONE, Finished(POLICY));
      && Calls.Reachable(s, 1) && AllSettled(s) && UpdateTask(s, "t", Reject, "", 1).verdict == Ok
      && !AllSettled(ApplyAll(s, UpdateTask(s, "t", Reject, "", 1).changes))
  {
    var s := Solo(DONE, Finished(POLICY));
    CompletedReachable(POLICY);
    Calls.ReachableSound(s, 1);
    SoloSettledCompleted(POLICY);
    assert UpdateTask(s, "t", Reject, "", 1).verdict == Ok;
    hide Calls.Reachable, AllSettled, Coherent, StatusesSound, UpdateTask;
    RejectUnsettlesExactly(s, "t", Reject, "", 1);
  }

  /**
    An agent without a name fails a task of a completed release, and the automatic policy reopens it without any order.
   */
  lemma UnnamedFailReopens()
    ensures var policy := RollbackPolicy(0, true);
      var s := Solo(DONE, Finished(policy));
      var o := FailTask(s, "t", "", "boom", false, 1);
      && Calls.Reachable(s, 1) && s.releases["r"].status == StatusCompleted && o.verdict == Ok
      && "r" in ApplyAll(s, o.changes).releases && ApplyAll(s, o.changes).releases["r"].status == StatusRollbackPending
  {
    var policy := RollbackPolicy(0, true);
    var s, u := Solo(DONE, Finished(policy)), DONE.(status := TaskFailed, error := "boom");
    CompletedReachable(policy);
    assert FailTask(s, "t", "", "boom", false, 1) == Accept(Settle(s, u, 1));
    hide FailTask, Calls.Reachable;
    SoloSettled(DONE, Finished(policy), u);
  }

  /** Under any other policy the completed release is left with a failed task. */
  lemma UnnamedFailUnsettles()
    ensures var s := Solo(DONE, Finished(POLICY));
      && Calls.Reachable(s, 1) && AllSettled(s) && FailTask(s, "t", "", "boom", false, 1).verdict == Ok
      && !AllSettled(ApplyAll(s, FailTask(s, "t", "", "boom", false, 1).changes))
  {
    var s := Solo(DONE, Finished(POLICY));
    CompletedReachable(POLICY);
    Calls.ReachableSound(s, 1);
    SoloSettledCompleted(POLICY);
    assert FailTask(s, "t", "", "boom", false, 1).verdict == Ok;
    hide Calls.Reachable, AllSettled, Coherent, StatusesSound, FailTask;
    FailUnsettlesExactly(s, "t", "", "boom", false, 1);
  }

  /**
    An agent without a name fails a task nobody ever claimed, and a retry queues it again: two changes of status, no
    attempt spent. The state is then of the same kind, so there is no bound on how often these two calls succeed.
   */
  lemma UnnamedFailsCycle(x: Time, r: Release)
    requires IsSolo(T, r) && r.retryLimit >= 0
    ensures Calls.Reachable(Solo(T, Made(POLICY)), 1)
    ensures var s, again := Solo(T.(nextRetry := x), r), Recounted(T.(status := TaskFailed), r);
      var s1 := ApplyAll(s, FailTask(s, "t", "", "boom", false, 1).changes);
      var s2 := ApplyAll(s1, RetryTask(s1, "t", 1).changes);
      && FailTask(s, "t", "", "boom", false, 1).verdict == Ok && RetryTask(s1, "t", 1).verdict == Ok
      && "t" in s1.tasks && s1.tasks["t"].status == TaskFailed
      && s2 == Solo(T.(nextRetry := 1), again) && IsSolo(T, again) && again.retryLimit == r.retryLimit
  {
    var t := T.(nextRetry := x);
    var s, u, v := Solo(t, r), t.(status := TaskFailed, error := "boom"), T.(nextRetry := 1);
    CreatedReachable("x", POLICY);
    assert FailTask(s, "t", "", "boom", false, 1) == Accept(Settle(s, u, 1));
    var s1 := Solo(u, Recounted(u, r));
    assert RetryTask(s1, "t", 1) == Accept([Updated(v)]);
    hide Calls.Reachable, FailTask, RetryTask, Settle;
    SoloSettled(t, r, u);
    ApplyOne(s1, Updated(v));
    SoloWrite(u, Recounted(u, r), v);
  }

  /** RejectTask by an agent without a name panics on a task that was just created. */
  lemma RejectPanics()
    ensures var s := Solo(T, Made(POLICY));
      Calls.Reachable(s, 1) && RejectTask(s, "t", "", "", 1).verdict == Refused(Panic)
  {
    CreatedReachable("x", POLICY);
    Calls.ReachableSound(Solo(T, Made(POLICY)), 1);
    hide Calls.Reachable, Coherent;
    PanicsExactly(Solo(T, Made(POLICY)), "t", "", "", true, 1);
  }

  /** The recovery check fails on a release that CreateRelease accepted for an empty device name. */
  lemma CheckFails()
    ensures var s := Fleet(map["t" := NewTask("t", "r", "", 1)], NewRelease("v", [""], 1, 1, 0, POLICY, "r", 1));
      Calls.Reachable(s, 1) && !Related(s, s.tasks["t"])
  {
    CreatedReachable("", POLICY);
    hide Calls.Reachable;
  }

  const SENT_BACK := DONE.(status := TaskRollbackQueued)
  const REVERTING := SENT_BACK.(status := TaskRollingBack, leaseOwner := "b",
                                 leaseUntil := 1 + 5 * MINUTE, attempts := 2)

  lemma SentBackReachable()
    ensures Calls.Reachable(Solo(SENT_BACK, Finished(POLICY).(status := StatusRollbackPending)), 1)
  {
    var r, q := Finished(POLICY), Finished(POLICY).(status := StatusRollbackPending);
    var s, s1 := Solo(DONE, r), Solo(DONE, q);
    CompletedReachable(POLICY);
    assert SetRelease(s, "r", Rollback, 1).changes == [Rewritten(q)];
    hide Calls.Reachable, SetRelease, QueueRollback;
    Reached(s, Calls.SetRelease("r", Rollback), [Rewritten(q)]);
    ApplyOne(s, Rewritten(q));
    FleetRewrite(map["t" := DONE], r, q);
    SoloQueued(q);
    Reached(s1, Calls.QueueRollback("r", "", ["t"]), [Updated(SENT_BACK), Rewritten(q)]);
    ApplyTwo(s1, Updated(SENT_BACK), Rewritten(q));
    SoloWrite(DONE, q, SENT_BACK);
    FleetRewrite(map["t" := SENT_BACK], q, q);
  }

  lemma SoloQueued(q: Release)
    requires q == Finished(POLICY).(status := StatusRollbackPending)
    ensures QueueRollback(Solo(DONE, q), "r", "", ["t"], 1).changes == [Updated(SENT_BACK), Rewritten(q)]
  {
    var s, w := Solo(DONE, q), Reverting("r", "");
    assert ["t"][..0] == [] && SweepLoop(s, w, [], 1) == [];
    assert Swept(s, w, DONE, 1) == Write(SENT_BACK);
    assert SweepLoop(s, w, ["t"], 1) == [Updated(SENT_BACK)];
  }

  function SentBack(): State { Solo(SENT_BACK, Finished(POLICY).(status := StatusRollbackPending)) }

  function RollingBack(agent: string): State {
    Solo(REVERTING.(leaseOwner := agent), Finished(POLICY).(status := StatusRollbackPending))
  }

  lemma RollbackClaimed(agent: string)
    ensures RollbackCandidates(SentBack(), "x") == {"t"}
    ensures ClaimRollback(SentBack(), "x", agent, "t", 1) == Accept([Updated(REVERTING.(leaseOwner := agent))])
    ensures ApplyAll(SentBack(), ClaimRollback(SentBack(), "x", agent, "t", 1).changes) == RollingBack(agent)
  {
    var q, u := Finished(POLICY).(status := StatusRollbackPending), REVERTING.(leaseOwner := agent);
    assert RollbackCandidates(SentBack(), "x") == {"t"};
    assert ClaimRollback(SentBack(), "x", agent, "t", 1).changes == [Updated(u)];
    hide ClaimRollback;
    ApplyOne(SentBack(), Updated(u));
    SoloWrite(SENT_BACK, q, u);
  }

  lemma RevertingReachable(agent: string)
    ensures Calls.Reachable(RollingBack(agent), 1)
  {
    SentBackReachable();
    hide Calls.Reachable, ClaimRollback, ApplyAll, RollbackCandidates;
    RollbackClaimed(agent);
    Reached(SentBack(), Calls.ClaimRollback("x", agent, "t"), [Updated(REVERTING.(leaseOwner := agent))]);
  }

  /** A rollback may be claimed without a name: then the task is active and nobody owns it. */
  lemma UnownedRollback()
    ensures var s' := ApplyAll(SentBack(), ClaimRollback(SentBack(), "x", "", "t", 1).changes);
      && Calls.Reachable(SentBack(), 1) && ClaimRollback(SentBack(), "x", "", "t", 1).verdict == Ok
      && Calls.Reachable(s', 1) && "t" in s'.tasks && IsActive(s'.tasks["t"]) && s'.tasks["t"].leaseOwner == ""
  {
    SentBackReachable();
    hide Calls.Reachable, ClaimRollback, ApplyAll, RollbackCandidates;
    RollbackClaimed("");
    RevertingReachable("");
  }

  /** A rollback is claimed and its release then paused. */
  lemma PausedReachable()
    ensures Calls.Reachable(Solo(REVERTING, Finished(POLICY).(status := StatusPaused)), 1)
  {
    var q, p := Finished(POLICY).(status := StatusRollbackPending), Finished(POLICY).(status := StatusPaused);
    var s1 := Solo(REVERTING, q);
    assert SetRelease(s1, "r", Pause, 1).changes == [Rewritten(p)];
    RevertingReachable("b");
    hide Calls.Reachable, SetRelease;
    Reached(s1, Calls.SetRelease("r", Pause), [Rewritten(p)]);
    ApplyOne(s1, Rewritten(p));
    FleetRewrite(map["t" := REVERTING], q, p);
  }

  /** CompleteRollback rolls the last task back and then returns an error, because the release was paused meanwhile. */
  lemma CompleteRollbackErrs()
    ensures var s := Solo(REVERTING, Finished(POLICY).(status := StatusPaused));
      && Calls.Reachable(s, 1)
      && CompleteRollback(s, "t", "b", 1).changes != [] && CompleteRollback(s, "t", "b", 1).verdict != Ok
  {
    var s := Solo(REVERTING, Finished(POLICY).(status := StatusPaused));
    PausedReachable();
    Calls.ReachableSound(s, 1);
    assert MayFinish(s, "t", "b", 1) && OthersReverted(s, "t");
    hide Calls.Reachable, Coherent, CompleteRollback, MayFinish, OthersReverted;
    CompleteRollbackExactly(s, "t", "b", 1);
  }
}
