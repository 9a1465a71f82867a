/**
  The commands as one transition system. A step is one call with everything the runtime chose for it (fresh ids, the
  orders in which maps are visited, the pick among ties), cut off by a crash after some number of its records or not.
 */
module Calls {
  import opened Domain
  import opened Projection
  import opened Lifecycle
  import opened CommandLaws
  import opened Entries
  import opened Runs
  import opened Releases
  import opened Guarantees
  import C = Commands
  import D = Dispatch

  datatype Call =
    | RegisterDevice(id: string, firmware: string, capabilities: seq<string>)
    | DeviceHeartbeat(id: string, online: bool)
    | CreateRelease(version: string, devices: seq<string>, batch: int, conc: int, retries: int,
                    policy: RollbackPolicy, rid: string, tids: seq<string>)
    | SetRelease(id: string, todo: C.ReleaseAction)
    | RequestRollback(id: string)
    | UpdateTask(id: string, action: C.TaskAction, reason: string)
    | ReportPreflight(id: string, ok: bool, detail: string)
    | RetryTask(id: string)
    | Claim(device: string, agent: string, ttl: int)
    | StartTask(id: string, agent: string)
    | RejectTask(id: string, agent: string, reason: string)
    | FailTask(id: string, agent: string, reason: string, retryable: bool)
    | ReportProgress(id: string, agent: string, percent: int, detail: string)
    | ConfirmInstall(id: string, agent: string)
    | RenewLease(id: string, agent: string, ttl: int)
    | QueueRollback(rid: string, reason: string, order: seq<string>)
    | ClaimRollback(device: string, agent: string, pick: string)
    | CompleteRollback(id: string, agent: string)
    | ReapExpired(order: seq<string>, rids: seq<string>)

  /** What the runtime may choose: unused ids, an order that visits every key once, one of the oldest candidates. */
  ghost predicate May(s: State, call: Call, now: Time) {
    match call
    case CreateRelease(_, devices, _, _, _, _, rid, tids) =>
      |tids| == |devices| && rid != "" && rid !in s.releases && FreshIds(s, tids)
    case QueueRollback(_, _, order) => C.Visits(order, s.tasks.Keys)
    case ReapExpired(order, rids) => C.Visits(order, s.tasks.Keys) && C.Visits(rids, C.ReapedReleases(s, now))
    case ClaimRollback(device, _, pick) =>
      C.RollbackCandidates(s, device) != {} ==> C.Oldest(s, C.RollbackCandidates(s, device), pick)
    case _ => true
  }

  lemma Visited(order: seq<string>, keys: set<string>)
    requires C.Visits(order, keys)
    ensures forall k :: k in order ==> k in keys
  {
    assert forall k :: k in order ==> k in C.KeysOf(order);
  }

  ghost function Perform(s: State, call: Call, now: Time): C.Outcome
    requires May(s, call, now)
  {
    match call
    case RegisterDevice(id, firmware, capabilities) => C.RegisterDevice(id, firmware, capabilities, now)
    case DeviceHeartbeat(id, online) => C.DeviceHeartbeat(s, id, online, now)
    case CreateRelease(version, devices, batch, conc, retries, policy, rid, tids) =>
      C.CreateRelease(version, devices, batch, conc, retries, policy, rid, tids, now)
    case SetRelease(id, todo) => C.SetRelease(s, id, todo, now)
    case RequestRollback(id) => C.RequestRollback(s, id, now)
    case UpdateTask(id, action, reason) => C.UpdateTask(s, id, action, reason, now)
    case ReportPreflight(id, ok, detail) => C.ReportPreflight(s, id, ok, detail, now)
    case RetryTask(id) => C.RetryTask(s, id, now)
    case Claim(device, agent, ttl) => D.Claim(s, device, agent, ttl, now)
    case StartTask(id, agent) => C.StartTask(s, id, agent, now)
    case RejectTask(id, agent, reason) => C.RejectTask(s, id, agent, reason, now)
    case FailTask(id, agent, reason, retryable) => C.FailTask(s, id, agent, reason, retryable, now)
    case ReportProgress(id, agent, percent, detail) => C.ReportProgress(s, id, agent, percent, detail, now)
    case ConfirmInstall(id, agent) => C.ConfirmInstall(s, id, agent, now)
    case RenewLease(id, agent, ttl) => C.RenewLease(s, id, agent, ttl, now)
    case QueueRollback(rid, reason, order) =>
      Visited(order, s.tasks.Keys);
      C.QueueRollback(s, rid, reason, order, now)
    case ClaimRollback(device, agent, pick) => C.ClaimRollback(s, device, agent, pick, now)
    case CompleteRollback(id, agent) => C.CompleteRollback(s, id, agent, now)
    case ReapExpired(order, rids) =>
      Visited(order, s.tasks.Keys);
      C.ReapExpired(s, order, rids, now)
  }

  // ---- every call emits a lawful run

  lemma ReapCallLawful(s: State, order: seq<string>, rids: seq<string>, now: Time)
    requires Coherent(s, now) && now > 0 && May(s, ReapExpired(order, rids), now)
    ensures LawfulRun(s, Perform(s, ReapExpired(order, rids), now).changes, now)
  {
    Visited(order, s.tasks.Keys);
    Visited(rids, C.ReapedReleases(s, now));
    forall k | k in rids ensures k in s.releases {
      var id :| id in C.Reaped(s, now) && s.tasks[id].releaseId == k;
      TaskHasRelease(s, id, now);
    }
    hide *;
    ReapExpiredLawful(s, order, rids, now);
  }

  /** Every call, by whichever agent and whatever the runtime chooses, emits only lawful records. */
  lemma CallLawful(s: State, call: Call, now: Time)
    requires Coherent(s, now) && now > 0 && May(s, call, now)
    ensures LawfulRun(s, Perform(s, call, now).changes, now)
  {
    hide Coherent, LawfulRun, C.RegisterDevice, C.DeviceHeartbeat, C.CreateRelease, C.SetRelease, C.RequestRollback;
    hide C.UpdateTask, C.ReportPreflight, C.RetryTask, D.Claim, C.StartTask, C.RejectTask, C.FailTask, C.ReportProgress;
    hide C.ConfirmInstall, C.RenewLease, C.QueueRollback, C.ClaimRollback, C.CompleteRollback, C.ReapExpired, FreshIds;
    match call
    case RegisterDevice(id, firmware, caps) => DeviceCommandsLawful(s, id, firmware, caps, true, now);
    case DeviceHeartbeat(id, online) => DeviceCommandsLawful(s, id, "", [], online, now);
    case CreateRelease(version, devices, batch, conc, retries, policy, rid, tids) =>
      CreateReleaseLawful(s, version, devices, batch, conc, retries, policy, rid, tids, now);
    case SetRelease(id, todo) => ReleaseCommandsLawful(s, id, todo, now);
    case RequestRollback(id) => ReleaseCommandsLawful(s, id, C.Pause, now);
    case UpdateTask(id, action, reason) => UpdateTaskLawful(s, id, action, reason, now);
    case ReportPreflight(id, ok, detail) => ReportPreflightLawful(s, id, ok, detail, now);
    case RetryTask(id) => RetryTaskLawful(s, id, now);
    case Claim(device, agent, ttl) => ClaimLawful(s, device, agent, ttl, now);
    case StartTask(id, agent) => StartTaskLawful(s, id, agent, now);
    case RejectTask(id, agent, reason) => RejectTaskLawful(s, id, agent, reason, now);
    case FailTask(id, agent, reason, retryable) => FailTaskLawful(s, id, agent, reason, retryable, now);
    case ReportProgress(id, agent, percent, detail) => ReportProgressLawful(s, id, agent, percent, detail, now);
    case ConfirmInstall(id, agent) => ConfirmInstallLawful(s, id, agent, now);
    case RenewLease(id, agent, ttl) => RenewLeaseLawful(s, id, agent, ttl, now);
    case QueueRollback(rid, reason, order) =>
      Visited(order, s.tasks.Keys);
      QueueRollbackLawful(s, rid, reason, order, now);
    case ClaimRollback(device, agent, pick) => ClaimRollbackLawful(s, device, agent, pick, now);
    case CompleteRollback(id, agent) => CompleteRollbackLawful(s, id, agent, now);
    case ReapExpired(order, rids) => ReapCallLawful(s, order, rids, now);
  }

  // ---- runs of calls

  datatype Step = Step(call: Call, kept: nat, at: Time)

  ghost predicate Happens(s: State, step: Step, s': State) {
    && step.at > 0 && May(s, step.call, step.at)
    && var cs := Perform(s, step.call, step.at).changes;
       step.kept <= |cs| && s' == ApplyAll(s, cs[..step.kept])
  }

  function LastAt(steps: seq<Step>): Time { if steps == [] then ZERO_TIME else steps[|steps| - 1].at }

  /** From the empty state, with a clock that never goes back. */
  ghost predicate CallRun(states: seq<State>, steps: seq<Step>) {
    && |states| == |steps| + 1
    && if steps == [] then states[0] == EMPTY
       else
         var n := |steps| - 1;
         && CallRun(states[..n + 1], steps[..n]) && LastAt(steps[..n]) <= steps[n].at
         && Happens(states[n], steps[n], states[n + 1])
  }

  ghost predicate Reachable(s: State, now: Time) {
    exists states, steps :: CallRun(states, steps) && states[|steps|] == s && LastAt(steps) <= now
  }

  lemma {:induction false} CallRunPrefix(states: seq<State>, steps: seq<Step>, n: nat)
    requires CallRun(states, steps) && n <= |steps|
    ensures CallRun(states[..n + 1], steps[..n])
    ensures n < |steps| ==> Happens(states[n], steps[n], states[n + 1]) && LastAt(steps[..n]) <= steps[n].at
  {
    hide Happens;
    if n == |steps| {
      assert states[..n + 1] == states && steps[..n] == steps;
    } else if n < |steps| - 1 {
      var m := |steps| - 1;
      CallRunPrefix(states[..m + 1], steps[..m], n);
      assert states[..m + 1][..n + 1] == states[..n + 1] && steps[..m][..n] == steps[..n];
    }
  }

  // ---- every run of calls has a valid log

  ghost predicate Logged(s: State, now: Time) {
    exists log: seq<Event> :: ValidLog(log) && Replay(log) == s && LastTime(log) <= now
  }

  function Longest(log: seq<Event>): nat {
    if log == [] then 0
    else
      var n := |log| - 1;
      if |log[n].id| > Longest(log[..n]) then |log[n].id| else Longest(log[..n])
  }

  lemma {:induction false} LongestIs(log: seq<Event>, i: nat)
    requires i < |log|
    ensures |log[i].id| <= Longest(log)
  {
    var n := |log| - 1;
    if i < n {
      LongestIs(log[..n], i);
      assert log[..n][i] == log[i];
    }
  }

  /** A lawful change can always be logged. */
  lemma LoggedStep(s: State, c: Change, now: Time, later: Time)
    requires Logged(s, now) && now <= later && later > 0 && Lawful(s, c, later)
    ensures Logged(Apply(s, c), later)
  {
    var log: seq<Event> :| ValidLog(log) && Replay(log) == s && LastTime(log) <= now;
    var id := seq(Longest(log) + 1, i => '0');
    var e := Event(id, c.kind, "", c.data, later);
    forall i | 0 <= i < |log| ensures log[i].id != id { LongestIs(log, i); }
    assert id != "" && ChangeOf(e) == c && LastTime(log + [e]) == later;
    hide ValidLog, Replay, Lawful, Longest;
    OneMoreEntry(log, e);
  }

  lemma {:induction false} LoggedRun(s: State, cs: seq<Change>, now: Time, later: Time)
    requires Logged(s, now) && now <= later && later > 0 && LawfulRun(s, cs, later)
    ensures Logged(ApplyAll(s, cs), later)
  {
    hide Lawful, Apply, ValidLog, Replay;
    if cs != [] {
      var n := |cs| - 1;
      LoggedRun(s, cs[..n], now, later);
      hide Logged;
      LoggedStep(ApplyAll(s, cs[..n]), cs[n], later, later);
    }
  }

  lemma LoggedCoherent(s: State, now: Time)
    requires Logged(s, now)
    ensures Coherent(s, now) && StatusesSound(s) && AllQuiet(s)
  {
    var log: seq<Event> :| ValidLog(log) && Replay(log) == s && LastTime(log) <= now;
    hide *;
    ValidLogCoherent(log, now);
    StatusesStaySound(log);
    CompletedStaysQuiet(log);
  }

  lemma StepLogged(s: State, step: Step, s': State, now: Time)
    requires Logged(s, now) && now <= step.at && Happens(s, step, s')
    ensures Coherent(s, step.at) && StatusesSound(s) && AllQuiet(s) && Logged(s', step.at)
  {
    var cs := Perform(s, step.call, step.at).changes;
    LoggedCoherent(s, now);
    hide Logged, Coherent, StatusesSound, AllQuiet, May, Perform, ApplyAll, LawfulRun;
    CoherentLater(s, now, step.at);
    CallLawful(s, step.call, step.at);
    PrefixLawful(s, cs, step.kept, step.at);
    LoggedRun(s, cs[..step.kept], now, step.at);
  }

  /** What holds of the states of valid logs holds of every state that calls and crashes reach. */
  lemma {:induction false} CallRunLogged(states: seq<State>, steps: seq<Step>)
    requires CallRun(states, steps)
    ensures Logged(states[|steps|], LastAt(steps))
  {
    hide Logged, Happens;
    if steps == [] {
      EmptyLogged();
    } else {
      var n := |steps| - 1;
      CallRunLogged(states[..n + 1], steps[..n]);
      StepLogged(states[n], steps[n], states[n + 1], LastAt(steps[..n]));
    }
  }

  lemma EmptyLogged()
    ensures Logged(EMPTY, ZERO_TIME)
  {
    assert ValidLog([]) && Replay([]) == EMPTY && LastTime([]) == 0;
  }

  lemma StateInRun(states: seq<State>, steps: seq<Step>, n: nat)
    requires CallRun(states, steps) && n < |steps|
    ensures Happens(states[n], steps[n], states[n + 1])
    ensures Coherent(states[n], steps[n].at) && StatusesSound(states[n]) && AllQuiet(states[n])
  {
    CallRunPrefix(states, steps, n);
    hide CallRun, Happens, Logged, Coherent, StatusesSound, AllQuiet;
    CallRunLogged(states[..n + 1], steps[..n]);
    StepLogged(states[n], steps[n], states[n + 1], LastAt(steps[..n]));
  }

  lemma ReachableSound(s: State, now: Time)
    requires Reachable(s, now)
    ensures Coherent(s, now) && StatusesSound(s) && AllQuiet(s)
  {
    var states: seq<State>, steps: seq<Step> :|
      CallRun(states, steps) && states[|steps|] == s && LastAt(steps) <= now;
    hide CallRun, Reachable, Logged, Coherent, StatusesSound, AllQuiet;
    CallRunLogged(states, steps);
    LoggedCoherent(s, LastAt(steps));
    CoherentLater(s, LastAt(steps), now);
  }

  lemma NothingReachable()
    ensures Reachable(EMPTY, ZERO_TIME)
  {
    assert CallRun([EMPTY], []);
  }

  /** An uninterrupted call. */
  lemma ReachableCall(s: State, call: Call, now: Time, later: Time)
    requires Reachable(s, now) && now <= later && later > 0 && May(s, call, later)
    ensures Reachable(ApplyAll(s, Perform(s, call, later).changes), later)
  {
    CallHappens(s, call, later);
    hide Happens, May, Perform, ApplyAll, CallRun;
    var s' := ApplyAll(s, Perform(s, call, later).changes);
    var step := Step(call, |Perform(s, call, later).changes|, later);
    var states: seq<State>, steps: seq<Step> :|
      CallRun(states, steps) && states[|steps|] == s && LastAt(steps) <= now;
    RunExtended(states, steps, step, s');
    assert (steps + [step])[|steps|] == step && (states + [s'])[|steps| + 1] == s' by { RunLength(states, steps); }
    hide Reachable;
    ReachedBy(states + [s'], steps + [step], later);
  }

  lemma ReachedBy(states: seq<State>, steps: seq<Step>, now: Time)
    requires CallRun(states, steps) && LastAt(steps) <= now
    ensures Reachable(states[|steps|], now)
  {
    hide CallRun, LastAt;
  }

  lemma RunLength(states: seq<State>, steps: seq<Step>)
    requires CallRun(states, steps)
    ensures |states| == |steps| + 1
  {}

  lemma CallHappens(s: State, call: Call, now: Time)
    requires now > 0 && May(s, call, now)
    ensures var cs := Perform(s, call, now).changes; Happens(s, Step(call, |cs|, now), ApplyAll(s, cs))
  {
    var cs := Perform(s, call, now).changes;
    assert cs[..|cs|] == cs;
    hide May, Perform, ApplyAll;
  }

  lemma Unsnoc<T>(xs: seq<T>, x: T)
    ensures (xs + [x])[..|xs|] == xs
  {}

  lemma RunExtended(states: seq<State>, steps: seq<Step>, step: Step, s': State)
    requires CallRun(states, steps) && LastAt(steps) <= step.at && Happens(states[|steps|], step, s')
    ensures CallRun(states + [s'], steps + [step])
  {
    hide Happens, LastAt;
    var n, ss, ts := |steps|, states + [s'], steps + [step];
    Unsnoc(states, s');
    Unsnoc(steps, step);
    assert |states| == n + 1 && ss[n] == states[n] && ss[n + 1] == s';
    assert CallRun(ss[..n + 1], ts[..n]) && LastAt(ts[..n]) <= ts[n].at && Happens(ss[n], ts[n], ss[n + 1]);
  }
}
