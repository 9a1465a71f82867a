/** The claim gate, the choice of the next task, and the claim itself (internal/service/dispatch.go). */
module Dispatch {
  import opened Domain
  import opened Projection
  import opened Commands
  import opened Text

  datatype Reason = None | ReleaseNotFound | ReleaseTerminal | ReleasePaused | ReleaseRollingBack | LimitReached
  datatype Decision = Decision(allowed: bool, reason: Reason, capacity: int, active: int)

  /** scheduler.Active: leased tasks do not count. */
  function ActiveTasks(s: State, rid: string): set<string> {
    set k | k in s.tasks && s.tasks[k].releaseId == rid
            && (s.tasks[k].status == TaskInstalling || s.tasks[k].status == TaskAwaiting)
  }

  /** The tasks Release.Capacity counts. */
  function BusyTasks(s: State, rid: string): set<string> {
    set k | k in s.tasks && s.tasks[k].releaseId == rid && IsBusy(s.tasks[k])
  }

  function Clip(left: int, batch: int): int {
    var c := if left > batch then batch else left;
    if c < 0 then 0 else c
  }

  function DecisionFor(s: State, rid: string): Decision {
    if rid !in s.releases then Decision(false, ReleaseNotFound, 0, 0)
    else
      var r := s.releases[rid];
      var active := |ActiveTasks(s, rid)|;
      var capacity := Clip(r.maxConcurrent - active, r.batchSize);
      if Terminal(r) then Decision(false, ReleaseTerminal, capacity, active)
      else if r.status == StatusPaused then Decision(false, ReleasePaused, capacity, active)
      else if r.status == StatusRollbackPending then Decision(false, ReleaseRollingBack, capacity, active)
      else if capacity <= 0 then Decision(false, LimitReached, 0, active)
      else Decision(true, None, capacity, active)
  }

  /** Release.Capacity. */
  function Capacity(s: State, rid: string): int
    requires rid in s.releases
  {
    var left := s.releases[rid].maxConcurrent - |BusyTasks(s, rid)|;
    if left < 0 then 0 else if left > s.releases[rid].batchSize then s.releases[rid].batchSize else left
  }

  predicate IsEligible(s: State, device: string, t: Task, now: Time) {
    t.deviceId == device && (t.status == TaskQueued || t.status == TaskRejected) &&
    RetryReady(t, now) && DecisionFor(s, t.releaseId).allowed
  }

  function Eligible(s: State, device: string, now: Time): set<string> {
    set k | k in s.tasks && IsEligible(s, device, s.tasks[k], now)
  }

  function CreatedAt(s: State, k: string): Time {
    if k in s.tasks && s.tasks[k].releaseId in s.releases then s.releases[s.tasks[k].releaseId].createdAt else ZERO_TIME
  }

  /** The comparator of EligibleTasks: release creation time, then task id. */
  predicate Precedes(s: State, a: string, b: string) {
    if CreatedAt(s, a) == CreatedAt(s, b) then Less(a, b) else CreatedAt(s, a) < CreatedAt(s, b)
  }

  /** The comparator is a strict total order on distinct ids. */
  lemma PrecedesIsStrictTotal(s: State, a: string, b: string, c: string)
    ensures !Precedes(s, a, a)
    ensures a != b ==> Precedes(s, a, b) != Precedes(s, b, a)
    ensures Precedes(s, a, b) && Precedes(s, b, c) ==> Precedes(s, a, c)
  {
    LessIrreflexive(a);
    LessTotal(a, b);
    if Less(a, b) && Less(b, a) { LessTransitive(a, b, a); }
    if Less(a, b) && Less(b, c) { LessTransitive(a, b, c); }
  }

  predicate IsHead(s: State, keys: set<string>, h: string) {
    h in keys && forall k :: k in keys && k != h ==> Precedes(s, h, k)
  }

  lemma {:induction false} HeadExists(s: State, keys: set<string>)
    requires keys != {}
    ensures exists h :: IsHead(s, keys, h)
  {
    var x :| x in keys;
    var rest := keys - {x};
    if rest == {} {
      assert keys == {x};
      assert IsHead(s, keys, x);
    } else {
      HeadExists(s, rest);
      var h :| IsHead(s, rest, h);
      PrecedesIsStrictTotal(s, x, h, h);
      if Precedes(s, h, x) {
        assert IsHead(s, keys, h);
      } else {
        forall k | k in keys && k != x ensures Precedes(s, x, k) { PrecedesIsStrictTotal(s, x, h, k); }
        assert IsHead(s, keys, x);
      }
    }
  }

  lemma HeadUnique(s: State, keys: set<string>, a: string, b: string)
    requires IsHead(s, keys, a) && IsHead(s, keys, b)
    ensures a == b
  {
    if a != b { PrecedesIsStrictTotal(s, a, b, b); }
  }

  ghost function Head(s: State, keys: set<string>): (h: string)
    requires keys != {}
    ensures IsHead(s, keys, h)
  {
    HeadExists(s, keys);
    var h :| IsHead(s, keys, h);
    h
  }

  /** The part of ClaimWithTTL before the lock: it reads only the device map. */
  function ClaimCheck(s: State, device: string, agent: string, ttl: int): Verdict {
    if device == "" || agent == "" then Refused(BadArgument)
    else if BadTtl(ttl) then Refused(BadArgument)
    else if device !in s.devices then Refused(NotFound)
    else if !s.devices[device].online then Refused(DeviceOffline)
    else Ok
  }

  /** The first claim moves a queued release to preflight. */
  function Opening(s: State, rid: string, now: Time): seq<Change>
    requires rid in s.releases
  {
    var r := s.releases[rid];
    if r.status == StatusQueued then [Rewritten(r.(status := StatusPreflight, updatedAt := now))] else []
  }

  /** The critical section. */
  ghost function ClaimLocked(s: State, device: string, agent: string, ttl: int, now: Time): Outcome {
    var keys := Eligible(s, device, now);
    if keys == {} then Refuse(NoTask)
    else
      var t := s.tasks[Head(s, keys)];
      match LeaseVerdict(t, agent, now)
      case Refused(e) => Refuse(e)
      case Ok =>
        Accept([Updated(Leased(t, agent, now, ttl))] + Opening(s, t.releaseId, now))
  }

  ghost function Claim(s: State, device: string, agent: string, ttl: int, now: Time): Outcome {
    match ClaimCheck(s, device, agent, ttl)
    case Refused(e) => Refuse(e)
    case Ok => ClaimLocked(s, device, agent, ttl, now)
  }

  // ---- what the gate and the choice mean

  /** The shipped gate counts fewer tasks than Release.Capacity, so it is open whenever capacity is left. */
  lemma GateIsLooser(s: State, rid: string)
    requires rid in s.releases && s.releases[rid].batchSize >= 1
    ensures Capacity(s, rid) <= Clip(s.releases[rid].maxConcurrent - |ActiveTasks(s, rid)|, s.releases[rid].batchSize)
    ensures WithStatus(s, rid, TaskLeased) == {} ==>
      Capacity(s, rid) == Clip(s.releases[rid].maxConcurrent - |ActiveTasks(s, rid)|, s.releases[rid].batchSize)
    ensures |BusyTasks(s, rid)| == |ActiveTasks(s, rid)| + |WithStatus(s, rid, TaskLeased)|
  {
    assert BusyTasks(s, rid) == ActiveTasks(s, rid) + WithStatus(s, rid, TaskLeased);
    assert ActiveTasks(s, rid) !! WithStatus(s, rid, TaskLeased);
  }

  /** A claim with good arguments succeeds exactly when the least eligible task is Queued, and then leases that task. */
  lemma ClaimTakesTheHead(s: State, device: string, agent: string, ttl: int, now: Time, h: string)
    requires ClaimCheck(s, device, agent, ttl) == Ok
    requires Eligible(s, device, now) != {} ==> IsHead(s, Eligible(s, device, now), h)
    ensures Claim(s, device, agent, ttl, now).verdict == Ok <==>
      Eligible(s, device, now) != {} && s.tasks[h].status == TaskQueued
    ensures Claim(s, device, agent, ttl, now).verdict == Ok ==>
      Claim(s, device, agent, ttl, now).changes[0] == Updated(Leased(s.tasks[h], agent, now, ttl))
    ensures Claim(s, device, agent, ttl, now).verdict != Ok ==> Claim(s, device, agent, ttl, now).changes == []
  {
    var keys := Eligible(s, device, now);
    if keys != {} { HeadUnique(s, keys, h, Head(s, keys)); }
  }
}
