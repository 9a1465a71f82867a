/**
  What a claim is for: whom it serves first, what the claimant gets and until when, and that nobody else can act on the
  task in the meantime. Said in the caller's terms, without the functions by which the claim is computed.
 */
module Claiming {
  import opened Domain
  import opened Projection
  import opened Commands
  import opened Dispatch
  import opened Lifecycle
  import opened CommandLaws
  import opened Runs
  import opened Guarantees
  import opened Effects
  import opened Text

  // ---- which tasks a device could get

  /** The release takes claims: it is neither finished, paused nor rolling back, and its installs leave room. */
  predicate GateOpen(s: State, rid: string) {
    && rid in s.releases && |ActiveTasks(s, rid)| < s.releases[rid].maxConcurrent
    && var status := s.releases[rid].status;
       status == StatusQueued || status == StatusPreflight || status == StatusInstalling || status == StatusAwaiting
  }

  lemma GateExactly(s: State, rid: string, now: Time)
    requires Coherent(s, now)
    ensures DecisionFor(s, rid).allowed <==> GateOpen(s, rid)
  {
    if rid in s.releases { assert ReleaseSound(s, s.releases[rid]); }
    hide Coherent, ReleaseSound, ActiveTasks;
  }

  /** The task waits for this device, is past its backoff, and its release takes claims. */
  predicate CouldRun(s: State, device: string, k: string, now: Time) {
    && k in s.tasks && s.tasks[k].deviceId == device
    && (s.tasks[k].status == TaskQueued || s.tasks[k].status == TaskRejected)
    && (s.tasks[k].nextRetry == 0 || s.tasks[k].nextRetry <= now) && GateOpen(s, s.tasks[k].releaseId)
  }

  lemma EligibleExactly(s: State, device: string, k: string, now: Time)
    requires Coherent(s, now)
    ensures k in Eligible(s, device, now) <==> CouldRun(s, device, k, now)
  {
    if k in s.tasks { GateExactly(s, s.tasks[k].releaseId, now); }
    hide Coherent, GateOpen, DecisionFor;
  }

  /** Of two releases the older one goes first, and of two tasks of equally old releases the one with the smaller id. */
  predicate Before(s: State, a: string, b: string)
    requires a in s.tasks && s.tasks[a].releaseId in s.releases && b in s.tasks && s.tasks[b].releaseId in s.releases
  {
    var x, y := s.releases[s.tasks[a].releaseId].createdAt, s.releases[s.tasks[b].releaseId].createdAt;
    x < y || (x == y && Less(a, b))
  }

  ghost predicate FirstInLine(s: State, device: string, h: string, now: Time) {
    CouldRun(s, device, h, now) &&
    forall k :: CouldRun(s, device, k, now) && k != h ==> Before(s, h, k)
  }

  lemma HeadIsFirst(s: State, device: string, h: string, now: Time)
    requires Coherent(s, now) && FirstInLine(s, device, h, now)
    ensures IsHead(s, Eligible(s, device, now), h) && Eligible(s, device, now) != {}
    ensures Head(s, Eligible(s, device, now)) == h
  {
    forall k ensures k in Eligible(s, device, now) <==> CouldRun(s, device, k, now) {
      EligibleExactly(s, device, k, now);
    }
    hide Coherent, Eligible, CouldRun;
    assert h in Eligible(s, device, now);
    forall k | k in Eligible(s, device, now) && k != h ensures Precedes(s, h, k) {
      BeforePrecedes(s, device, h, k, now);
    }
    HeadUnique(s, Eligible(s, device, now), h, Head(s, Eligible(s, device, now)));
  }

  lemma BeforePrecedes(s: State, device: string, a: string, b: string, now: Time)
    requires CouldRun(s, device, a, now) && CouldRun(s, device, b, now)
    ensures Before(s, a, b) <==> Precedes(s, a, b)
  {}

  /** If any task can run on the device, one of them is first in line. */
  lemma SomeoneIsFirst(s: State, device: string, k: string, now: Time)
    requires Coherent(s, now) && CouldRun(s, device, k, now)
    ensures exists h :: FirstInLine(s, device, h, now)
  {
    forall x ensures x in Eligible(s, device, now) <==> CouldRun(s, device, x, now) {
      EligibleExactly(s, device, x, now);
    }
    hide Coherent, Eligible;
    assert k in Eligible(s, device, now);
    HeadExists(s, Eligible(s, device, now));
    var h :| IsHead(s, Eligible(s, device, now), h);
    forall x | CouldRun(s, device, x, now) && x != h ensures Before(s, h, x) { BeforePrecedes(s, device, h, x, now); }
    assert FirstInLine(s, device, h, now);
  }

  // ---- what a claim answers, and what it does

  /** The first thing wrong with a claim decides its answer. */
  lemma ClaimAnswers(s: State, device: string, agent: string, ttl: int, now: Time)
    requires Coherent(s, now)
    ensures var o := Claim(s, device, agent, ttl, now);
      if device == "" || agent == "" || ttl <= 0 || ttl > 60 * 60 * 1_000_000_000 then o == Refuse(BadArgument)
      else if device !in s.devices then o == Refuse(NotFound)
      else if !s.devices[device].online then o == Refuse(DeviceOffline)
      else (o == Refuse(NoTask) <==> forall k :: !CouldRun(s, device, k, now))
  {
    NobodyEligible(s, device, now);
    if agent != "" { LockedAnswer(s, device, agent, ttl, now); }
    hide Coherent, CouldRun, ClaimLocked, Eligible;
  }

  lemma NobodyEligible(s: State, device: string, now: Time)
    requires Coherent(s, now)
    ensures Eligible(s, device, now) == {} <==> forall k :: !CouldRun(s, device, k, now)
  {
    forall k ensures k in Eligible(s, device, now) <==> CouldRun(s, device, k, now) {
      EligibleExactly(s, device, k, now);
    }
    hide Coherent, Eligible, CouldRun;
  }

  lemma LockedAnswer(s: State, device: string, agent: string, ttl: int, now: Time)
    requires agent != ""
    ensures ClaimLocked(s, device, agent, ttl, now) == Refuse(NoTask) <==> Eligible(s, device, now) == {}
  {
    hide Eligible, Head, Opening;
  }

  /** The claim has nothing wrong in itself. */
  predicate GoodClaim(s: State, device: string, agent: string, ttl: int) {
    && device != "" && agent != "" && 0 < ttl <= 60 * 60 * 1_000_000_000
    && device in s.devices && s.devices[device].online
  }

  /** The task is the agent's for so long, this was one attempt, and its release is under way; nothing else changed. */
  predicate Taken(s: State, s': State, h: string, agent: string, ttl: int, now: Time)
    requires h in s.tasks && s.tasks[h].releaseId in s.releases
  {
    var t, r := s.tasks[h], s.releases[s.tasks[h].releaseId];
    && s'.tasks == s.tasks[h := t.(status := TaskLeased, leaseOwner := agent, leaseUntil := now + ttl,
                                   attempts := t.attempts + 1, updatedAt := now)]
    && s'.devices == s.devices
    && s'.releases == if r.status == StatusQueued
                      then s.releases[t.releaseId := r.(status := StatusPreflight, updatedAt := now)] else s.releases
  }

  /** A good claim takes the first task in line if that is queued, and otherwise nothing. */
  lemma ClaimEffect(s: State, device: string, agent: string, ttl: int, now: Time, h: string)
    requires Coherent(s, now) && GoodClaim(s, device, agent, ttl) && FirstInLine(s, device, h, now)
    ensures var o := Claim(s, device, agent, ttl, now);
      && (o.verdict == Ok <==> s.tasks[h].status == TaskQueued)
      && (o.verdict == Ok ==> Taken(s, ApplyAll(s, o.changes), h, agent, ttl, now))
      && (o.verdict != Ok ==> o.changes == [])
  {
    HeadIsFirst(s, device, h, now);
    Known(s, h, now);
    ClaimRecords(s, device, agent, ttl, now, h);
    hide Claim, Eligible, FirstInLine, Head, Coherent, IsHead;
    if Claim(s, device, agent, ttl, now).verdict == Ok { TakenBy(s, h, agent, ttl, now); }
  }

  lemma ClaimRecords(s: State, device: string, agent: string, ttl: int, now: Time, h: string)
    requires GoodClaim(s, device, agent, ttl) && CouldRun(s, device, h, now)
    requires Eligible(s, device, now) != {} && Head(s, Eligible(s, device, now)) == h
    ensures s.tasks[h].releaseId in s.releases
    ensures var o := Claim(s, device, agent, ttl, now);
      && (o.verdict == Ok <==> s.tasks[h].status == TaskQueued)
      && o.changes == if o.verdict == Ok then TakingRecords(s, h, agent, ttl, now) else []
  {
    hide Eligible, Head, GateOpen;
    assert s.tasks[h].releaseId in s.releases by { GateKnown(s, s.tasks[h].releaseId); }
  }

  lemma GateKnown(s: State, rid: string)
    requires GateOpen(s, rid)
    ensures rid in s.releases
  {}

  function TakingRecords(s: State, h: string, agent: string, ttl: int, now: Time): seq<Change>
    requires h in s.tasks && s.tasks[h].releaseId in s.releases
  {
    var t, r := s.tasks[h], s.releases[s.tasks[h].releaseId];
    [Updated(t.(status := TaskLeased, leaseOwner := agent, leaseUntil := now + ttl,
                attempts := t.attempts + 1, updatedAt := now))]
    + if r.status == StatusQueued then [Rewritten(r.(status := StatusPreflight, updatedAt := now))] else []
  }

  lemma TakenBy(s: State, h: string, agent: string, ttl: int, now: Time)
    requires h in s.tasks && s.tasks[h].id == h && s.tasks[h].releaseId in s.releases
    requires s.releases[s.tasks[h].releaseId].id == s.tasks[h].releaseId
    ensures Taken(s, ApplyAll(s, TakingRecords(s, h, agent, ttl, now)), h, agent, ttl, now)
  {
    var cs := TakingRecords(s, h, agent, ttl, now);
    if |cs| == 1 {
      ApplyOne(s, cs[0]);
      assert cs == [cs[0]];
    } else {
      ApplyTwo(s, cs[0], cs[1]);
      assert cs == [cs[0], cs[1]];
    }
  }

  // ---- what the claimant holds

  /** Until the lease ends the task is the claimant's: it may start it, and no other agent passes the lease check. */
  lemma ClaimantHolds(s: State, s': State, h: string, agent: string, ttl: int, now: Time)
    requires Coherent(s, now) && now > 0 && ttl > 0 && h in s.tasks && s.tasks[h].releaseId in s.releases
    requires Taken(s, s', h, agent, ttl, now)
    ensures h in s'.tasks
    ensures forall x :: x >= now ==> (VerifyLease(s'.tasks[h], agent, x) == Ok <==> x <= now + ttl)
    ensures forall b, x :: b != agent ==> VerifyLease(s'.tasks[h], b, x) == Refused(LeaseOwner)
    ensures forall x :: x >= now ==> (StartTask(s', h, agent, x).verdict == Ok <==> x <= now + ttl)
    ensures forall x :: x >= now ==> (Swept(s', Reaping, s'.tasks[h], x).Write? <==> x > now + ttl)
  {
    Known(s, h, now);
    hide Coherent;
  }

  /**
    From an accepted claim until the task stops being active, in any valid run, every agent command of every agent but
    the caller of the claim emits nothing, and the caller passes the lease check until the lease, as far as it has been
    renewed by then, ends.
   */
  lemma FencedFromClaim(log: seq<Event>, m: nat, n: nat, device: string, agent: string, ttl: int, h: string,
                        other: string, reason: string, flag: bool, k: int, x: Time)
    requires ValidLog(log) && m < n <= |log| && GoodClaim(At(log, m), device, agent, ttl)
    requires FirstInLine(At(log, m), device, h, log[m].at)
    requires Claim(At(log, m), device, agent, ttl, log[m].at).verdict == Ok
    requires ChangeOf(log[m]) == Claim(At(log, m), device, agent, ttl, log[m].at).changes[0]
    requires (forall i :: m < i <= n ==> ActiveAt(At(log, i), h)) && other != agent
    ensures var s := At(log, n);
      && StartTask(s, h, other, x).changes == [] && RejectTask(s, h, other, reason, x).changes == []
      && ReportProgress(s, h, other, k, reason, x).changes == [] && RenewLease(s, h, other, k, x).changes == []
      && ConfirmInstall(s, h, other, x).changes == [] && FailTask(s, h, other, reason, flag, x).changes == []
      && CompleteRollback(s, h, other, x).changes == []
    ensures h in At(log, n).tasks && At(log, n).tasks[h].leaseOwner == agent
    ensures VerifyLease(At(log, n).tasks[h], agent, x) == Ok <==> x <= At(log, n).tasks[h].leaseUntil
  {
    ClaimedByCaller(log, m, device, agent, ttl, h);
    assert ActiveAt(At(log, m + 1), h) && ActiveAt(At(log, n), h);
    LeaseSet(log, n, h);
    hide *;
    OwnerKept(log, h, m + 1, n);
    FencedThroughout(log, h, m + 1, n, other, reason, flag, k, x);
    OwnersLease(At(log, n).tasks[h], agent, x);
  }

  lemma OwnersLease(t: Task, agent: string, x: Time)
    requires t.leaseOwner == agent && t.leaseUntil != 0
    ensures VerifyLease(t, agent, x) == Ok <==> x <= t.leaseUntil
  {}

  lemma LeaseSet(log: seq<Event>, n: nat, id: string)
    requires ValidLog(log) && n <= |log| && ActiveAt(At(log, n), id)
    ensures id in At(log, n).tasks && At(log, n).tasks[id].leaseUntil != 0
  {
    ValidLogPrefix(log, n);
    ValidLogCoherent(log[..n], LastTime(log[..n]));
    TaskHasRelease(At(log, n), id, LastTime(log[..n]));
    assert TaskSound(At(log, n).tasks[id], Limit(At(log, n), id), LastTime(log[..n]));
    hide ValidLog, Replay, Coherent;
  }

  lemma ClaimedByCaller(log: seq<Event>, m: nat, device: string, agent: string, ttl: int, h: string)
    requires ValidLog(log) && m < |log| && GoodClaim(At(log, m), device, agent, ttl)
    requires FirstInLine(At(log, m), device, h, log[m].at)
    requires Claim(At(log, m), device, agent, ttl, log[m].at).verdict == Ok
    requires ChangeOf(log[m]) == Claim(At(log, m), device, agent, ttl, log[m].at).changes[0]
    ensures h in At(log, m + 1).tasks && At(log, m + 1).tasks[h].leaseOwner == agent
  {
    var s, now := At(log, m), log[m].at;
    EntryLawful(log, m);
    hide ValidLog, At, Coherent, Claim, FirstInLine, GoodClaim;
    FirstRecord(s, device, agent, ttl, now, h);
  }

  lemma FirstRecord(s: State, device: string, agent: string, ttl: int, now: Time, h: string)
    requires Coherent(s, now) && GoodClaim(s, device, agent, ttl) && FirstInLine(s, device, h, now)
    requires Claim(s, device, agent, ttl, now).verdict == Ok
    ensures h in s.tasks && |Claim(s, device, agent, ttl, now).changes| > 0
    ensures Claim(s, device, agent, ttl, now).changes[0]
      == Updated(s.tasks[h].(status := TaskLeased, leaseOwner := agent, leaseUntil := now + ttl,
                             attempts := s.tasks[h].attempts + 1, updatedAt := now))
    ensures s.tasks[h].id == h
  {
    HeadIsFirst(s, device, h, now);
    Known(s, h, now);
    hide Eligible, Head, Coherent, IsHead, Claim;
    ClaimRecords(s, device, agent, ttl, now, h);
  }

  // ---- from claim to completion

  lemma StartsFor(s: State, h: string, agent: string, now: Time)
    requires Coherent(s, now) && now > 0 && h in s.tasks && HoldsLease(s.tasks[h], agent, now)
    requires s.tasks[h].status == TaskLeased
    ensures var o := StartTask(s, h, agent, now);
      && o.verdict == Ok && Coherent(ApplyAll(s, o.changes), now)
      && TaskSet(s, ApplyAll(s, o.changes), s.tasks[h].(status := TaskInstalling, updatedAt := now))
  {
    hide *;
    StartTaskEffect(s, h, agent, now);
    StartTaskLawful(s, h, agent, now);
    LawfulRunKeepsCoherent(s, StartTask(s, h, agent, now).changes, now);
  }

  lemma ReportsFor(s: State, h: string, agent: string, detail: string, now: Time)
    requires Coherent(s, now) && now > 0 && h in s.tasks && HoldsLease(s.tasks[h], agent, now)
    requires s.tasks[h].status == TaskInstalling
    ensures var o := ReportProgress(s, h, agent, 100, detail, now);
      && o.verdict == Ok && Coherent(ApplyAll(s, o.changes), now)
      && TaskSet(s, ApplyAll(s, o.changes),
                 s.tasks[h].(status := TaskAwaiting, error := if detail == "" then s.tasks[h].error else detail,
                             updatedAt := now))
  {
    hide *;
    ReportProgressEffect(s, h, agent, 100, detail, now);
    ReportProgressLawful(s, h, agent, 100, detail, now);
    LawfulRunKeepsCoherent(s, ReportProgress(s, h, agent, 100, detail, now).changes, now);
  }

  /**
    The path of an install: the claimant starts it, reports it done and confirms it, each at any later time before the
    lease ends, and then the task is completed and free and its release counts it. Confirming later than that fails.
   */
  lemma InstallPath(s: State, s1: State, h: string, agent: string, ttl: int, now: Time, detail: string,
                    x1: Time, x2: Time, x3: Time)
    requires Coherent(s, now) && now > 0 && ttl > 0 && h in s.tasks && s.tasks[h].releaseId in s.releases
    requires Taken(s, s1, h, agent, ttl, now) && Coherent(s1, now) && now <= x1 <= x2 <= x3 && x2 <= now + ttl
    ensures var s2 := ApplyAll(s1, StartTask(s1, h, agent, x1).changes);
      var s3 := ApplyAll(s2, ReportProgress(s2, h, agent, 100, detail, x2).changes);
      var o := ConfirmInstall(s3, h, agent, x3);
      && StartTask(s1, h, agent, x1).verdict == Ok && ReportProgress(s2, h, agent, 100, detail, x2).verdict == Ok
      && (o.verdict == Ok <==> x3 <= now + ttl) && h in s3.tasks
      && (o.verdict == Ok ==>
            TaskSettled(s3, ApplyAll(s3, o.changes), Confirmed(s3.tasks[h], x3), x3)
            && s3.tasks[h].attempts == s.tasks[h].attempts + 1)
  {
    var s2 := ApplyAll(s1, StartTask(s1, h, agent, x1).changes);
    var s3 := ApplyAll(s2, ReportProgress(s2, h, agent, 100, detail, x2).changes);
    CoherentLater(s1, now, x1);
    hide StartTask, ReportProgress, ConfirmInstall, Coherent, ApplyAll, Recounted;
    TakenTask(s, s1, h, agent, ttl, now);
    StartsFor(s1, h, agent, x1);
    CoherentLater(s2, x1, x2);
    SetTask(s1, s2, s1.tasks[h].(status := TaskInstalling, updatedAt := x1));
    ReportsFor(s2, h, agent, detail, x2);
    SetTask(s2, s3, s2.tasks[h].(status := TaskAwaiting, error := if detail == "" then s2.tasks[h].error else detail,
                                 updatedAt := x2));
    CoherentLater(s3, x2, x3);
    ConfirmInstallEffect(s3, h, agent, x3);
  }

  lemma TakenTask(s: State, s1: State, h: string, agent: string, ttl: int, now: Time)
    requires Coherent(s, now) && h in s.tasks && s.tasks[h].releaseId in s.releases && Taken(s, s1, h, agent, ttl, now)
    ensures h in s1.tasks && s1.tasks[h].id == h && s1.tasks[h].status == TaskLeased
    ensures s1.tasks[h].leaseOwner == agent && s1.tasks[h].leaseUntil == now + ttl
    ensures s1.tasks[h].attempts == s.tasks[h].attempts + 1
  {
    Known(s, h, now);
    hide Coherent;
  }

  lemma SetTask(s: State, s': State, t: Task)
    requires TaskSet(s, s', t)
    ensures t.id in s'.tasks && s'.tasks[t.id] == t
  {}
}
