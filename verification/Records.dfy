/** The mutable records behind the references of the three maps, and the clock. */
module Records {
  import opened Domain

  class LiveTask {
    const id: string
    const releaseId: string
    const deviceId: string
    var status: TaskStatus
    var leaseOwner: string
    var leaseUntil: Time
    var attempts: int
    var nextRetry: Time
    var updatedAt: Time
    var error: string

    function Val(): (v: Task)
      reads this
      ensures v.id == id
    {
      Task(id, releaseId, deviceId, status, leaseOwner, leaseUntil, attempts, nextRetry, updatedAt, error)
    }

    constructor (t: Task)
      ensures Val() == t
    {
      id, releaseId, deviceId, status := t.id, t.releaseId, t.deviceId, t.status;
      leaseOwner, leaseUntil, attempts := t.leaseOwner, t.leaseUntil, t.attempts;
      nextRetry, updatedAt, error := t.nextRetry, t.updatedAt, t.error;
    }

    method Transition(to: TaskStatus) returns (v: Verdict)
      modifies this
      ensures v == if CanMove(old(status), to) then Ok else Refused(InvalidTaskTransition)
      ensures if v == Ok then Val() == old(Val()).(status := to) else unchanged(this)
    {
      if status == to { return Ok; }
      if !ValidTransition(status, to) { return Refused(InvalidTaskTransition); }
      status := to;
      return Ok;
    }

    method Lease(agent: string, now: Time, ttl: int) returns (v: Verdict)
      modifies this
      ensures v == LeaseVerdict(old(Val()), agent, now)
      ensures if v == Ok then Val() == Leased(old(Val()), agent, now, ttl) else unchanged(this)
      // the table refuses Rejected -> Leased, so in effect only a queued, ready task can be leased
      ensures v == Ok <==> agent != "" && old(status) == TaskQueued && RetryReady(old(Val()), now)
    {
      if agent == "" { return Refused(BadArgument); }
      if status != TaskQueued && status != TaskRejected { return Refused(InvalidTaskTransition); }
      if nextRetry != ZERO_TIME && now < nextRetry { return Refused(BackoffActive); }
      v := Transition(TaskLeased);
      if v != Ok { return; }
      leaseOwner, leaseUntil, attempts, updatedAt := agent, now + ttl, attempts + 1, now;
    }

    method ReleaseLease()
      modifies this
      ensures Val() == Released(old(Val()))
    {
      leaseOwner := "";
      leaseUntil := ZERO_TIME;
    }

    /** Panics, after having changed the record, when the task was never claimed. */
    method ScheduleRetry(now: Time, base: int, limit: int, reason: string) returns (retry: bool, panics: bool)
      modifies this
      ensures panics <==> !CanScheduleRetry(old(Val()), limit)
      ensures Val() == if panics then Stranded(old(Val()), now, reason)
        else RetryScheduled(old(Val()), now, base, limit, reason)
      ensures retry <==> old(attempts) <= limit && !panics
    {
      error := reason;
      ReleaseLease();
      updatedAt := now;
      if attempts > limit {
        status, nextRetry := TaskFailed, ZERO_TIME;
        return false, false;
      }
      status := TaskRejected;
      if attempts < 1 { return false, true; }
      nextRetry := now + base * Pow2(Min(attempts - 1, 8));
      return true, false;
    }
  }

  class LiveRelease {
    const id: string
    const version: string
    const devices: seq<string>
    const batchSize: int
    const maxConcurrent: int
    const retryLimit: int
    const rollback: RollbackPolicy
    const createdAt: Time
    var status: ReleaseStatus
    var updatedAt: Time
    var completed: int
    var failed: int

    function Val(): (v: Release)
      reads this
      ensures v.id == id && v.retryLimit == retryLimit && v.status == status
    {
      Release(id, version, devices, batchSize, maxConcurrent, retryLimit, rollback,
        status, createdAt, updatedAt, completed, failed)
    }

    constructor (r: Release)
      ensures Val() == r
    {
      id, version, devices, batchSize, maxConcurrent := r.id, r.version, r.devices, r.batchSize, r.maxConcurrent;
      retryLimit, rollback, createdAt, status := r.retryLimit, r.rollback, r.createdAt, r.status;
      updatedAt, completed, failed := r.updatedAt, r.completed, r.failed;
    }

    method Transition(to: ReleaseStatus) returns (v: Verdict)
      modifies this
      ensures v == if ValidReleaseTransition(old(status), to) then Ok else Refused(InvalidReleaseTransition)
      ensures if v == Ok then Val() == old(Val()).(status := to) else unchanged(this)
    {
      if !ValidReleaseTransition(status, to) { return Refused(InvalidReleaseTransition); }
      status := to;
      return Ok;
    }

    /** The part of reconcile that rewrites the release from the two counts. */
    method TakeCounts(done: int, fail: int, now: Time)
      modifies this
      ensures var was := old(Val());
        var status := if done == |was.devices| then StatusCompleted else was.status;
        Val() == was.(completed := done, failed := fail, updatedAt := now,
          status := if fail > was.rollback.maxFailures && was.rollback.auto then StatusRollbackPending else status)
    {
      completed := done;
      failed := fail;
      updatedAt := now;
      if done == |devices| {
        status := StatusCompleted;
      }
      if fail > rollback.maxFailures && rollback.auto {
        status := StatusRollbackPending;
      }
    }
  }

  class LiveDevice {
    const id: string
    const firmware: string
    const capabilities: seq<string>
    const registeredAt: Time
    var lastSeen: Time
    var online: bool

    function Val(): (v: Device)
      reads this
      ensures v.id == id
    {
      Device(id, firmware, capabilities, registeredAt, lastSeen, online)
    }

    constructor (d: Device)
      ensures Val() == d
    {
      id, firmware, capabilities := d.id, d.firmware, d.capabilities;
      registeredAt, lastSeen, online := d.registeredAt, d.lastSeen, d.online;
    }
  }

  /** ports.FakeClock: time stands still until Advance, which may also go back. */
  class Clock {
    var now: Time

    function Now(): Time
      reads this
    {
      now
    }

    constructor (start: Time)
      ensures now == start
    {
      now := start;
    }

    method Advance(d: int)
      modifies this
      ensures now == old(now) + d
    {
      now := now + d;
    }
  }
}
