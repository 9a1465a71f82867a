/**
  N goroutines in ClaimWithTTL: the device check before the lock, the critical section in several steps under claimMu.
  Any interleaving gives the log, state and results of running the critical sections one after another in lock order.
 */
module Claimants {
  import opened Domain
  import opened Projection
  import opened Commands
  import opened Dispatch

  datatype Claimant = Claimant(device: string, agent: string, ttl: int)

  datatype Pc = AtCheck | AtLock | Inside | Finished(verdict: Verdict)

  /** How far the lock holder is: before its first write, between its two writes, or about to unlock. */
  datatype Phase = Selecting | Persisting(rid: string) | Leaving(verdict: Verdict)

  datatype Mutex = Free | Held(holder: nat, now: Time, phase: Phase)

  /** What the claimants share: the live state and the event log. */
  datatype Shared = Shared(state: State, log: seq<Change>)

  datatype Turn = Turn(who: nat, now: Time)

  /** order and answers record the turns taken and, for the turns over, what they returned. */
  datatype Config = Config(data: Shared, lock: Mutex, pcs: seq<Pc>, order: seq<Turn>, answers: seq<Verdict>)

  function Emit(d: Shared, c: Change): Shared { Shared(Apply(d.state, c), d.log + [c]) }

  ghost function Select(x: Claimant, now: Time, d: Shared): (Shared, Phase) {
    var keys := Eligible(d.state, x.device, now);
    if keys == {} then (d, Leaving(Refused(NoTask)))
    else
      var t := d.state.tasks[Head(d.state, keys)];
      match LeaseVerdict(t, x.agent, now)
      case Refused(e) => (d, Leaving(Refused(e)))
      case Ok =>
        (Emit(d, Updated(Leased(t, x.agent, now, x.ttl))),
         if d.state.releases[t.releaseId].status == StatusQueued then Persisting(t.releaseId) else Leaving(Ok))
  }

  /** One step inside the critical section. */
  ghost function Inner(x: Claimant, now: Time, d: Shared, phase: Phase): (Shared, Phase) {
    match phase
    case Selecting => Select(x, now, d)
    case Persisting(rid) =>
      if rid !in d.state.releases then (d, phase)
      else (Emit(d, Rewritten(d.state.releases[rid].(status := StatusPreflight, updatedAt := now))), Leaving(Ok))
    case Leaving(_) => (d, phase)
  }

  /** One step of claimant i at the given instant; a claimant that cannot move stays. */
  ghost function Step(cl: seq<Claimant>, c: Config, i: nat, now: Time): Config
    requires i < |cl| == |c.pcs|
  {
    match c.pcs[i]
    case AtCheck =>
      var v := ClaimCheck(c.data.state, cl[i].device, cl[i].agent, cl[i].ttl);
      c.(pcs := c.pcs[i := if v == Ok then AtLock else Finished(v)])
    case AtLock =>
      if c.lock.Held? then c
      else c.(pcs := c.pcs[i := Inside], lock := Held(i, now, Selecting), order := c.order + [Turn(i, now)])
    case Inside =>
      if c.lock.Free? || c.lock.holder != i then c
      else if c.lock.phase.Leaving? then
        var v := c.lock.phase.verdict;
        c.(pcs := c.pcs[i := Finished(v)], lock := Free, answers := c.answers + [v])
      else
        var (data, phase) := Inner(cl[i], c.lock.now, c.data, c.lock.phase);
        c.(data := data, lock := c.lock.(phase := phase))
    case Finished(_) => c
  }

  function Start(s: State, cl: seq<Claimant>): Config {
    Config(Shared(s, []), Free, seq(|cl|, i => AtCheck), [], [])
  }

  predicate Turns(cl: seq<Claimant>, order: seq<Turn>) { forall k :: 0 <= k < |order| ==> order[k].who < |cl| }

  /** Run a schedule: which claimant moves, and what the clock then shows. */
  ghost function Run(cl: seq<Claimant>, c: Config, schedule: seq<Turn>): (r: Config)
    requires |c.pcs| == |cl| && Turns(cl, schedule)
    ensures |r.pcs| == |cl|
  {
    if schedule == [] then c
    else
      var n := |schedule| - 1;
      Step(cl, Run(cl, c, schedule[..n]), schedule[n].who, schedule[n].now)
  }

  // ---- the sequential reference

  ghost function Section(s: State, x: Claimant, now: Time): Outcome { ClaimLocked(s, x.device, x.agent, x.ttl, now) }

  /** The records of the critical sections run one after another. */
  ghost function Serial(s: State, cl: seq<Claimant>, order: seq<Turn>): seq<Change>
    requires Turns(cl, order)
  {
    if order == [] then []
    else
      var n := |order| - 1;
      var before := Serial(s, cl, order[..n]);
      before + Section(ApplyAll(s, before), cl[order[n].who], order[n].now).changes
  }

  /** What the j-th critical section returns in the sequential run. */
  ghost function SerialVerdict(s: State, cl: seq<Claimant>, order: seq<Turn>, j: nat): Verdict
    requires Turns(cl, order) && j < |order|
  {
    Section(ApplyAll(s, Serial(s, cl, order[..j])), cl[order[j].who], order[j].now).verdict
  }

  // ---- inside one critical section

  /** How far a section that started with the data d0 has come, against its sequential outcome. */
  ghost predicate Midway(d0: Shared, x: Claimant, now: Time, d: Shared, phase: Phase) {
    var o := Section(d0.state, x, now);
    match phase
    case Selecting => d == d0
    case Persisting(rid) =>
      && o.verdict == Ok && |o.changes| == 2 && d == Emit(d0, o.changes[0]) && rid in d.state.releases
      && o.changes[1] == Rewritten(d.state.releases[rid].(status := StatusPreflight, updatedAt := now))
    case Leaving(v) => v == o.verdict && d == Shared(ApplyAll(d0.state, o.changes), d0.log + o.changes)
  }

  lemma SectionShape(s: State, x: Claimant, now: Time)
    requires Section(s, x, now).verdict == Ok
    ensures Eligible(s, x.device, now) != {}
    ensures var t := s.tasks[Head(s, Eligible(s, x.device, now))];
      var u := Updated(Leased(t, x.agent, now, x.ttl));
      && t.releaseId in s.releases && t.status == TaskQueued
      && Section(s, x, now).changes ==
           if s.releases[t.releaseId].status == StatusQueued
           then [u, Rewritten(s.releases[t.releaseId].(status := StatusPreflight, updatedAt := now))] else [u]
  {}

  lemma SelectMidway(d: Shared, x: Claimant, now: Time)
    ensures var (d', p) := Select(x, now, d); Midway(d, x, now, d', p)
  {
    var o := Section(d.state, x, now);
    if o.verdict == Ok {
      SectionShape(d.state, x, now);
      ApplyOne(d.state, o.changes[0]);
    } else {
      assert d.log + o.changes == d.log;
    }
  }

  lemma InnerMidway(d0: Shared, x: Claimant, now: Time, d: Shared, phase: Phase)
    requires Midway(d0, x, now, d, phase)
    ensures var (d', p) := Inner(x, now, d, phase); Midway(d0, x, now, d', p) && d'.state.devices == d.state.devices
  {
    match phase
    case Selecting => SelectMidway(d, x, now);
    case Persisting(rid) =>
      var o := Section(d0.state, x, now);
      assert o.changes == [o.changes[0], o.changes[1]];
      ApplyTwo(d0.state, o.changes[0], o.changes[1]);
      assert d0.log + [o.changes[0]] + [o.changes[1]] == d0.log + o.changes;
    case Leaving(_) =>
  }

  // ---- what every interleaving keeps

  ghost function After(s: State, cl: seq<Claimant>, order: seq<Turn>): Shared
    requires Turns(cl, order)
  {
    Shared(ApplyAll(s, Serial(s, cl, order)), Serial(s, cl, order))
  }

  /** The shared data are those of the turns over, plus part of the holder's section. */
  ghost predicate DataRight(s: State, cl: seq<Claimant>, c: Config)
    requires Turns(cl, c.order)
  {
    && c.data.state.devices == s.devices
    && match c.lock
       case Free => c.data == After(s, cl, c.order)
       case Held(i, now, phase) =>
         c.order != [] && var n := |c.order| - 1;
         c.order[n] == Turn(i, now) && Midway(After(s, cl, c.order[..n]), cl[i], now, c.data, phase)
  }

  /** The program counters agree with the lock, the turns and the answers. */
  predicate ThreadsRight(s: State, cl: seq<Claimant>, c: Config) {
    && |c.pcs| == |cl| && Turns(cl, c.order)
    && |c.answers| == (if c.lock.Free? then |c.order| else |c.order| - 1)
    && (c.lock.Held? ==> c.lock.holder < |cl| && c.pcs[c.lock.holder] == Inside)
    && (forall i :: 0 <= i < |cl| && c.pcs[i].Inside? ==> c.lock.Held? && c.lock.holder == i)
    && (forall j :: 0 <= j < |c.answers| ==> c.pcs[c.order[j].who] == Finished(c.answers[j]))
  }

  /** Only claimants whose device check passed take a turn; the others return what the check said. */
  predicate ChecksRight(s: State, cl: seq<Claimant>, c: Config)
    requires |c.pcs| == |cl| && Turns(cl, c.order)
  {
    && (forall i :: 0 <= i < |cl| && c.pcs[i].AtLock? ==> ClaimCheck(s, cl[i].device, cl[i].agent, cl[i].ttl) == Ok)
    && (forall j :: 0 <= j < |c.order| ==>
          var x := cl[c.order[j].who]; ClaimCheck(s, x.device, x.agent, x.ttl) == Ok)
    && (forall i :: 0 <= i < |cl| && c.pcs[i].Finished? && (forall j :: 0 <= j < |c.order| ==> c.order[j].who != i) ==>
          c.pcs[i].verdict == ClaimCheck(s, cl[i].device, cl[i].agent, cl[i].ttl) && c.pcs[i].verdict != Ok)
  }

  predicate OneTurnEach(c: Config) {
    && (forall j, k :: 0 <= j < k < |c.order| ==> c.order[j].who != c.order[k].who)
    && (forall j :: 0 <= j < |c.order| && c.order[j].who < |c.pcs| ==>
          c.pcs[c.order[j].who] != AtCheck && c.pcs[c.order[j].who] != AtLock)
  }

  ghost predicate AnswersRight(s: State, cl: seq<Claimant>, c: Config)
    requires Turns(cl, c.order)
  {
    |c.answers| <= |c.order| && forall j :: 0 <= j < |c.answers| ==> c.answers[j] == SerialVerdict(s, cl, c.order, j)
  }

  ghost predicate Good(s: State, cl: seq<Claimant>, c: Config) {
    ThreadsRight(s, cl, c) && OneTurnEach(c) && ChecksRight(s, cl, c) && DataRight(s, cl, c) && AnswersRight(s, cl, c)
  }

  lemma ThreadsKept(s: State, cl: seq<Claimant>, c: Config, i: nat, now: Time)
    requires ThreadsRight(s, cl, c) && OneTurnEach(c) && i < |cl|
    requires c.lock.Held? ==> c.order != [] && c.order[|c.order| - 1].who == c.lock.holder
    ensures ThreadsRight(s, cl, Step(cl, c, i, now)) && OneTurnEach(Step(cl, c, i, now))
  {
    hide ClaimCheck, Inner;
  }

  lemma ChecksKept(s: State, cl: seq<Claimant>, c: Config, i: nat, now: Time)
    requires ThreadsRight(s, cl, c) && ChecksRight(s, cl, c) && c.data.state.devices == s.devices && i < |cl|
    requires c.lock.Held? ==> c.order != [] && c.order[|c.order| - 1].who == c.lock.holder
    ensures ThreadsRight(s, cl, Step(cl, c, i, now)) ==> ChecksRight(s, cl, Step(cl, c, i, now))
  {
    hide Inner;
  }

  lemma KeptTurns(s: State, cl: seq<Claimant>, order: seq<Turn>, x: Turn, j: nat)
    requires Turns(cl, order) && x.who < |cl| && j < |order|
    ensures Turns(cl, order + [x])
    ensures SerialVerdict(s, cl, order + [x], j) == SerialVerdict(s, cl, order, j)
  {
    assert (order + [x])[..j] == order[..j];
  }

  /** Taking the lock starts a section. */
  lemma LockData(s: State, cl: seq<Claimant>, c: Config, i: nat, now: Time)
    requires Turns(cl, c.order) && DataRight(s, cl, c) && AnswersRight(s, cl, c) && i < |cl| && c.lock.Free?
    ensures var d := c.(lock := Held(i, now, Selecting), order := c.order + [Turn(i, now)]);
      Turns(cl, d.order) && DataRight(s, cl, d) && AnswersRight(s, cl, d)
  {
    var order := c.order + [Turn(i, now)];
    assert order[..|order| - 1] == c.order;
    forall j | 0 <= j < |c.answers| ensures SerialVerdict(s, cl, order, j) == SerialVerdict(s, cl, c.order, j) {
      KeptTurns(s, cl, c.order, Turn(i, now), j);
    }
  }

  lemma SerialLast(s: State, cl: seq<Claimant>, order: seq<Turn>)
    requires Turns(cl, order) && order != []
    ensures var n := |order| - 1;
      var d0, x, now := After(s, cl, order[..n]), cl[order[n].who], order[n].now;
      var o := Section(d0.state, x, now);
      SerialVerdict(s, cl, order, n) == o.verdict
      && After(s, cl, order) == Shared(ApplyAll(d0.state, o.changes), d0.log + o.changes)
  {
    hide Section;
    var n := |order| - 1;
    var d0 := After(s, cl, order[..n]);
    ApplyAllSplit(s, d0.log, Section(d0.state, cl[order[n].who], order[n].now).changes);
  }

  /** Unlocking ends it: its outcome is the sequential one. */
  lemma LeaveData(s: State, cl: seq<Claimant>, c: Config)
    requires Turns(cl, c.order) && DataRight(s, cl, c) && AnswersRight(s, cl, c)
    requires c.lock.Held? && c.lock.phase.Leaving? && |c.answers| + 1 == |c.order|
    ensures var d := c.(lock := Free, answers := c.answers + [c.lock.phase.verdict]);
      DataRight(s, cl, d) && AnswersRight(s, cl, d)
  {
    hide Serial, SerialVerdict, After, Section;
    SerialLast(s, cl, c.order);
  }

  lemma InnerData(s: State, cl: seq<Claimant>, c: Config, data: Shared, phase: Phase)
    requires Turns(cl, c.order) && DataRight(s, cl, c) && AnswersRight(s, cl, c)
    requires c.lock.Held? && c.lock.holder < |cl| &&
      (data, phase) == Inner(cl[c.lock.holder], c.lock.now, c.data, c.lock.phase)
    ensures var d := c.(data := data, lock := c.lock.(phase := phase)); DataRight(s, cl, d) && AnswersRight(s, cl, d)
  {
    var d0 := After(s, cl, c.order[..|c.order| - 1]);
    InnerMidway(d0, cl[c.lock.holder], c.lock.now, c.data, c.lock.phase);
  }

  lemma DataKept(s: State, cl: seq<Claimant>, c: Config, i: nat, now: Time)
    requires ThreadsRight(s, cl, c) && DataRight(s, cl, c) && AnswersRight(s, cl, c) && i < |cl|
    ensures var d := Step(cl, c, i, now); Turns(cl, d.order) && DataRight(s, cl, d) && AnswersRight(s, cl, d)
  {
    hide Serial, SerialVerdict, Section, Midway, ClaimCheck, Inner;
    if c.pcs[i].AtLock? && c.lock.Free? {
      LockData(s, cl, c, i, now);
    } else if c.pcs[i].Inside? && c.lock.Held? && c.lock.holder == i {
      if c.lock.phase.Leaving? {
        LeaveData(s, cl, c);
      } else {
        var (data, phase) := Inner(cl[i], c.lock.now, c.data, c.lock.phase);
        InnerData(s, cl, c, data, phase);
      }
    }
  }

  lemma {:induction false} RunKeeps(s: State, cl: seq<Claimant>, schedule: seq<Turn>)
    requires Turns(cl, schedule)
    ensures Good(s, cl, Run(cl, Start(s, cl), schedule))
  {
    if schedule != [] {
      var n := |schedule| - 1;
      RunKeeps(s, cl, schedule[..n]);
      var c, i, now := Run(cl, Start(s, cl), schedule[..n]), schedule[n].who, schedule[n].now;
      ThreadsKept(s, cl, c, i, now);
      ChecksKept(s, cl, c, i, now);
      DataKept(s, cl, c, i, now);
    }
  }

  /**
    Linearizability: once every claimant has returned, log and state are those of the critical sections run in lock
    order, each claimant took at most one turn, and each got what the sequential run, or its device check, gives it.
   */
  lemma ClaimsLinearize(s: State, cl: seq<Claimant>, schedule: seq<Turn>)
    requires Turns(cl, schedule) && forall i :: 0 <= i < |cl| ==> Run(cl, Start(s, cl), schedule).pcs[i].Finished?
    ensures var c := Run(cl, Start(s, cl), schedule);
      && Turns(cl, c.order) && OneTurnEach(c)
      && c.data == After(s, cl, c.order)
      && (forall j :: 0 <= j < |c.order| ==>
            c.pcs[c.order[j].who] == Finished(SerialVerdict(s, cl, c.order, j)))
      && ChecksRight(s, cl, c)
  {
    RunKeeps(s, cl, schedule);
  }

  // ---- no double lease

  predicate LeasesTask(c: Change) { c.kind == TaskUpdated && c.data.TaskData? }

  predicate KeyedById(s: State) { forall k :: k in s.tasks ==> s.tasks[k].id == k }

  /** Every lease in the log is on a different task, and each of those tasks is still leased. */
  predicate LeasedOnce(s: State, log: seq<Change>) {
    && (forall i, j :: 0 <= i < j < |log| && LeasesTask(log[i]) && LeasesTask(log[j]) ==>
          log[i].data.task.id != log[j].data.task.id)
    && (forall i :: 0 <= i < |log| && LeasesTask(log[i]) ==>
          log[i].data.task.id in s.tasks && s.tasks[log[i].data.task.id].status == TaskLeased)
  }

  lemma LeaseOneMore(s: State, log: seq<Change>, u: Task)
    requires KeyedById(s) && LeasedOnce(s, log) && u.id in s.tasks &&
      s.tasks[u.id].status == TaskQueued && u.status == TaskLeased
    ensures KeyedById(Apply(s, Updated(u))) && LeasedOnce(Apply(s, Updated(u)), log + [Updated(u)])
  {}

  lemma ReleaseOneMore(s: State, log: seq<Change>, q: Release)
    requires KeyedById(s) && LeasedOnce(s, log)
    ensures KeyedById(Apply(s, Rewritten(q))) && LeasedOnce(Apply(s, Rewritten(q)), log + [Rewritten(q)])
  {}

  /** Claims run one after another, hence in any interleaving, never lease a task twice. */
  lemma {:induction false} SerialLeasesOnce(s: State, cl: seq<Claimant>, order: seq<Turn>)
    requires Turns(cl, order) && KeyedById(s)
    ensures KeyedById(After(s, cl, order).state) && LeasedOnce(After(s, cl, order).state, After(s, cl, order).log)
  {
    if order != [] {
      var n := |order| - 1;
      SerialLeasesOnce(s, cl, order[..n]);
      var mid, x, now := After(s, cl, order[..n]), cl[order[n].who], order[n].now;
      var o := Section(mid.state, x, now);
      ApplyAllSplit(s, mid.log, o.changes);
      if o.verdict == Ok {
        SectionShape(mid.state, x, now);
        LeaseOneMore(mid.state, mid.log, o.changes[0].data.task);
        if |o.changes| == 1 {
          ApplyOne(mid.state, o.changes[0]);
        } else {
          ApplyTwo(mid.state, o.changes[0], o.changes[1]);
          ReleaseOneMore(Apply(mid.state, o.changes[0]), mid.log + [o.changes[0]], o.changes[1].data.release);
          assert mid.log + o.changes == mid.log + [o.changes[0]] + [o.changes[1]];
        }
      } else {
        assert mid.log + o.changes == mid.log;
      }
    }
  }

  // ---- one record per success

  function Leases(log: seq<Change>): nat {
    if log == [] then 0 else Leases(log[..|log| - 1]) + if LeasesTask(log[|log| - 1]) then 1 else 0
  }

  function Successes(answers: seq<Verdict>): nat {
    if answers == [] then 0 else Successes(answers[..|answers| - 1]) + if answers[|answers| - 1] == Ok then 1 else 0
  }

  lemma {:induction false} LeasesConcat(a: seq<Change>, b: seq<Change>)
    ensures Leases(a + b) == Leases(a) + Leases(b)
  {
    if b == [] {
      assert a + b == a;
    } else {
      LeasesConcat(a, b[..|b| - 1]);
      assert (a + b)[..|a + b| - 1] == a + b[..|b| - 1];
    }
  }

  /** A section logs one lease if it succeeds and nothing if it fails. */
  lemma SectionLeases(s: State, x: Claimant, now: Time)
    ensures Leases(Section(s, x, now).changes) == if Section(s, x, now).verdict == Ok then 1 else 0
  {
    var o := Section(s, x, now);
    if o.verdict == Ok {
      SectionShape(s, x, now);
      assert o.changes[..1] == [o.changes[0]] && [o.changes[0]][..0] == [];
      hide Section, Eligible;
      assert Leases([o.changes[0]]) == 1;
    }
  }

  lemma {:induction false} SerialSuccesses(s: State, cl: seq<Claimant>, order: seq<Turn>, answers: seq<Verdict>)
    requires Turns(cl, order) && |answers| == |order|
    requires forall j :: 0 <= j < |order| ==> answers[j] == SerialVerdict(s, cl, order, j)
    ensures Leases(Serial(s, cl, order)) == Successes(answers)
  {
    hide Section;
    if order != [] {
      var n := |order| - 1;
      forall j | 0 <= j < n ensures answers[..n][j] == SerialVerdict(s, cl, order[..n], j) {
        assert order == order[..n] + [order[n]];
        KeptTurns(s, cl, order[..n], order[n], j);
      }
      SerialSuccesses(s, cl, order[..n], answers[..n]);
      SerialLast(s, cl, order);
      var d0, x, now := After(s, cl, order[..n]), cl[order[n].who], order[n].now;
      SectionLeases(d0.state, x, now);
      LeasesConcat(d0.log, Section(d0.state, x, now).changes);
    }
  }

  /** Once all have returned, the log holds exactly one lease record for every claimant that got Ok under the lock. */
  lemma OneLeasePerSuccess(s: State, cl: seq<Claimant>, schedule: seq<Turn>)
    requires Turns(cl, schedule) && forall i :: 0 <= i < |cl| ==> Run(cl, Start(s, cl), schedule).pcs[i].Finished?
    ensures var c := Run(cl, Start(s, cl), schedule); Leases(c.data.log) == Successes(c.answers)
  {
    RunKeeps(s, cl, schedule);
    var c := Run(cl, Start(s, cl), schedule);
    hide Run, Serial, SerialVerdict, Leases, Successes;
    SerialSuccesses(s, cl, c.order, c.answers);
  }
}
