/**
  The durable store: an append-only log of envelopes and an atomically replaced snapshot (internal/store/durable.go).
 */
module Store {
  import opened Domain
  import opened Projection
  import opened Journal

  /** An event Append accepts and LoadReport reads back. */
  type Stored = e: Event | e.id != "" witness Event("e", DeviceRegistered, "", Opaque(""), 1)

  datatype Envelope = Envelope(version: int, event: Event)

  /** The snapshot's content: the three maps and the audit list. */
  datatype Checkpoint = Checkpoint(state: State, audit: seq<Event>)

  datatype SnapshotFile = Absent | Corrupt | Written(version: int, checkpoint: Checkpoint)

  datatype LoadError = Loaded | SnapshotCorrupt | SnapshotVersion

  datatype Report = Report(
    eventsRead: nat, corruptRecords: nat, truncatedBytes: int, snapshotLoaded: bool, version: int,
    lastValidOffset: int, corruptOffsets: seq<int>)

  /** A line LoadReport accepts: a decodable envelope of the right version with a nonempty event id. */
  function ReadLine(c: Codec<Envelope>, version: int, b: bytes): Option<Stored> {
    match c.decode(b)
    case None => None
    case Some(env) => if env.version == version && env.event.id != "" then Some(env.event) else None
  }

  function LineCodec(c: Codec<Envelope>, version: int): Codec<Stored> {
    Codec<Stored>.Codec((e: Stored) => c.encode(Envelope(version, e)), (b: bytes) => ReadLine(c, version, b))
  }

  /** What another version wrote, and what has no id, is not read. */
  lemma ForeignLines(c: Codec<Envelope>, version: int, env: Envelope)
    requires Faithful(c)
    ensures ReadLine(c, version, c.encode(env)).Some? <==> env.version == version && env.event.id != ""
    ensures ReadLine(c, version, c.encode(env)).Some? ==> ReadLine(c, version, c.encode(env)).value == env.event
  {
    assert c.decode(c.encode(env)) == Some(env);
    hide Faithful;
  }

  lemma LineCodecFaithful(c: Codec<Envelope>, version: int)
    requires Faithful(c)
    ensures Faithful(LineCodec(c, version))
  {
    var l := LineCodec(c, version);
    forall v: Stored ensures l.decode(l.encode(v)) == Some(v) && l.encode(v) != [] && NEWLINE !in l.encode(v) {
      assert c.decode(c.encode(Envelope(version, v))) == Some(Envelope(version, v));
    }
    forall v: Stored, k: nat | k < |l.encode(v)| ensures l.decode(l.encode(v)[..k]).None? {
      assert c.decode(c.encode(Envelope(version, v))[..k]).None?;
    }
    forall v: Stored, w: Stored ensures l.decode(l.encode(v) + l.encode(w)).None? {
      assert c.decode(c.encode(Envelope(version, v)) + c.encode(Envelope(version, w))).None?;
    }
  }

  /** What a crash leaves: whole records, cut bytes of the next line, and the snapshot of the moment. */
  datatype CrashPoint = CrashPoint(events: seq<Stored>, torn: Option<Stored>, cut: nat, snapshot: SnapshotFile)

  ghost predicate Possible(c: Codec<Stored>, p: CrashPoint) {
    p.torn.Some? ==> p.cut <= |c.encode(p.torn.value)|
  }

  ghost function BytesAt(c: Codec<Stored>, p: CrashPoint): bytes
    requires Possible(c, p)
  {
    match p.torn
    case None => Encoded(c, p.events)
    case Some(e) => TornFile(c, p.events, e, p.cut)
  }

  /** A snapshot holds each record under its id, and no key the log has not introduced, whatever the records say. */
  predicate SoundCheckpoint(c: Checkpoint, log: seq<Event>) {
    Keyed(c.state) && Covered(c.state, Replay(log)) && (log == [] ==> c.audit == [])
  }

  predicate SoundFile(f: SnapshotFile, version: int, log: seq<Event>) {
    match f
    case Absent => true
    case Corrupt => false
    case Written(v, c) => v == version && SoundCheckpoint(c, log)
  }

  lemma CoveredLater(s: State, log: seq<Event>, more: seq<Event>)
    requires Covered(s, Replay(log)) && log <= more
    ensures Covered(s, Replay(more))
  {
    var rest := more[|log|..];
    assert more == log + rest;
    ReplaySplit(log, rest);
    KeysGrow(Replay(log), ChangesOf(rest));
  }

  lemma SoundLater(f: SnapshotFile, version: int, log: seq<Event>, more: seq<Event>)
    requires SoundFile(f, version, log) && log <= more
    ensures SoundFile(f, version, more)
  {
    if f.Written? { CoveredLater(f.checkpoint.state, log, more); }
  }

  /** A crash point whose snapshot was sound for the records fully written by then. */
  ghost predicate SoundPoint(p: CrashPoint, version: int) {
    SoundFile(p.snapshot, version, p.events)
  }

  /** The records a load finds after the crash: a line that lost only its newline still counts. */
  ghost function Surviving(c: Codec<Stored>, p: CrashPoint): seq<Stored> {
    if p.torn.Some? && p.cut == |c.encode(p.torn.value)| then p.events + [p.torn.value] else p.events
  }

  /** The tail, if there is one, lost more than its newline. */
  ghost predicate Clean(c: Codec<Stored>, p: CrashPoint) {
    p.torn.None? || p.cut < |c.encode(p.torn.value)|
  }

  lemma CrashLoad(c: Codec<Stored>, p: CrashPoint)
    requires Faithful(c) && Possible(c, p)
    ensures GoodPrefix(c, Lines(BytesAt(c, p))) == Surviving(c, p)
    ensures Clean(c, p) ==>
      BytesAt(c, p)[..Kept(c, BytesAt(c, p))] == Encoded(c, Surviving(c, p))
  {
    match p.torn
    case Some(e) =>
      TornLoad(c, p.events, e, p.cut);
      if p.cut < |c.encode(e)| {
        assert TornFile(c, p.events, e, p.cut)[..|Encoded(c, p.events)|] == Encoded(c, p.events);
      }
    case None =>
      NothingUnreadable(c);
      LoadEncoded(c, p.events, []);
      assert Encoded(c, p.events) + [] == Encoded(c, p.events);
  }

  lemma NothingUnreadable(c: Codec<Stored>)
    requires Faithful(c)
    ensures c.decode([]).None?
  {
    EmptyIsUnreadable(c, Event("e", DeviceRegistered, "", Opaque(""), 1));
  }

  /** Every durable state a crash can leave while the line of e is being written. */
  ghost function Cuts(c: Codec<Stored>, events: seq<Stored>, e: Stored, snapshot: SnapshotFile): seq<CrashPoint> {
    seq(|c.encode(e)| + 1, k requires 0 <= k => CrashPoint(events, Some(e), k, snapshot))
  }

  /** A durable state that is possible and sound, and of which a prefix of the log survives. */
  ghost predicate SoundAt(c: Codec<Stored>, version: int, p: CrashPoint, events: seq<Stored>) {
    Possible(c, p) && SoundPoint(p, version) && Surviving(c, p) <= events
  }

  ghost predicate Recorded(c: Codec<Stored>, version: int, history: seq<CrashPoint>, events: seq<Stored>) {
    forall p :: p in history ==> SoundAt(c, version, p, events)
  }

  lemma CutsRecorded(c: Codec<Stored>, version: int, history: seq<CrashPoint>,
                     events: seq<Stored>, e: Stored, snapshot: SnapshotFile)
    requires Recorded(c, version, history, events) && SoundFile(snapshot, version, events)
    ensures SoundFile(snapshot, version, events + [e])
    ensures Recorded(c, version,
      history + Cuts(c, events, e, snapshot) + [CrashPoint(events + [e], None, 0, snapshot)], events + [e])
  {
    SoundLater(snapshot, version, events, events + [e]);
    forall p | p in history ensures SoundAt(c, version, p, events + [e]) { assert SoundAt(c, version, p, events); }
  }

  lemma EncodedSnoc(c: Codec<Stored>, events: seq<Stored>, e: Stored)
    ensures Encoded(c, events + [e]) == Encoded(c, events) + (c.encode(e) + [NEWLINE])
  {
    assert (events + [e])[..|events + [e]| - 1] == events;
    Journal.Assoc(Encoded(c, events), c.encode(e), [NEWLINE]);
  }

  // ---- the scanner loop

  /**
    The records the loop yields from the bytes still to be read; truncating mode stops at the first unreadable line.
   */
  ghost function Yield(l: Codec<Stored>, truncate: bool, b: bytes): seq<Stored>
    decreases |b|
  {
    if b == [] then []
    else
      match l.decode(b[..LineEnd(b)])
      case None => if truncate then [] else Yield(l, truncate, Rest(b))
      case Some(e) => [e] + Yield(l, truncate, Rest(b))
  }

  ghost function Rejected(l: Codec<Stored>, truncate: bool, b: bytes): nat
    decreases |b|
  {
    if b == [] then 0
    else
      match l.decode(b[..LineEnd(b)])
      case None => if truncate then 1 else 1 + Rejected(l, truncate, Rest(b))
      case Some(_) => Rejected(l, truncate, Rest(b))
  }

  lemma {:induction false} YieldIsPrefix(l: Codec<Stored>, b: bytes)
    ensures Yield(l, true, b) == GoodPrefix(l, Lines(b))
    ensures Rejected(l, true, b) == if BadLines(l, Lines(b)) > 0 then 1 else 0
    decreases |b|
  {
    if b != [] {
      YieldIsPrefix(l, Rest(b));
      ReadCons(l, b[..LineEnd(b)], Lines(Rest(b)));
    }
  }

  lemma {:induction false} YieldIsAll(l: Codec<Stored>, b: bytes)
    ensures Yield(l, false, b) == AllGood(l, Lines(b))
    ensures Rejected(l, false, b) == BadLines(l, Lines(b))
    decreases |b|
  {
    if b != [] {
      YieldIsAll(l, Rest(b));
      ReadCons(l, b[..LineEnd(b)], Lines(Rest(b)));
      assert ([b[..LineEnd(b)]] + Lines(Rest(b)))[1..] == Lines(Rest(b));
    }
  }

  /** LastValidOffset counts a terminator for every accepted line. */
  ghost function Span(l: Codec<Stored>, b: bytes): nat
    decreases |b|
  {
    if b == [] || l.decode(b[..LineEnd(b)]).None? then 0 else LineEnd(b) + 1 + Span(l, Rest(b))
  }

  /** Where the unreadable lines start, and where the last readable one ends, when the scan goes on past the former. */
  ghost function BadOffsets(l: Codec<Stored>, b: bytes, from: int): seq<int>
    decreases |b|
  {
    if b == [] then []
    else
      (if l.decode(b[..LineEnd(b)]).None? then [from] else []) + BadOffsets(l, Rest(b), from + LineEnd(b) + 1)
  }

  ghost function LastGood(l: Codec<Stored>, b: bytes, from: int, last: int): int
    decreases |b|
  {
    if b == [] then last
    else
      var next := from + LineEnd(b) + 1;
      LastGood(l, Rest(b), next, if l.decode(b[..LineEnd(b)]).None? then last else next)
  }

  lemma OffsetsStep(l: Codec<Stored>, b: bytes, from: int, last: int)
    requires b != []
    ensures var next := from + LineEnd(b) + 1;
      if l.decode(b[..LineEnd(b)]).None?
      then BadOffsets(l, b, from) == [from] + BadOffsets(l, Rest(b), next)
           && LastGood(l, b, from, last) == LastGood(l, Rest(b), next, last)
      else BadOffsets(l, b, from) == BadOffsets(l, Rest(b), next)
           && LastGood(l, b, from, last) == LastGood(l, Rest(b), next, next)
  {}

  lemma OffsetsEnd(l: Codec<Stored>, from: int, last: int)
    ensures BadOffsets(l, [], from) == [] && LastGood(l, [], from, last) == last
  {}

  /** An unreadable line starts there. */
  ghost predicate BadStart(l: Codec<Stored>, b: bytes, o: int) {
    0 <= o < |b| && l.decode(b[o..][..LineEnd(b[o..])]).None?
  }

  /** There is one offset for every unreadable line, and at each such a line starts. */
  lemma {:induction false} BadOffsetsMean(l: Codec<Stored>, all: bytes, b: bytes)
    requires |b| <= |all| && all[|all| - |b|..] == b
    ensures var bad := BadOffsets(l, b, |all| - |b|);
      |bad| == BadLines(l, Lines(b)) && forall o :: o in bad ==> BadStart(l, all, o)
    decreases |b|
  {
    hide *;
    var from := |all| - |b|;
    if b == [] {
      NoBadOffsets(l, from);
    } else {
      OffsetsStep(l, b, from, 0);
      LinesStep(l, b);
      if LineEnd(b) < |b| {
        RestIs(b);
        assert all[|all| - |Rest(b)|..] == b[|b| - |Rest(b)|..];
        BadOffsetsMean(l, all, Rest(b));
      } else {
        NothingAfter(b);
        NoBadOffsets(l, from + LineEnd(b) + 1);
      }
      if l.decode(b[..LineEnd(b)]).None? { StartsHere(l, all, b); }
    }
  }

  lemma NoBadOffsets(l: Codec<Stored>, from: int)
    ensures BadOffsets(l, [], from) == [] && BadLines(l, Lines([])) == 0
  {}

  lemma LinesStep(l: Codec<Stored>, b: bytes)
    requires b != []
    ensures BadLines(l, Lines(b)) == (if l.decode(b[..LineEnd(b)]).None? then 1 else 0) + BadLines(l, Lines(Rest(b)))
  {
    ReadCons(l, b[..LineEnd(b)], Lines(Rest(b)));
  }

  lemma NothingAfter(b: bytes)
    requires b != [] && LineEnd(b) == |b|
    ensures Rest(b) == []
  {}

  lemma StartsHere(l: Codec<Stored>, all: bytes, b: bytes)
    requires b != [] && |b| <= |all| && all[|all| - |b|..] == b && l.decode(b[..LineEnd(b)]).None?
    ensures BadStart(l, all, |all| - |b|)
  {}

  function PastEnd(k: bytes): nat { if k != [] && k[|k| - 1] != NEWLINE then |k| + 1 else |k| }

  lemma PastEndStep(b: bytes, n: nat, m: nat)
    requires n < |b| && b[n] == NEWLINE && m <= |b[n + 1..]|
    ensures PastEnd(b[..n + 1 + m]) == n + 1 + PastEnd(b[n + 1..][..m])
  {
    if m > 0 { assert b[..n + 1 + m][n + m] == b[n + 1..][..m][m - 1]; }
  }

  lemma PastEndAll(b: bytes, n: nat)
    requires b != [] && n == |b| && NEWLINE !in b[..n]
    ensures PastEnd(b) == n + 1 && b[..n] == b
  {
    assert b[..n] == b;
    assert b[n - 1] in b;
  }

  lemma NothingLeft(l: Codec<Stored>, truncate: bool)
    ensures Yield(l, truncate, []) == [] && Rejected(l, truncate, []) == 0 && Kept(l, []) == 0 && Span(l, []) == 0
  {}

  lemma LineRead(l: Codec<Stored>, truncate: bool, b: bytes, e: Stored)
    requires b != [] && l.decode(b[..LineEnd(b)]) == Some(e)
    ensures Yield(l, truncate, b) == [e] + Yield(l, truncate, Rest(b))
    ensures Rejected(l, truncate, b) == Rejected(l, truncate, Rest(b))
    ensures Kept(l, b) == |b| - |Rest(b)| + Kept(l, Rest(b)) && Span(l, b) == LineEnd(b) + 1 + Span(l, Rest(b))
  {}

  lemma LineRefused(l: Codec<Stored>, truncate: bool, b: bytes)
    requires b != [] && l.decode(b[..LineEnd(b)]).None?
    ensures Yield(l, truncate, b) == if truncate then [] else Yield(l, truncate, Rest(b))
    ensures Rejected(l, truncate, b) == 1 + if truncate then 0 else Rejected(l, truncate, Rest(b))
    ensures Kept(l, b) == 0 && Span(l, b) == 0
  {}

  lemma RestIs(b: bytes)
    requires b != [] && LineEnd(b) < |b|
    ensures Rest(b) == b[LineEnd(b) + 1..]
  {}

  lemma SpanEmpty(l: Codec<Stored>, b: bytes)
    requires b == [] || l.decode(b[..LineEnd(b)]).None?
    ensures Span(l, b) == PastEnd(b[..Kept(l, b)])
  {}

  /** So it is one past the end of the kept bytes exactly when these do not end in a newline. */
  lemma {:induction false} SpanIsKept(l: Codec<Stored>, b: bytes)
    ensures Span(l, b) == PastEnd(b[..Kept(l, b)])
    decreases |b|
  {
    hide *;
    if b == [] || l.decode(b[..LineEnd(b)]).None? {
      SpanEmpty(l, b);
    } else {
      LineEndFirst(b);
      LineRead(l, true, b, l.decode(b[..LineEnd(b)]).value);
      SpanIsKept(l, Rest(b));
      if LineEnd(b) < |b| {
        RestIs(b);
        PastEndStep(b, LineEnd(b), Kept(l, Rest(b)));
      } else {
        WholeKept(l, b);
        PastEndAll(b, LineEnd(b));
      }
    }
  }

  lemma WholeKept(l: Codec<Stored>, b: bytes)
    requires b != [] && LineEnd(b) == |b| && l.decode(b[..LineEnd(b)]).Some?
    ensures Rest(b) == [] && Kept(l, b) == |b| && b[..Kept(l, b)] == b && Span(l, b) == |b| + 1
  {}

  /** What a load finds, leaves and reports in truncating mode. */
  ghost predicate Recovered(l: Codec<Stored>, b: bytes, log: bytes, found: seq<Stored>, r: Report) {
    && found == GoodPrefix(l, Lines(b)) && log == b[..Kept(l, b)]
    && r.corruptRecords == (if BadLines(l, Lines(b)) > 0 then 1 else 0)
    && r.truncatedBytes == |b| - |log|
    && r.corruptOffsets == (if BadLines(l, Lines(b)) > 0 then [Kept(l, b)] else [])
    && r.lastValidOffset == PastEnd(log)
  }

  /** A second load in truncating mode finds the same records, nothing corrupt, and leaves the log alone. */
  lemma ReloadIsClean(l: Codec<Stored>, b: bytes, log: bytes, found: seq<Stored>, r: Report,
                      log2: bytes, found2: seq<Stored>, r2: Report)
    requires Recovered(l, b, log, found, r) && Recovered(l, log, log2, found2, r2)
    ensures found2 == found && log2 == log && r2.corruptRecords == 0 && r2.truncatedBytes == 0 &&
      r2.corruptOffsets == []
    ensures |Lines(log)| == |found| && Lines(log) <= Lines(b)
    ensures r.corruptRecords == 0 <==> log == b
  {
    hide Lines, GoodPrefix, BadLines, Kept, PastEnd;
    KeptIsGood(l, b);
    KeptIsGood(l, log);
  }

  class DurableStore {
    const codec: Codec<Envelope>
    const version: int
    const truncateCorrupt: bool
    var log: bytes
    var snapshot: SnapshotFile
    ghost var events: seq<Stored>
    ghost var history: seq<CrashPoint>

    function Lined(): Codec<Stored> { LineCodec(codec, version) }

    /** The log is whole lines, the snapshot is sound for it, and so was every durable state so far. */
    ghost predicate Valid()
      reads this
    {
      && Faithful(codec) && log == Encoded(Lined(), events)
      && SoundFile(snapshot, version, events) && Recorded(Lined(), version, history, events)
    }

    constructor (codec: Codec<Envelope>, version: int, truncateCorrupt: bool, log: bytes, snapshot: SnapshotFile)
      ensures this.codec == codec && this.version == version && this.truncateCorrupt == truncateCorrupt
      ensures this.log == log && this.snapshot == snapshot
    {
      this.codec, this.version, this.truncateCorrupt := codec, version, truncateCorrupt;
      this.log, this.snapshot := log, snapshot;
      events, history := [], [];
    }

    /** Take the records a load found as the ones this process continues from. */
    ghost method Adopt(found: seq<Stored>)
      requires Faithful(codec) && log == Encoded(Lined(), found) && SoundFile(snapshot, version, found)
      modifies this`events, this`history
      ensures Valid() && events == found && history == [CrashPoint(found, None, 0, snapshot)]
    {
      events, history := found, [CrashPoint(found, None, 0, snapshot)];
    }

    /** Append one line; a crash may leave any part of it. */
    method Append(e: Event) returns (v: Verdict)
      modifies this
      ensures v == Ok <==> e.id != "" && !(e.kind.OtherKind? && e.kind.name == "") && e.at != ZERO_TIME
      ensures snapshot == old(snapshot) && (v != Ok ==> unchanged(this))
      ensures v == Ok ==> e.id != "" && log == old(log) + (codec.encode(Envelope(version, e)) + [NEWLINE])
      ensures v == Ok ==> events == old(events) + [e]
      ensures v == Ok ==>
        history == old(history) + Cuts(Lined(), old(events), e, snapshot) + [CrashPoint(events, None, 0, snapshot)]
      ensures old(Valid()) ==> Valid()
    {
      if e.id == "" || (e.kind.OtherKind? && e.kind.name == "") || e.at == ZERO_TIME {
        return Refused(BadEvent);
      }
      var x: Stored := e;
      EncodedSnoc(Lined(), events, x);
      if Valid() { CutsRecorded(Lined(), version, history, events, x, snapshot); }
      log := log + (codec.encode(Envelope(version, e)) + [NEWLINE]);
      history := history + Cuts(Lined(), events, x, snapshot) + [CrashPoint(events + [x], None, 0, snapshot)];
      events := events + [x];
      return Ok;
    }

    /** Replace the snapshot file; the rename is atomic. */
    method Snapshot(c: Checkpoint)
      modifies this
      ensures log == old(log) && events == old(events) && snapshot == Written(version, c)
      ensures history == old(history) + [CrashPoint(events, None, 0, snapshot)]
      ensures old(Valid()) && SoundCheckpoint(c, events) ==> Valid()
    {
      snapshot := Written(version, c);
      history := history + [CrashPoint(events, None, 0, snapshot)];
    }

    /** Truncate the log, reporting the bytes removed. */
    method TruncateFrom(offset: nat) returns (removed: int)
      modifies this`log
      ensures log == if offset < |old(log)| then old(log)[..offset] else old(log)
      ensures removed == |old(log)| - |log|
    {
      if offset >= |log| {
        return 0;
      }
      removed := |log| - offset;
      log := log[..offset];
    }

    /** The scanner loop of LoadReport. */
    method ScanLog(start: Report) returns (found: seq<Stored>, report: Report)
      requires start == Report(0, 0, 0, start.snapshotLoaded, version, 0, [])
      modifies this`log
      ensures found == Yield(Lined(), truncateCorrupt, old(log)) && report.eventsRead == |found|
      ensures report.corruptRecords == Rejected(Lined(), truncateCorrupt, old(log))
      ensures log == if truncateCorrupt then old(log)[..Kept(Lined(), old(log))] else old(log)
      ensures truncateCorrupt ==>
        report.corruptOffsets == (if report.corruptRecords > 0 then [Kept(Lined(), old(log))] else [])
      ensures truncateCorrupt ==> report.lastValidOffset == Span(Lined(), old(log))
      ensures !truncateCorrupt ==>
        report.corruptOffsets == BadOffsets(Lined(), log, 0) && report.lastValidOffset == LastGood(Lined(), log, 0, 0)
      ensures report.truncatedBytes == |old(log)| - |log| && report.snapshotLoaded == start.snapshotLoaded
    {
      hide Yield, Rejected, Kept, Span, BadOffsets, LastGood, LineCodec, LineEnd;
      found, report := [], start;
      var l, b := Lined(), log;
      NothingLeft(l, truncateCorrupt);
      var offset, rest := 0, b;
      while rest != []
        invariant log == b && 0 <= offset && (rest != [] ==> offset == |b| - |rest|)
        invariant found + Yield(l, truncateCorrupt, rest) == Yield(l, truncateCorrupt, b)
        invariant report.corruptRecords + Rejected(l, truncateCorrupt, rest) == Rejected(l, truncateCorrupt, b)
        invariant report.truncatedBytes == 0 && report.eventsRead == |found| &&
          report.snapshotLoaded == start.snapshotLoaded
        invariant truncateCorrupt ==> Kept(l, b) == |b| - |rest| + Kept(l, rest) && Span(l, b) == offset + Span(l, rest)
        invariant truncateCorrupt ==>
          report.corruptRecords == 0 && report.corruptOffsets == [] && report.lastValidOffset == offset
        invariant !truncateCorrupt ==> report.corruptOffsets + BadOffsets(l, rest, offset) == BadOffsets(l, b, 0)
        invariant !truncateCorrupt ==> LastGood(l, rest, offset, report.lastValidOffset) == LastGood(l, b, 0, 0)
        decreases |rest|
      {
        var n := LineEnd(rest);
        OffsetsStep(l, rest, offset, report.lastValidOffset);
        ghost var bad := report.corruptOffsets;
        match l.decode(rest[..n]) {
          case None =>
            LineRefused(l, truncateCorrupt, rest);
            Journal.Assoc(bad, [offset], BadOffsets(l, Rest(rest), offset + n + 1));
            report := report.(corruptRecords := report.corruptRecords + 1,
                              corruptOffsets := report.corruptOffsets + [offset]);
            if truncateCorrupt {
              var removed := TruncateFrom(offset);
              report := report.(truncatedBytes := removed);
              break;
            }
          case Some(e) =>
            LineRead(l, truncateCorrupt, rest, e);
            Journal.Assoc(found, [e], Yield(l, truncateCorrupt, Rest(rest)));
            found := found + [e];
            report := report.(eventsRead := report.eventsRead + 1, lastValidOffset := offset + n + 1);
        }
        offset, rest := offset + n + 1, Rest(rest);
      }
      assert found + [] == found;
      OffsetsEnd(l, offset, report.lastValidOffset);
      assert report.corruptOffsets + [] == report.corruptOffsets;
    }

    method LoadReport() returns (err: LoadError, checkpoint: Checkpoint, found: seq<Stored>, report: Report)
      modifies this`log
      ensures err == (match snapshot
        case Absent => Loaded
        case Corrupt => SnapshotCorrupt
        case Written(v, _) => if v == version then Loaded else SnapshotVersion)
      ensures err != Loaded ==> found == [] && checkpoint == Checkpoint(EMPTY, []) && log == old(log)
      ensures err == Loaded ==> checkpoint == if snapshot.Written? then snapshot.checkpoint else Checkpoint(EMPTY, [])
      ensures err == Loaded ==> report.eventsRead == |found| && report.snapshotLoaded == snapshot.Written?
      ensures err == Loaded && truncateCorrupt ==> Recovered(Lined(), old(log), log, found, report)
      ensures err == Loaded && !truncateCorrupt ==> log == old(log) && report.truncatedBytes == 0
      ensures err == Loaded && !truncateCorrupt ==>
        found == AllGood(Lined(), Lines(log)) && report.corruptRecords == BadLines(Lined(), Lines(log))
      ensures err == Loaded && !truncateCorrupt ==>
        report.corruptOffsets == BadOffsets(Lined(), log, 0) && report.lastValidOffset == LastGood(Lined(), log, 0, 0)
    {
      checkpoint, found := Checkpoint(EMPTY, []), [];
      report := Report(0, 0, 0, false, version, 0, []);
      match snapshot {
        case Absent =>
        case Corrupt => return SnapshotCorrupt, checkpoint, found, report;
        case Written(v, c) =>
          if v != version { return SnapshotVersion, checkpoint, found, report; }
          checkpoint, report := c, report.(snapshotLoaded := true);
      }
      err := Loaded;
      YieldIsPrefix(Lined(), log);
      YieldIsAll(Lined(), log);
      SpanIsKept(Lined(), log);
      found, report := ScanLog(report);
    }
  }
}
