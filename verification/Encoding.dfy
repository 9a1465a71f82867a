/** A faithful codec for the store's envelopes exists: what the service assumes of JSON can be met. */
module Encoding {
  import opened Domain
  import opened Projection
  import opened Journal
  import opened Store

  // ---- records as trees

  datatype Tree = Num(n: int) | Str(s: string) | Pair(a: Tree, b: Tree)

  function ListTree(xs: seq<string>): Tree {
    if xs == [] then Num(0) else Pair(Str(xs[0]), ListTree(xs[1..]))
  }

  lemma {:induction false} ListTreeInjective(xs: seq<string>, ys: seq<string>)
    requires ListTree(xs) == ListTree(ys)
    ensures xs == ys
  {
    if xs != [] && ys != [] {
      ListTreeInjective(xs[1..], ys[1..]);
      assert xs == [xs[0]] + xs[1..] && ys == [ys[0]] + ys[1..];
    }
  }

  function TaskStatusCode(s: TaskStatus): int {
    match s
    case TaskQueued => 0 case TaskLeased => 1 case TaskInstalling => 2 case TaskAwaiting => 3 case TaskCompleted => 4
    case TaskRejected => 5 case TaskFailed => 6 case TaskRollbackQueued => 7
    case TaskRollingBack => 8 case TaskRolledBack => 9
  }

  function ReleaseStatusCode(s: ReleaseStatus): int {
    match s
    case StatusQueued => 0 case StatusPreflight => 1 case StatusInstalling => 2
    case StatusAwaiting => 3 case StatusCompleted => 4
    case StatusPaused => 5 case StatusRollbackPending => 6 case StatusRolledBack => 7 case StatusFailed => 8
  }

  function BoolCode(b: bool): int { if b then 1 else 0 }

  function TaskTree(t: Task): Tree {
    Pair(Str(t.id), Pair(Str(t.releaseId), Pair(Str(t.deviceId),
    Pair(Num(TaskStatusCode(t.status)), Pair(Str(t.leaseOwner),
    Pair(Num(t.leaseUntil), Pair(Num(t.attempts), Pair(Num(t.nextRetry), Pair(Num(t.updatedAt), Str(t.error))))))))))
  }

  function ReleaseTree(r: Release): Tree {
    Pair(Str(r.id), Pair(Str(r.version), Pair(ListTree(r.devices), Pair(Num(r.batchSize), Pair(Num(r.maxConcurrent),
    Pair(Num(r.retryLimit), Pair(Num(r.rollback.maxFailures), Pair(Num(BoolCode(r.rollback.auto)),
    Pair(Num(ReleaseStatusCode(r.status)), Pair(Num(r.createdAt), Pair(Num(r.updatedAt),
    Pair(Num(r.completed), Num(r.failed)))))))))))))
  }

  function DeviceTree(d: Device): Tree {
    Pair(Str(d.id), Pair(Str(d.firmware), Pair(ListTree(d.capabilities), Pair(Num(d.registeredAt),
    Pair(Num(d.lastSeen), Num(BoolCode(d.online)))))))
  }

  function KindTree(k: Kind): Tree {
    match k
    case ReleaseCreated => Num(0) case DeviceRegistered => Num(1) case TaskCreated => Num(2)
    case TaskUpdated => Num(3) case ReleaseUpdated => Num(4) case OtherKind(name) => Str(name)
  }

  function PayloadTree(p: Payload): Tree {
    match p
    case TaskData(t) => Pair(Num(0), TaskTree(t))
    case ReleaseData(r) => Pair(Num(1), ReleaseTree(r))
    case DeviceData(d) => Pair(Num(2), DeviceTree(d))
    case Opaque(b) => Pair(Num(3), Str(b))
  }

  function EnvelopeTree(v: Envelope): Tree {
    var e := v.event;
    Pair(Num(v.version), Pair(Str(e.id),
    Pair(KindTree(e.kind), Pair(Str(e.aggregate), Pair(PayloadTree(e.data), Num(e.at))))))
  }

  lemma ReleaseTreeInjective(r: Release, q: Release)
    requires ReleaseTree(r) == ReleaseTree(q)
    ensures r == q
  {
    ListTreeInjective(r.devices, q.devices);
    hide ListTree;
  }

  lemma DeviceTreeInjective(d: Device, e: Device)
    requires DeviceTree(d) == DeviceTree(e)
    ensures d == e
  {
    ListTreeInjective(d.capabilities, e.capabilities);
    hide ListTree;
  }

  lemma PayloadTreeInjective(p: Payload, q: Payload)
    requires PayloadTree(p) == PayloadTree(q)
    ensures p == q
  {
    if p.ReleaseData? && q.ReleaseData? { ReleaseTreeInjective(p.release, q.release); }
    if p.DeviceData? && q.DeviceData? { DeviceTreeInjective(p.device, q.device); }
    hide ReleaseTree, DeviceTree;
  }

  lemma EnvelopeTreeInjective(v: Envelope, w: Envelope)
    requires EnvelopeTree(v) == EnvelopeTree(w)
    ensures v == w
  {
    PayloadTreeInjective(v.event.data, w.event.data);
    hide PayloadTree;
  }

  // ---- trees as bytes, each part ending where it shows

  const ONE: byte := 1
  const STOP: byte := 2
  const END: byte := 3
  const PLUS: byte := 20
  const MINUS: byte := 21
  const TEXT: byte := 22
  const TEXT_END: byte := 23
  const NODE: byte := 24

  function Unary(n: nat): bytes { if n == 0 then [STOP] else [ONE] + Unary(n - 1) }

  function Chars(s: string): bytes { if s == [] then [TEXT_END] else Unary(s[0] as int) + Chars(s[1..]) }

  function Written(t: Tree): bytes {
    match t
    case Num(n) => if n >= 0 then [PLUS] + Unary(n) else [MINUS] + Unary(-n)
    case Str(s) => [TEXT] + Chars(s)
    case Pair(a, b) => [NODE] + (Written(a) + Written(b))
  }

  lemma ConsInjective(p: byte, u: bytes, q: byte, v: bytes)
    requires [p] + u == [q] + v
    ensures p == q && u == v
  {
    assert ([p] + u)[0] == p && ([q] + v)[0] == q;
    assert ([p] + u)[1..] == u && ([q] + v)[1..] == v;
  }

  lemma {:induction false} UnaryDelimits(n: nat, m: nat, x: bytes, y: bytes)
    requires Unary(n) + x == Unary(m) + y
    ensures n == m && x == y
  {
    if n > 0 { Journal.Assoc([ONE], Unary(n - 1), x); }
    if m > 0 { Journal.Assoc([ONE], Unary(m - 1), y); }
    if n == 0 || m == 0 {
      ConsInjective(if n == 0 then STOP else ONE, if n == 0 then x else Unary(n - 1) + x,
                    if m == 0 then STOP else ONE, if m == 0 then y else Unary(m - 1) + y);
    } else {
      ConsInjective(ONE, Unary(n - 1) + x, ONE, Unary(m - 1) + y);
      UnaryDelimits(n - 1, m - 1, x, y);
    }
  }

  lemma UnaryStarts(n: nat, x: bytes)
    ensures (Unary(n) + x)[0] == ONE || (Unary(n) + x)[0] == STOP
  {}

  lemma CharsStart(s: string, x: bytes)
    ensures (Chars(s) + x)[0] == TEXT_END <==> s == []
  {
    if s != [] { UnaryStarts(s[0] as int, Chars(s[1..])); }
  }

  lemma {:induction false} CharsDelimit(s: string, t: string, x: bytes, y: bytes)
    requires Chars(s) + x == Chars(t) + y
    ensures s == t && x == y
  {
    CharsStart(s, x);
    CharsStart(t, y);
    if s == [] {
      ConsInjective(TEXT_END, x, TEXT_END, y);
    } else {
      Journal.Assoc(Unary(s[0] as int), Chars(s[1..]), x);
      Journal.Assoc(Unary(t[0] as int), Chars(t[1..]), y);
      UnaryDelimits(s[0] as int, t[0] as int, Chars(s[1..]) + x, Chars(t[1..]) + y);
      CharsDelimit(s[1..], t[1..], x, y);
      assert s == [s[0]] + s[1..] && t == [t[0]] + t[1..];
    }
  }

  function Tag(t: Tree): byte {
    match t case Num(n) => if n >= 0 then PLUS else MINUS case Str(_) => TEXT case Pair(_, _) => NODE
  }

  function Body(t: Tree): bytes {
    match t
    case Num(n) => if n >= 0 then Unary(n) else Unary(-n)
    case Str(s) => Chars(s)
    case Pair(a, b) => Written(a) + Written(b)
  }

  lemma TagThenBody(t: Tree, x: bytes)
    ensures Written(t) + x == [Tag(t)] + (Body(t) + x)
  {
    Journal.Assoc([Tag(t)], Body(t), x);
  }

  lemma {:induction false} WrittenDelimits(t: Tree, u: Tree, x: bytes, y: bytes)
    requires Written(t) + x == Written(u) + y
    ensures t == u && x == y
  {
    hide Written, Unary, Chars;
    TagThenBody(t, x);
    TagThenBody(u, y);
    ConsInjective(Tag(t), Body(t) + x, Tag(u), Body(u) + y);
    match t
    case Num(n) => UnaryDelimits(if n >= 0 then n else -n, if u.n >= 0 then u.n else -u.n, x, y);
    case Str(s) => CharsDelimit(s, u.s, x, y);
    case Pair(a, b) =>
      Journal.Assoc(Written(a), Written(b), x);
      Journal.Assoc(Written(u.a), Written(u.b), y);
      WrittenDelimits(a, u.a, Written(b) + x, Written(u.b) + y);
      WrittenDelimits(b, u.b, x, y);
  }

  predicate Inner(b: bytes) { END !in b && NEWLINE !in b }

  lemma {:induction false} UnaryInner(n: nat)
    ensures Inner(Unary(n))
  {
    if n > 0 { UnaryInner(n - 1); }
  }

  lemma {:induction false} CharsInner(s: string)
    ensures Inner(Chars(s))
  {
    if s != [] {
      UnaryInner(s[0] as int);
      CharsInner(s[1..]);
    }
  }

  lemma {:induction false} WrittenInner(t: Tree)
    ensures Inner(Written(t))
  {
    match t
    case Num(n) => UnaryInner(if n >= 0 then n else -n);
    case Str(s) => CharsInner(s);
    case Pair(a, b) =>
      WrittenInner(a);
      WrittenInner(b);
  }

  // ---- the codec

  function Line(v: Envelope): bytes { Written(EnvelopeTree(v)) + [END] }

  lemma LineInjective(v: Envelope, w: Envelope)
    requires Line(v) == Line(w)
    ensures v == w
  {
    hide Written, EnvelopeTree;
    WrittenDelimits(EnvelopeTree(v), EnvelopeTree(w), [END], [END]);
    EnvelopeTreeInjective(v, w);
  }

  /** A line ends at its only end mark. */
  lemma LineEnds(v: Envelope)
    ensures var b := Line(v); b != [] && NEWLINE !in b && b[|b| - 1] == END && END !in b[..|b| - 1]
  {
    WrittenInner(EnvelopeTree(v));
    assert Line(v)[..|Line(v)| - 1] == Written(EnvelopeTree(v));
    hide Written, EnvelopeTree;
  }

  ghost function ReadBack(b: bytes): Option<Envelope> {
    if exists v: Envelope :: Line(v) == b then
      var v: Envelope :| Line(v) == b;
      Some(v)
    else None
  }

  ghost function EnvelopeCodec(): Codec<Envelope> {
    Codec<Envelope>.Codec((v: Envelope) => Line(v), (b: bytes) => ReadBack(b))
  }

  lemma ReadsBack(v: Envelope)
    ensures ReadBack(Line(v)) == Some(v)
  {
    hide Line;
    var w: Envelope := ReadBack(Line(v)).value;
    LineInjective(v, w);
  }

  lemma EnvelopeCodecFaithful()
    ensures Faithful(EnvelopeCodec())
  {
    hide Line, ReadBack;
    var c := EnvelopeCodec();
    forall v: Envelope ensures c.decode(c.encode(v)) == Some(v) { ReadsBack(v); }
    forall v: Envelope ensures c.encode(v) != [] && NEWLINE !in c.encode(v) { LineEnds(v); }
    forall v: Envelope, k: nat | k < |c.encode(v)| ensures c.decode(c.encode(v)[..k]).None? { CutUnreadable(v, k); }
    forall v: Envelope, w: Envelope ensures c.decode(c.encode(v) + c.encode(w)).None? { GluedUnreadable(v, w); }
  }

  lemma CutUnreadable(v: Envelope, k: nat)
    requires k < |Line(v)|
    ensures ReadBack(Line(v)[..k]).None?
  {
    hide Line;
    forall w: Envelope ensures Line(w) != Line(v)[..k] {
      LineEnds(v);
      LineEnds(w);
      if k > 0 { assert Line(v)[..k][k - 1] == Line(v)[..|Line(v)| - 1][k - 1] != END; }
    }
  }

  lemma GluedUnreadable(v: Envelope, w: Envelope)
    ensures ReadBack(Line(v) + Line(w)).None?
  {
    hide Line;
    LineEnds(v);
    LineEnds(w);
    forall u: Envelope ensures Line(u) != Line(v) + Line(w) { NotGlued(v, w, u); }
  }

  lemma NotGlued(v: Envelope, w: Envelope, u: Envelope)
    ensures Line(u) != Line(v) + Line(w)
  {
    hide Line;
    LineEnds(v);
    LineEnds(w);
    LineEnds(u);
    var b, i := Line(v) + Line(w), |Line(v)| - 1;
    assert b[..|b| - 1][i] == END;
    assert END in b[..|b| - 1];
  }
}
