/** The JSONL journal: lines, valid prefixes, torn tails (internal/store/durable.go, store.go). */
module Journal {
  newtype byte = x: int | 0 <= x < 256
  type bytes = seq<byte>
  const NEWLINE: byte := 10

  datatype Option<+T> = None | Some(value: T)

  /** How one record is written on one line, and read back. */
  datatype Codec<!T> = Codec(encode: T -> bytes, decode: bytes -> Option<T>)

  /**
    What JSON gives: records decode to themselves, contain no newline, and neither a cut record nor two glued records
    decode.
   */
  ghost predicate Faithful<T(!new)>(c: Codec<T>) {
    && (forall v :: c.decode(c.encode(v)) == Some(v))
    && (forall v :: c.encode(v) != [] && NEWLINE !in c.encode(v))
    && (forall v, k: nat :: k < |c.encode(v)| ==> c.decode(c.encode(v)[..k]).None?)
    && (forall v, w :: c.decode(c.encode(v) + c.encode(w)).None?)
  }

  lemma Assoc<T>(a: seq<T>, b: seq<T>, c: seq<T>)
    ensures (a + b) + c == a + (b + c)
  {}

  // ---- lines

  /** The first newline, or the end. */
  function LineEnd(b: bytes): (n: nat)
    ensures n <= |b|
  {
    if b == [] || b[0] == NEWLINE then 0 else LineEnd(b[1..]) + 1
  }

  lemma {:induction false} LineEndFirst(b: bytes)
    ensures NEWLINE !in b[..LineEnd(b)]
    ensures LineEnd(b) < |b| ==> b[LineEnd(b)] == NEWLINE
  {
    if b != [] && b[0] != NEWLINE {
      LineEndFirst(b[1..]);
      assert b[..LineEnd(b)] == [b[0]] + b[1..][..LineEnd(b[1..])];
    }
  }

  lemma {:induction false} LineEndIs(b: bytes, n: nat)
    requires n <= |b| && NEWLINE !in b[..n] && (n < |b| ==> b[n] == NEWLINE)
    ensures LineEnd(b) == n
  {
    if n > 0 {
      assert b[0] == b[..n][0];
      assert b[1..][..n - 1] == b[..n][1..];
      LineEndIs(b[1..], n - 1);
    }
  }

  /** The bytes after the first line and its terminator. */
  function Rest(b: bytes): (r: bytes)
    requires b != []
    ensures |r| < |b| && b[|b| - |r|..] == r
  {
    if LineEnd(b) < |b| then b[LineEnd(b) + 1..] else []
  }

  /** What bufio.Scanner yields: every line, and an unterminated last one. */
  function Lines(b: bytes): seq<bytes>
    decreases |b|
  {
    if b == [] then [] else [b[..LineEnd(b)]] + Lines(Rest(b))
  }

  lemma LineThen(line: bytes, tail: bytes)
    requires NEWLINE !in line
    ensures LineEnd(line + [NEWLINE] + tail) == |line| && Rest(line + [NEWLINE] + tail) == tail
    ensures (line + [NEWLINE] + tail)[..|line|] == line
    ensures Lines(line + [NEWLINE] + tail) == [line] + Lines(tail)
  {
    var b := line + [NEWLINE] + tail;
    assert b[..|line|] == line;
    LineEndIs(b, |line|);
  }

  lemma LastLine(line: bytes)
    requires NEWLINE !in line
    ensures line != [] ==> LineEnd(line) == |line| && Rest(line) == []
    ensures Lines(line) == if line == [] then [] else [line]
  {
    assert line[..|line|] == line;
    LineEndIs(line, |line|);
  }

  // ---- reading

  /** The records of the longest prefix of readable lines, stopping at the first unreadable one. */
  function GoodPrefix<T>(c: Codec<T>, lines: seq<bytes>): seq<T> {
    if lines == [] then []
    else
      match c.decode(lines[0])
      case None => []
      case Some(v) => [v] + GoodPrefix(c, lines[1..])
  }

  /** The records of all readable lines. */
  function AllGood<T>(c: Codec<T>, lines: seq<bytes>): seq<T> {
    if lines == [] then []
    else (match c.decode(lines[0]) case None => [] case Some(v) => [v]) + AllGood(c, lines[1..])
  }

  function BadLines<T>(c: Codec<T>, lines: seq<bytes>): nat {
    if lines == [] then 0 else (if c.decode(lines[0]).None? then 1 else 0) + BadLines(c, lines[1..])
  }

  lemma ReadCons<T>(c: Codec<T>, line: bytes, lines: seq<bytes>)
    ensures GoodPrefix(c, [line] + lines) ==
      match c.decode(line) case None => [] case Some(v) => [v] + GoodPrefix(c, lines)
    ensures BadLines(c, [line] + lines) == (if c.decode(line).None? then 1 else 0) + BadLines(c, lines)
  {
    assert ([line] + lines)[1..] == lines;
  }

  /** The bytes of the readable prefix of lines, terminators included. */
  function Kept<T>(c: Codec<T>, b: bytes): (n: nat)
    ensures n <= |b|
    decreases |b|
  {
    if b == [] || c.decode(b[..LineEnd(b)]).None? then 0
    else |b| - |Rest(b)| + Kept(c, Rest(b))
  }

  lemma CutKeepsFirstLine(b: bytes, m: nat)
    requires b != [] && m <= |Rest(b)|
    ensures var k := b[..|b| - |Rest(b)| + m];
      k != [] && k[..LineEnd(k)] == b[..LineEnd(b)] && Rest(k) == Rest(b)[..m]
  {
    var e := LineEnd(b);
    LineEndFirst(b);
    var k := b[..|b| - |Rest(b)| + m];
    if e < |b| {
      assert k == b[..e] + [NEWLINE] + Rest(b)[..m];
      LineThen(b[..e], Rest(b)[..m]);
    } else {
      assert k == b;
    }
  }

  /** Cutting the file after its readable prefix leaves exactly those lines, all of them readable. */
  ghost predicate CutRight<T>(c: Codec<T>, b: bytes, k: bytes) {
    && GoodPrefix(c, Lines(k)) == GoodPrefix(c, Lines(b)) && BadLines(c, Lines(k)) == 0 && Kept(c, k) == Kept(c, b)
    && |Lines(k)| == |GoodPrefix(c, Lines(b))| && Lines(k) <= Lines(b)
  }

  lemma CutCons<T>(c: Codec<T>, line: bytes, r: bytes, b: bytes, k: bytes, kr: bytes)
    requires b != [] && b[..LineEnd(b)] == line && Rest(b) == r && c.decode(line).Some?
    requires k != [] && k[..LineEnd(k)] == line && Rest(k) == kr && |k| - |kr| == |b| - |r|
    requires CutRight(c, r, kr)
    ensures CutRight(c, b, k)
  {
    assert Lines(k) == [line] + Lines(kr) && Lines(b) == [line] + Lines(r);
    ReadCons(c, line, Lines(r));
    ReadCons(c, line, Lines(kr));
  }

  lemma {:induction false} KeptIsGood<T>(c: Codec<T>, b: bytes)
    ensures CutRight(c, b, b[..Kept(c, b)])
    ensures Kept(c, b) == |b| <==> BadLines(c, Lines(b)) == 0
    decreases |b|
  {
    if b != [] {
      ReadCons(c, b[..LineEnd(b)], Lines(Rest(b)));
      if c.decode(b[..LineEnd(b)]).Some? {
        var r := Rest(b);
        KeptIsGood(c, r);
        CutKeepsFirstLine(b, Kept(c, r));
        CutCons(c, b[..LineEnd(b)], r, b, b[..Kept(c, b)], r[..Kept(c, r)]);
      }
    }
  }

  // ---- writing

  function Encoded<T>(c: Codec<T>, vs: seq<T>): bytes {
    if vs == [] then [] else Encoded(c, vs[..|vs| - 1]) + c.encode(vs[|vs| - 1]) + [NEWLINE]
  }

  lemma {:induction false} EncodedCons<T(!new)>(c: Codec<T>, vs: seq<T>)
    requires vs != []
    ensures Encoded(c, vs) == c.encode(vs[0]) + [NEWLINE] + Encoded(c, vs[1..])
  {
    var n := |vs| - 1;
    if n > 0 {
      EncodedCons(c, vs[..n]);
      assert vs[..n][1..] == vs[1..][..n - 1];
      assert vs[1..][|vs[1..]| - 1] == vs[n];
    }
  }

  function Tail<T>(c: Codec<T>, torn: bytes): seq<T> {
    match c.decode(torn) case None => [] case Some(v) => [v]
  }

  /** Loading appended records, followed by a torn tail, gives the records and whatever the tail decodes to. */
  lemma {:induction false} LoadEncoded<T(!new)>(c: Codec<T>, vs: seq<T>, torn: bytes)
    requires Faithful(c) && NEWLINE !in torn && (torn == [] ==> c.decode(torn).None?)
    ensures GoodPrefix(c, Lines(Encoded(c, vs) + torn)) == vs + Tail(c, torn)
    ensures Kept(c, Encoded(c, vs) + torn) == |Encoded(c, vs)| + if c.decode(torn).Some? then |torn| else 0
  {
    hide *;
    if vs == [] {
      LoadTorn(c, torn);
      NothingEncoded(c, torn);
    } else {
      OneRecord(c, vs[0]);
      LoadEncoded(c, vs[1..], torn);
      FirstRecord(c, vs, torn);
      RecordThen(vs, Tail(c, torn));
    }
  }

  lemma NothingEncoded<T>(c: Codec<T>, torn: bytes)
    ensures Encoded(c, []) == [] && Encoded(c, []) + torn == torn
  {}

  lemma RecordThen<T>(vs: seq<T>, tail: seq<T>)
    requires vs != []
    ensures [vs[0]] + (vs[1..] + tail) == vs + tail
  {}

  /** What faithfulness says of a single record. */
  lemma OneRecord<T(!new)>(c: Codec<T>, v: T)
    requires Faithful(c)
    ensures c.decode(c.encode(v)) == Some(v) && NEWLINE !in c.encode(v)
  {}

  lemma LoadTorn<T>(c: Codec<T>, torn: bytes)
    requires NEWLINE !in torn && (torn == [] ==> c.decode(torn).None?)
    ensures GoodPrefix(c, Lines(torn)) == Tail(c, torn)
    ensures Kept(c, torn) == if c.decode(torn).Some? then |torn| else 0
  {
    LastLine(torn);
    if torn != [] {
      ReadCons(c, torn, []);
      assert [torn] + [] == [torn] && torn[..|torn|] == torn;
    }
  }

  /** A readable first line, whatever follows it. */
  lemma FirstLine<T>(c: Codec<T>, v: T, line: bytes, r: bytes)
    requires NEWLINE !in line && c.decode(line) == Some(v)
    ensures GoodPrefix(c, Lines(line + [NEWLINE] + r)) == [v] + GoodPrefix(c, Lines(r))
    ensures Kept(c, line + [NEWLINE] + r) == |line| + 1 + Kept(c, r)
  {
    LineThen(line, r);
    ReadCons(c, line, Lines(r));
    hide Lines, GoodPrefix, LineEnd, Rest;
  }

  lemma FirstRecord<T(!new)>(c: Codec<T>, vs: seq<T>, tail: bytes)
    requires vs != [] && c.decode(c.encode(vs[0])) == Some(vs[0]) && NEWLINE !in c.encode(vs[0])
    ensures var b, r := Encoded(c, vs) + tail, Encoded(c, vs[1..]) + tail;
      && |Encoded(c, vs)| == |c.encode(vs[0])| + 1 + |Encoded(c, vs[1..])|
      && GoodPrefix(c, Lines(b)) == [vs[0]] + GoodPrefix(c, Lines(r))
      && Kept(c, b) == |c.encode(vs[0])| + 1 + Kept(c, r)
  {
    hide *;
    EncodedCons(c, vs);
    Assoc(c.encode(vs[0]) + [NEWLINE], Encoded(c, vs[1..]), tail);
    FirstLine(c, vs[0], c.encode(vs[0]), Encoded(c, vs[1..]) + tail);
  }

  lemma EmptyIsUnreadable<T(!new)>(c: Codec<T>, v: T)
    requires Faithful(c)
    ensures c.decode([]).None?
  {
    assert c.encode(v)[..0] == [];
  }

  /** What is on disk after k bytes of one more record's line reached it. */
  function TornFile<T>(c: Codec<T>, vs: seq<T>, v: T, k: nat): bytes
    requires k <= |c.encode(v)|
  {
    Encoded(c, vs) + c.encode(v)[..k]
  }

  /** A crash in the middle of an append loses at most the record being appended. */
  lemma TornLoad<T(!new)>(c: Codec<T>, vs: seq<T>, v: T, k: nat)
    requires Faithful(c) && k <= |c.encode(v)|
    ensures GoodPrefix(c, Lines(TornFile(c, vs, v, k))) == if k == |c.encode(v)| then vs + [v] else vs
    ensures Kept(c, TornFile(c, vs, v, k)) == |Encoded(c, vs)| + if k == |c.encode(v)| then k else 0
  {
    EmptyIsUnreadable(c, v);
    var torn := c.encode(v)[..k];
    LoadEncoded(c, vs, torn);
    if k == |c.encode(v)| { assert torn == c.encode(v); } else { assert c.decode(torn).None?; }
  }

  /**
    Crash, load with truncation, append the next record, load again: the second load returns the first load's records
    and the new one exactly when the crash did not lose just the final newline. In that case the next record is glued
    on, and both are lost.
   */
  lemma AppendAfterTear<T(!new)>(c: Codec<T>, vs: seq<T>, v: T, k: nat, next: T)
    requires Faithful(c) && k <= |c.encode(v)|
    ensures var torn := TornFile(c, vs, v, k);
      var first := GoodPrefix(c, Lines(torn));
      var grown := torn[..Kept(c, torn)] + c.encode(next) + [NEWLINE];
      && (GoodPrefix(c, Lines(grown)) == first + [next] <==> k < |c.encode(v)|)
      && (k == |c.encode(v)| ==> first == vs + [v] && GoodPrefix(c, Lines(grown)) == vs)
  {
    TornLoad(c, vs, v, k);
    if k < |c.encode(v)| {
      CleanAppend(c, vs, v, k, next);
    } else {
      GluedAppend(c, vs, v, k, next);
    }
  }

  lemma CleanAppend<T(!new)>(c: Codec<T>, vs: seq<T>, v: T, k: nat, next: T)
    requires Faithful(c) && k < |c.encode(v)|
    ensures var torn := TornFile(c, vs, v, k);
      GoodPrefix(c, Lines(torn[..Kept(c, torn)] + c.encode(next) + [NEWLINE])) == vs + [next]
  {
    var torn := TornFile(c, vs, v, k);
    TornLoad(c, vs, v, k);
    EmptyIsUnreadable(c, v);
    assert torn[..Kept(c, torn)] == Encoded(c, vs);
    assert (vs + [next])[..|vs + [next]| - 1] == vs;
    LoadEncoded(c, vs + [next], []);
    assert Encoded(c, vs + [next]) + [] == Encoded(c, vs + [next]);
  }

  lemma GluedAppend<T(!new)>(c: Codec<T>, vs: seq<T>, v: T, k: nat, next: T)
    requires Faithful(c) && k == |c.encode(v)|
    ensures var torn := TornFile(c, vs, v, k);
      GoodPrefix(c, Lines(torn[..Kept(c, torn)] + c.encode(next) + [NEWLINE])) == vs
  {
    var torn, glued := TornFile(c, vs, v, k), c.encode(v) + c.encode(next);
    TornLoad(c, vs, v, k);
    assert c.encode(v)[..k] == c.encode(v) && torn[..Kept(c, torn)] == torn;
    Assoc(Encoded(c, vs), c.encode(v), c.encode(next));
    Assoc(Encoded(c, vs), glued, [NEWLINE]);
    GluedLoad(c, vs, glued);
  }

  /** A terminated unreadable line ends the readable prefix. */
  lemma {:induction false} GluedLoad<T(!new)>(c: Codec<T>, vs: seq<T>, bad: bytes)
    requires Faithful(c) && NEWLINE !in bad && c.decode(bad).None?
    ensures GoodPrefix(c, Lines(Encoded(c, vs) + (bad + [NEWLINE]))) == vs
  {
    hide *;
    if vs == [] {
      NothingEncoded(c, bad + [NEWLINE]);
      BadLine(c, bad);
    } else {
      OneRecord(c, vs[0]);
      GluedLoad(c, vs[1..], bad);
      FirstRecord(c, vs, bad + [NEWLINE]);
      assert [vs[0]] + vs[1..] == vs;
    }
  }

  lemma BadLine<T>(c: Codec<T>, bad: bytes)
    requires NEWLINE !in bad && c.decode(bad).None?
    ensures GoodPrefix(c, Lines(bad + [NEWLINE])) == []
  {
    assert bad + [NEWLINE] + [] == bad + [NEWLINE];
    LineThen(bad, []);
    ReadCons(c, bad, []);
  }

  // ---- splitLines

  function NonEmpty(lines: seq<bytes>): seq<bytes> {
    if lines == [] then [] else (if lines[0] == [] then [] else [lines[0]]) + NonEmpty(lines[1..])
  }

  /** The nonempty lines still to come, given the part of the current line already passed. */
  function Scan(current: bytes, b: bytes): seq<bytes>
    decreases |b|
  {
    if b == [] then (if current == [] then [] else [current])
    else if b[0] == NEWLINE then (if current == [] then [] else [current]) + Scan([], b[1..])
    else Scan(current + [b[0]], b[1..])
  }

  lemma LineFirst(line: bytes, b: bytes)
    requires NEWLINE !in line && b != [] && b[0] == NEWLINE
    ensures NonEmpty(Lines(line + b)) == (if line == [] then [] else [line]) + NonEmpty(Lines(b[1..]))
  {
    assert line + b == line + [NEWLINE] + b[1..];
    LineThen(line, b[1..]);
    assert ([line] + Lines(b[1..]))[1..] == Lines(b[1..]);
  }

  lemma LineOnly(line: bytes)
    requires NEWLINE !in line
    ensures NonEmpty(Lines(line)) == if line == [] then [] else [line]
  {
    LastLine(line);
    if line != [] { assert [line][1..] == []; }
  }

  lemma {:induction false} ScanIsLines(current: bytes, b: bytes, all: bytes)
    requires NEWLINE !in current && all == current + b
    ensures Scan(current, b) == NonEmpty(Lines(all))
    decreases |b|
  {
    if b == [] {
      LineOnly(current);
      assert all == current;
    } else if b[0] == NEWLINE {
      LineFirst(current, b);
      ScanIsLines([], b[1..], b[1..]);
    } else {
      var more := current + [b[0]];
      assert NEWLINE !in more;
      assert all == more + b[1..];
      ScanIsLines(more, b[1..], all);
    }
  }

  /** FileStore's own scanner agrees with the line reader on all nonempty lines. */
  method SplitLines(b: bytes) returns (r: seq<bytes>)
    ensures r == NonEmpty(Lines(b))
  {
    r := [];
    var start := 0;
    for i := 0 to |b|
      invariant start <= i && r + Scan(b[start..i], b[i..]) == Scan([], b)
    {
      assert b[i..][1..] == b[i + 1..];
      if b[i] == NEWLINE {
        Assoc(r, if i > start then [b[start..i]] else [], Scan([], b[i + 1..]));
        if i > start {
          r := r + [b[start..i]];
        }
        start := i + 1;
      } else {
        assert b[start..i] + [b[i]] == b[start..i + 1];
      }
    }
    assert b[start..|b|] == b[start..];
    if start < |b| {
      r := r + [b[start..]];
    }
    ScanIsLines([], b, b);
  }
}
