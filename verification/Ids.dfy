/** The id generator (internal/ports/id.go): a prefix, the wall clock and a counter, and why its ids never repeat. */
module Ids {

  /** The digits of a natural number. */
  function Decimal(n: nat): (s: string)
    ensures s != [] && '-' !in s
  {
    if n < 10 then [Digit(n)] else Decimal(n / 10) + [Digit(n % 10)]
  }

  function Digit(d: nat): (c: char)
    requires d < 10
    ensures c != '-'
  {
    '0' + d as char
  }

  lemma {:induction false} DecimalInjective(n: nat, m: nat)
    requires Decimal(n) == Decimal(m)
    ensures n == m
  {
    var s := Decimal(n);
    assert s[|s| - 1] == Digit(n % 10) == Digit(m % 10);
    if n < 10 || m < 10 {
      assert |Decimal(n / 10)| > 0 && |Decimal(m / 10)| > 0;
    } else {
      assert s[..|s| - 1] == Decimal(n / 10) == Decimal(m / 10);
      DecimalInjective(n / 10, m / 10);
    }
  }

  /** A text without dashes after the last dash can be read back. */
  lemma LastDash(a: string, x: string, b: string, y: string)
    requires a + "-" + x == b + "-" + y && '-' !in x && '-' !in y
    ensures a == b && x == y
  {
    var s := a + "-" + x;
    NoDashAfter(a, x);
    NoDashAfter(b, y);
    assert s[|a|] == '-' && s[|b|] == '-';
    assert s[..|a|] == a && s[..|b|] == b && s[|a| + 1..] == x && s[|b| + 1..] == y;
  }

  lemma NoDashAfter(a: string, x: string)
    requires '-' !in x
    ensures var s := a + "-" + x; forall k :: |a| < k < |s| ==> s[k] != '-'
  {
    var s := a + "-" + x;
    forall k | |a| < k < |s| ensures s[k] != '-' { assert s[k] == x[k - |a| - 1]; }
  }

  /** What New returns at this wall time with this value of the counter. */
  function Format(prefix: string, wall: nat, n: nat): (id: string)
    ensures prefix <= id && id != ""
  {
    prefix + "-" + Decimal(wall) + "-" + Decimal(n)
  }

  /** Whatever the prefixes, ids are equal only if they were made at the same wall time with the same count. */
  lemma FormatInjective(p: string, v: nat, m: nat, q: string, w: nat, n: nat)
    requires Format(p, v, m) == Format(q, w, n)
    ensures p == q && v == w && m == n
  {
    LastDash(p + "-" + Decimal(v), Decimal(m), q + "-" + Decimal(w), Decimal(n));
    LastDash(p, Decimal(v), q, Decimal(w));
    DecimalInjective(v, w);
    DecimalInjective(m, n);
  }

  /** Made before the process started, or by it with a smaller or equal count. */
  ghost predicate Made(id: string, start: nat, wall: nat, n: nat) {
    exists p: string, w: nat, m: nat :: id == Format(p, w, m) && w <= wall && (w < start || m <= n)
  }

  lemma NotMade(prefix: string, start: nat, wall: nat, n: nat)
    requires start <= wall
    ensures !Made(Format(prefix, wall, n + 1), start, wall, n)
  {
    var id := Format(prefix, wall, n + 1);
    if Made(id, start, wall, n) {
      var p: string, w: nat, m: nat :| id == Format(p, w, m) && w <= wall && (w < start || m <= n);
      FormatInjective(p, w, m, prefix, wall, n + 1);
    }
  }

  class SequenceID {
    var n: nat
    var wall: nat            // what time.Now().UnixNano() returns; it only moves on
    ghost var start: nat     // the wall time at which the process started
    ghost var issued: set<string>  // all ids made so far, by earlier processes too

    ghost predicate Valid()
      reads this
    {
      start <= wall && forall id :: id in issued ==> Made(id, start, wall, n)
    }

    /** A new process, started after all that made the ids taken. */
    constructor (wall: nat, ghost taken: set<string>)
      requires forall id :: id in taken ==> Made(id, wall, wall, 0)
      ensures Valid() && issued == taken && n == 0 && this.wall == start == wall
    {
      n, this.wall, start, issued := 0, wall, wall, taken;
    }

    /** Time passes. */
    method Pass(d: nat)
      modifies this`wall
      ensures wall == old(wall) + d && (old(Valid()) ==> Valid())
    {
      wall := wall + d;
      LaterMade(issued, start, wall - d, wall, n, n);
    }

    method New(prefix: string) returns (id: string)
      requires Valid()
      modifies this
      ensures Valid() && id == Format(prefix, wall, n) && n == old(n) + 1 && wall == old(wall) && start == old(start)
      ensures prefix <= id && id != "" && id !in old(issued) && issued == old(issued) + {id}
    {
      n := n + 1;
      id := Format(prefix, wall, n);
      NotMade(prefix, start, wall, n - 1);
      LaterMade(issued, start, wall, wall, n - 1, n);
      assert Made(id, start, wall, n);
      issued := issued + {id};
    }

    /** What was made so far was made before any process that starts at a later wall time. */
    lemma MadeBefore(later: nat)
      requires Valid() && wall < later
      ensures forall id :: id in issued ==> Made(id, later, later, 0)
    {
      forall id | id in issued ensures Made(id, later, later, 0) {
        var p: string, w: nat, m: nat :| id == Format(p, w, m) && w <= wall && (w < start || m <= n);
      }
    }
  }

  lemma LaterMade(ids: set<string>, start: nat, wall: nat, later: nat, n: nat, more: nat)
    requires wall <= later && n <= more
    ensures forall id :: id in ids && Made(id, start, wall, n) ==> Made(id, start, later, more)
  {
    forall id | id in ids && Made(id, start, wall, n) ensures Made(id, start, later, more) {
      var p: string, w: nat, m: nat :| id == Format(p, w, m) && w <= wall && (w < start || m <= n);
      assert id == Format(p, w, m) && w <= later && (w < start || m <= more);
    }
  }
}
