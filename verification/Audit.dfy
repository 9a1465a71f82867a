/**
  Audit summaries: filtered counts and a bounded list of the most recent events, and their merge
  (internal/audit/summary.go).
 */
module Audit {
  import opened Domain
  import opened Projection
  import opened Sorting
  import opened Text

  /** The zero time leaves a bound open. The counts are keyed by event type, trimmed data and aggregate. */
  datatype Summary = Summary(
    total: int, since: Time, until: Time,
    types: map<Kind, int>, actors: map<string, int>, aggregates: map<string, int>, recent: seq<Event>)

  /** A Go map: a summary refers to it, and so does any copy of the summary. */
  class Tally<K(!new, ==)> {
    var m: map<K, int>

    constructor ()
      ensures m == map[]
    {
      m := map[];
    }
  }

  /** A summary as the program holds it; a nil map reads as empty. */
  datatype LiveSummary = LiveSummary(
    total: int, since: Time, until: Time,
    types: Tally?<Kind>, actors: Tally?<string>, aggregates: Tally?<string>, recent: seq<Event>)
  {
    function Val(): Summary
      reads types, actors, aggregates
    {
      Summary(total, since, until, Content(types), Content(actors), Content(aggregates), recent)
    }
  }

  function Content<K(!new)>(t: Tally?<K>): map<K, int>
    reads t
  {
    if t == null then map[] else t.m
  }

  const DEFAULT_LIMIT := 20

  predicate InWindow(e: Event, since: Time, until: Time) {
    !(since != ZERO_TIME && e.at < since) && !(until != ZERO_TIME && e.at > until)
  }

  function Filtered(xs: seq<Event>, since: Time, until: Time): seq<Event> {
    if xs == [] then []
    else
      var n := |xs| - 1;
      if InWindow(xs[n], since, until) then Filtered(xs[..n], since, until) + [xs[n]]
      else Filtered(xs[..n], since, until)
  }

  // ---- counts

  /** How often each key occurs. */
  function Counts<K>(m: multiset<K>): map<K, int> { map k | k in m :: m[k] }

  function Get<K>(m: map<K, int>, k: K): int { if k in m then m[k] else 0 }

  function Added<K>(a: map<K, int>, b: map<K, int>): map<K, int> {
    map k | k in a.Keys + b.Keys :: Get(a, k) + Get(b, k)
  }

  lemma CountOneMore<K>(m: multiset<K>, k: K)
    ensures Counts(m + multiset{k}) == Counts(m)[k := Get(Counts(m), k) + 1]
  {}

  lemma CountsAdd<K>(a: multiset<K>, b: multiset<K>)
    ensures Counts(a + b) == Added(Counts(a), Counts(b))
  {}

  function Actor(text: Payload -> string, e: Event): string { TrimSpace(text(e.data)) }

  function Types(xs: seq<Event>): multiset<Kind> { multiset(seq(|xs|, i requires 0 <= i < |xs| => xs[i].kind)) }

  function Aggregates(xs: seq<Event>): multiset<string> {
    multiset(seq(|xs|, i requires 0 <= i < |xs| => xs[i].aggregate))
  }

  function Actors(text: Payload -> string, xs: seq<Event>): multiset<string> {
    multiset(seq(|xs|, i requires 0 <= i < |xs| => Actor(text, xs[i])))[[] := 0]
  }

  lemma TypesSnoc(xs: seq<Event>, e: Event)
    ensures Types(xs + [e]) == Types(xs) + multiset{e.kind}
  {
    var f := (ys: seq<Event>) => seq(|ys|, i requires 0 <= i < |ys| => ys[i].kind);
    assert f(xs + [e]) == f(xs) + [e.kind];
  }

  lemma AggregatesSnoc(xs: seq<Event>, e: Event)
    ensures Aggregates(xs + [e]) == Aggregates(xs) + multiset{e.aggregate}
  {
    var f := (ys: seq<Event>) => seq(|ys|, i requires 0 <= i < |ys| => ys[i].aggregate);
    assert f(xs + [e]) == f(xs) + [e.aggregate];
  }

  lemma ActorsSnoc(text: Payload -> string, xs: seq<Event>, e: Event)
    ensures Actors(text, xs + [e])
      == if Actor(text, e) == [] then Actors(text, xs) else Actors(text, xs) + multiset{Actor(text, e)}
  {
    var f := (ys: seq<Event>) => seq(|ys|, i requires 0 <= i < |ys| => Actor(text, ys[i]));
    assert f(xs + [e]) == f(xs) + [Actor(text, e)];
  }

  // ---- the most recent events

  const BY_TIME: (Event, Event) -> bool := (a: Event, b: Event) => a.at < b.at

  lemma ByTimeOrders()
    ensures Orders(BY_TIME)
  {}

  function LastOf<T>(xs: seq<T>, k: nat): seq<T> { if |xs| > k then xs[|xs| - k..] else xs }

  /** The last k of some ordering by time; events at the same instant may come in any order. */
  ghost predicate MostRecent(xs: seq<Event>, k: nat, recent: seq<Event>) {
    exists ys :: multiset(ys) == multiset(xs) && Sorted(ys, BY_TIME) && recent == LastOf(ys, k)
  }

  // ---- Build and Merge

  ghost predicate Built(text: Payload -> string, xs: seq<Event>, since: Time, until: Time, limit: int, s: Summary) {
    var fs := Filtered(xs, since, until);
    && s.since == since && s.until == until && s.total == |fs|
    && s.types == Counts(Types(fs)) && s.aggregates == Counts(Aggregates(fs)) && s.actors == Counts(Actors(text, fs))
    && MostRecent(fs, if limit <= 0 then DEFAULT_LIMIT else limit, s.recent)
  }

  method Build(text: Payload -> string, eventsIn: seq<Event>, since: Time, until: Time, limit: int)
    returns (out: LiveSummary)
    ensures out.types != null && out.actors != null && out.aggregates != null && out.actors != out.aggregates
    ensures fresh(out.types) && fresh(out.actors) && fresh(out.aggregates)
    ensures Built(text, eventsIn, since, until, limit, out.Val())
  {
    hide Counts, Types, Aggregates, Actors, Orders, Sorted, Filtered, InWindow, Actor;
    var filtered: seq<Event> := [];
    var types := new Tally<Kind>();
    var actors := new Tally<string>();
    var aggregates := new Tally<string>();
    var total := 0;
    NothingCounted(text, eventsIn, since, until);
    for i := 0 to |eventsIn|
      invariant filtered == Filtered(eventsIn[..i], since, until) && total == |filtered|
      invariant types.m == Counts(Types(filtered)) && actors.m == Counts(Actors(text, filtered))
      invariant aggregates.m == Counts(Aggregates(filtered))
      modifies types, actors, aggregates
    {
      var e := eventsIn[i];
      FilteredSnoc(eventsIn, i, since, until);
      if !InWindow(e, since, until) { continue; }
      OneCounted(text, filtered, e);
      total := total + 1;
      types.m := types.m[e.kind := Get(types.m, e.kind) + 1];
      aggregates.m := aggregates.m[e.aggregate := Get(aggregates.m, e.aggregate) + 1];
      var actor := Actor(text, e);
      if actor != "" {
        actors.m := actors.m[actor := Get(actors.m, actor) + 1];
      }
      filtered := filtered + [e];
    }
    assert eventsIn[..|eventsIn|] == eventsIn;
    ByTimeOrders();
    var sorted := SortSlice(filtered, BY_TIME);
    var max := if limit <= 0 then DEFAULT_LIMIT else limit;
    var recent := if |sorted| > max then sorted[|sorted| - max..] else sorted;
    assert recent == LastOf(sorted, max);
    out := LiveSummary(total, since, until, types, actors, aggregates, recent);
  }

  lemma NothingCounted(text: Payload -> string, xs: seq<Event>, since: Time, until: Time)
    ensures Filtered(xs[..0], since, until) == []
    ensures Counts(Types([])) == map[] && Counts(Aggregates([])) == map[] && Counts(Actors(text, [])) == map[]
  {}

  lemma FilteredSnoc(xs: seq<Event>, i: nat, since: Time, until: Time)
    requires i < |xs|
    ensures Filtered(xs[..i + 1], since, until)
      == if InWindow(xs[i], since, until) then Filtered(xs[..i], since, until) + [xs[i]]
        else Filtered(xs[..i], since, until)
  {
    assert xs[..i + 1][..i] == xs[..i];
  }

  lemma OneCounted(text: Payload -> string, fs: seq<Event>, e: Event)
    ensures Counts(Types(fs + [e])) == Counts(Types(fs))[e.kind := Get(Counts(Types(fs)), e.kind) + 1]
    ensures Counts(Aggregates(fs + [e]))
      == Counts(Aggregates(fs))[e.aggregate := Get(Counts(Aggregates(fs)), e.aggregate) + 1]
    ensures var a := Actor(text, e);
      Counts(Actors(text, fs + [e]))
      == if a == [] then Counts(Actors(text, fs))
        else Counts(Actors(text, fs))[a := Get(Counts(Actors(text, fs)), a) + 1]
  {
    hide *;
    TypesSnoc(fs, e);
    AggregatesSnoc(fs, e);
    ActorsSnoc(text, fs, e);
    CountOneMore(Types(fs), e.kind);
    CountOneMore(Aggregates(fs), e.aggregate);
    CountOneMore(Actors(text, fs), Actor(text, e));
  }

  ghost predicate Merged(a: Summary, b: Summary, out: Summary) {
    && out.total == a.total + b.total
    && out.since == (if a.since == ZERO_TIME || (b.since != ZERO_TIME && b.since < a.since) then b.since else a.since)
    && out.until == (if b.until > a.until then b.until else a.until)
    && out.types == Added(a.types, b.types) && out.actors == Added(a.actors, b.actors)
    && out.aggregates == Added(a.aggregates, b.aggregates)
    && MostRecent(a.recent + b.recent, DEFAULT_LIMIT, out.recent)
  }

  /** Adds the counts of one map to those of another, in place; both may be the same map. */
  method AddCounts<K(!new, ==)>(out: Tally<K>, b: Tally<K>)
    modifies out
    ensures out.m == Added(old(out.m), old(b.m))
  {
    hide Added, Except;
    ghost var a, c := out.m, b.m;
    var left := b.m.Keys;
    NothingAdded(a, c);
    while left != {}
      invariant left <= c.Keys && out.m == Added(a, Except(c, left))
      invariant forall k :: k in left ==> k in b.m && b.m[k] == c[k]
    {
      var k :| k in left;
      OneAdded(a, c, left, k);
      left := left - {k};
      out.m := out.m[k := Get(out.m, k) + b.m[k]];
    }
  }

  ghost function Except<K>(m: map<K, int>, left: set<K>): map<K, int> { map k | k in m && k !in left :: m[k] }

  lemma NothingAdded<K>(a: map<K, int>, b: map<K, int>)
    ensures Added(a, Except(b, b.Keys)) == a && Except(b, {}) == b
  {}

  lemma AddedNothing<K>(a: map<K, int>)
    ensures Added(a, map[]) == a
  {}

  lemma OneAdded<K>(a: map<K, int>, b: map<K, int>, left: set<K>, k: K)
    requires k in left && k in b
    ensures var before, after := Added(a, Except(b, left)), Added(a, Except(b, left - {k}));
      Get(before, k) == Get(a, k) && after == before[k := Get(before, k) + b[k]]
    ensures forall x :: x in left && x in b ==> Get(Added(a, Except(b, left)), x) == Get(a, x)
  {}

  /** A nil map is replaced by a new one, then the counts of b are added. */
  method Grown<K(!new, ==)>(a: Tally?<K>, b: Tally?<K>) returns (out: Tally<K>)
    modifies a
    ensures out.m == Added(old(Content(a)), old(Content(b)))
    ensures if a != null then out == a else fresh(out)
  {
    NothingAdded(Content(a), Content(b));
    if a == null {
      out := new Tally<K>();
    } else {
      out := a;
    }
    if b != null {
      AddCounts(out, b);
    } else {
      AddedNothing(out.m);
    }
  }

  method MergeRecent(a: seq<Event>, b: seq<Event>) returns (recent: seq<Event>)
    ensures MostRecent(a + b, DEFAULT_LIMIT, recent)
  {
    ByTimeOrders();
    var sorted := SortSlice(a + b, BY_TIME);
    recent := if |sorted| > DEFAULT_LIMIT then sorted[|sorted| - DEFAULT_LIMIT..] else sorted;
    assert recent == LastOf(sorted, DEFAULT_LIMIT);
  }

  method MergeWindow(sa: Time, ua: Time, sb: Time, ub: Time) returns (since: Time, until: Time)
    ensures since == if sa == ZERO_TIME || (sb != ZERO_TIME && sb < sa) then sb else sa
    ensures until == if ub > ua then ub else ua
  {
    since, until := sa, ua;
    if since == ZERO_TIME || (sb != ZERO_TIME && sb < since) {
      since := sb;
    }
    if ub > until {
      until := ub;
    }
  }

  lemma Shown(s: LiveSummary)
    requires s.types != null && s.actors != null && s.aggregates != null
    ensures s.Val() == Summary(s.total, s.since, s.until, s.types.m, s.actors.m, s.aggregates.m, s.recent)
  {}

  /** The two maps of the first summary are two, and the aggregates of the second are not its actors. */
  predicate Separate(a: LiveSummary, b: LiveSummary) {
    a.actors == null || (a.actors != a.aggregates && a.actors != b.aggregates)
  }

  predicate Same(x: Tally?<string>, y: Tally?<string>) { x != null && x == y }

  /** Merged, but for aggregates that share the map to which the actors were added just before. */
  ghost predicate MergedInTurn(a: LiveSummary, b: LiveSummary, va: Summary, vb: Summary, out: Summary) {
    var actors := Added(va.actors, vb.actors);
    && Merged(va.(aggregates := if Same(a.aggregates, a.actors) then actors else va.aggregates),
              vb.(aggregates := if Same(b.aggregates, a.actors) then actors else vb.aggregates),
              out.(actors := actors))
    && out.actors == if Same(a.aggregates, a.actors) then out.aggregates else actors
  }

  lemma InTurnIsMerged(a: LiveSummary, b: LiveSummary, va: Summary, vb: Summary, out: Summary)
    requires Separate(a, b)
    ensures MergedInTurn(a, b, va, vb, out) <==> Merged(va, vb, out)
  {
    hide Added, MostRecent;
  }

  method MergeCounts(a: LiveSummary, b: LiveSummary)
    returns (types: Tally<Kind>, actors: Tally<string>, aggregates: Tally<string>)
    modifies a.types, a.actors, a.aggregates
    ensures types.m == Added(old(Content(a.types)), old(Content(b.types)))
    ensures var sum := Added(old(Content(a.actors)), old(Content(b.actors)));
      && aggregates.m == Added(if Same(a.aggregates, a.actors) then sum else old(Content(a.aggregates)),
                               if Same(b.aggregates, a.actors) then sum else old(Content(b.aggregates)))
      && actors.m == if Same(a.aggregates, a.actors) then aggregates.m else sum
    ensures if a.types != null then types == a.types else fresh(types)
    ensures if a.actors != null then actors == a.actors else fresh(actors)
    ensures if a.aggregates != null then aggregates == a.aggregates else fresh(aggregates)
  {
    hide Added;
    types := Grown(a.types, b.types);
    actors := Grown(a.actors, b.actors);
    aggregates := Grown(a.aggregates, b.aggregates);
  }

  /**
    Merge writes into the maps of its first argument, which therefore shows the merged counts afterwards. A map that is
    both the actors of the first summary and the aggregates of one of the two is counted twice.
   */
  method Merge(a: LiveSummary, b: LiveSummary) returns (out: LiveSummary)
    modifies a.types, a.actors, a.aggregates
    ensures MergedInTurn(a, b, old(a.Val()), old(b.Val()), out.Val())
    ensures Separate(a, b) ==> Merged(old(a.Val()), old(b.Val()), out.Val())
    ensures out.types != null && out.actors != null && out.aggregates != null
    ensures a.types != null ==> out.types == a.types
    ensures a.actors != null ==> out.actors == a.actors
    ensures a.aggregates != null ==> out.aggregates == a.aggregates
  {
    hide Added, MostRecent, Separate, Content, Merged, MergedInTurn, Same;
    ghost var va, vb := a.Val(), b.Val();
    var since, until := MergeWindow(a.since, a.until, b.since, b.until);
    var recent := MergeRecent(a.recent, b.recent);
    var types, actors, aggregates := MergeCounts(a, b);
    out := LiveSummary(a.total + b.total, since, until, types, actors, aggregates, recent);
    Shown(out);
    IsMergedInTurn(a, b, va, vb, out.Val());
    if Separate(a, b) { InTurnIsMerged(a, b, va, vb, out.Val()); }
  }

  lemma IsMergedInTurn(a: LiveSummary, b: LiveSummary, va: Summary, vb: Summary, out: Summary)
    requires out.total == va.total + vb.total && MostRecent(va.recent + vb.recent, DEFAULT_LIMIT, out.recent)
    requires out.since
      == if va.since == ZERO_TIME || (vb.since != ZERO_TIME && vb.since < va.since) then vb.since else va.since
    requires out.until == if vb.until > va.until then vb.until else va.until
    requires out.types == Added(va.types, vb.types)
    requires var sum := Added(va.actors, vb.actors);
      && out.aggregates == Added(if Same(a.aggregates, a.actors) then sum else va.aggregates,
                                 if Same(b.aggregates, a.actors) then sum else vb.aggregates)
      && out.actors == if Same(a.aggregates, a.actors) then out.aggregates else sum
    ensures MergedInTurn(a, b, va, vb, out)
  {
    hide Added, MostRecent, Same;
  }

  // ---- sorted times

  predicate Ascending(ts: seq<int>) { forall i, j :: 0 <= i < j < |ts| ==> ts[i] <= ts[j] }

  function Times(xs: seq<Event>): (ts: seq<int>)
    ensures |ts| == |xs| && forall i :: 0 <= i < |xs| ==> ts[i] == xs[i].at
  {
    seq(|xs|, i requires 0 <= i < |xs| => xs[i].at)
  }

  lemma TimesSnoc(xs: seq<Event>, e: Event)
    ensures Times(xs + [e]) == Times(xs) + [e.at]
  {}

  lemma TimesConcat(xs: seq<Event>, ys: seq<Event>)
    ensures Times(xs + ys) == Times(xs) + Times(ys)
  {}

  lemma TimesLast(xs: seq<Event>, k: nat)
    ensures Times(LastOf(xs, k)) == LastOf(Times(xs), k)
  {}

  lemma SortedTimes(xs: seq<Event>)
    requires Sorted(xs, BY_TIME)
    ensures Ascending(Times(xs))
  {
    forall i, j | 0 <= i < j < |xs| ensures xs[i].at <= xs[j].at { assert !BY_TIME(xs[j], xs[i]); }
  }

  lemma RemoveAt<T>(xs: seq<T>, j: nat)
    requires j < |xs|
    ensures multiset(xs[..j] + xs[j + 1..]) == multiset(xs) - multiset{xs[j]}
  {
    assert xs == xs[..j] + ([xs[j]] + xs[j + 1..]);
    assert multiset(xs) == multiset(xs[..j]) + (multiset{xs[j]} + multiset(xs[j + 1..]));
  }

  lemma TimesRemoveAt(xs: seq<Event>, j: nat)
    requires j < |xs|
    ensures Times(xs[..j] + xs[j + 1..]) == Times(xs)[..j] + Times(xs)[j + 1..]
  {}

  /** Permuting events permutes their times. */
  lemma {:induction false} TimesPermute(xs: seq<Event>, ys: seq<Event>)
    requires multiset(xs) == multiset(ys)
    ensures multiset(Times(xs)) == multiset(Times(ys))
  {
    assert |multiset(xs)| == |xs| && |multiset(ys)| == |ys|;
    if xs != [] {
      var n := |xs| - 1;
      var rest, e := xs[..n], xs[n];
      assert xs == rest + [e];
      assert e in multiset(ys);
      var j :| 0 <= j < |ys| && ys[j] == e;
      var others := ys[..j] + ys[j + 1..];
      RemoveAt(ys, j);
      TimesPermute(rest, others);
      TimesSnoc(rest, e);
      TimesRemoveAt(ys, j);
      RemoveAt(Times(ys), j);
      PutBack(Times(xs), Times(rest), Times(ys), Times(others), e.at);
    }
  }

  lemma PutBack(a: seq<int>, a0: seq<int>, b: seq<int>, b0: seq<int>, t: int)
    requires a == a0 + [t] && multiset(b0) == multiset(b) - multiset{t} && t in b && multiset(a0) == multiset(b0)
    ensures multiset(a) == multiset(b)
  {}

  // ---- the last k of a whole from the lasts of its parts

  ghost predicate Merges(c: seq<int>, a: seq<int>, b: seq<int>) {
    Ascending(a) && Ascending(b) && Ascending(c) && multiset(c) == multiset(a) + multiset(b)
  }

  lemma AscendingInit(ts: seq<int>)
    requires Ascending(ts) && ts != []
    ensures Ascending(ts[..|ts| - 1])
  {}

  lemma MergesSwap(c: seq<int>, a: seq<int>, b: seq<int>)
    requires Merges(c, a, b)
    ensures Merges(c, b, a)
  {}

  lemma AtMostLast(ts: seq<int>, x: int)
    requires Ascending(ts) && x in multiset(ts)
    ensures ts != [] && x <= ts[|ts| - 1]
  {
    assert x in ts;
  }

  lemma WithoutLast(ts: seq<int>)
    requires ts != []
    ensures multiset(ts) == multiset(ts[..|ts| - 1]) + multiset{ts[|ts| - 1]}
  {
    assert ts == ts[..|ts| - 1] + [ts[|ts| - 1]];
  }

  /** The largest element of the merge is the larger of the two last ones; without it, the rest still merge. */
  lemma MergeTop(c: seq<int>, a: seq<int>, b: seq<int>)
    requires Merges(c, a, b) && a != [] && (b == [] || b[|b| - 1] <= a[|a| - 1])
    ensures c != [] && c[|c| - 1] == a[|a| - 1] && Merges(c[..|c| - 1], a[..|a| - 1], b)
  {
    var x := a[|a| - 1];
    WithoutLast(a);
    assert x in multiset(c);
    AtMostLast(c, x);
    WithoutLast(c);
    var y := c[|c| - 1];
    assert y in multiset(c);
    if y in multiset(a) { AtMostLast(a, y); } else { AtMostLast(b, y); }
    AscendingInit(a);
    AscendingInit(c);
    Cancel(multiset(c), multiset(c[..|c| - 1]), multiset(a), multiset(a[..|a| - 1]), multiset(b), x);
  }

  lemma Cancel(c: multiset<int>, c0: multiset<int>, a: multiset<int>, a0: multiset<int>, b: multiset<int>, x: int)
    requires c == c0 + multiset{x} && a == a0 + multiset{x} && c == a + b
    ensures c0 == a0 + b
  {
    forall y ensures c0[y] == (a0 + b)[y] {
      assert c[y] == (c0 + multiset{x})[y] && a[y] == (a0 + multiset{x})[y] && c[y] == (a + b)[y];
    }
  }

  lemma LastOfSnoc(ts: seq<int>, k: nat)
    requires ts != [] && k > 0
    ensures LastOf(ts, k) == LastOf(ts[..|ts| - 1], k - 1) + [ts[|ts| - 1]]
  {}

  lemma LastOfLast(ts: seq<int>, i: nat)
    requires ts != [] && i > 0
    ensures LastOf(ts, i) != [] && LastOf(ts, i)[|LastOf(ts, i)| - 1] == ts[|ts| - 1]
    ensures LastOf(ts, i)[..|LastOf(ts, i)| - 1] == LastOf(ts[..|ts| - 1], i - 1)
  {}

  lemma LastOfEmpty(ts: seq<int>, i: nat)
    requires i > 0
    ensures LastOf(ts, i) == [] <==> ts == []
  {}

  /** The last k of a merge need only the last i and the last j of its parts, for any i and j not below k. */
  lemma {:induction false} LastOfMerge(c: seq<int>, m: seq<int>, a: seq<int>, b: seq<int>, k: nat, i: nat, j: nat)
    requires Merges(c, a, b) && Merges(m, LastOf(a, i), LastOf(b, j)) && i >= k && j >= k
    ensures LastOf(c, k) == LastOf(m, k)
    decreases k
  {
    hide Merges, LastOf;
    if k == 0 {
      LastOfNone(c);
      LastOfNone(m);
    } else if a == [] && b == [] {
      LastOfEmpty(a, i);
      LastOfEmpty(b, j);
      NothingMerged(c);
      NothingMerged(m);
    } else if a != [] && (b == [] || b[|b| - 1] <= a[|a| - 1]) {
      LastOfMergeTop(c, m, a, b, k, i, j);
    } else {
      MergesSwap(c, a, b);
      MergesSwap(m, LastOf(a, i), LastOf(b, j));
      LastOfMergeTop(c, m, b, a, k, j, i);
    }
  }

  lemma LastOfNone(ts: seq<int>)
    ensures LastOf(ts, 0) == []
  {}

  lemma NothingMerged(c: seq<int>)
    requires Merges(c, [], [])
    ensures c == []
  {
    assert |multiset(c)| == |c|;
  }

  lemma LastOfMergeTop(c: seq<int>, m: seq<int>, a: seq<int>, b: seq<int>, k: nat, i: nat, j: nat)
    requires Merges(c, a, b) && Merges(m, LastOf(a, i), LastOf(b, j)) && i >= k && j >= k > 0
    requires a != [] && (b == [] || b[|b| - 1] <= a[|a| - 1])
    ensures LastOf(c, k) == LastOf(m, k)
    decreases k, 0
  {
    hide Merges, LastOf;
    LastOfLast(a, i);
    LastOfEmpty(b, j);
    if b != [] { LastOfLast(b, j); }
    MergeTop(c, a, b);
    MergeTop(m, LastOf(a, i), LastOf(b, j));
    LastOfMerge(c[..|c| - 1], m[..|m| - 1], a[..|a| - 1], b, k - 1, i - 1, j);
    LastOfSnoc(c, k);
    LastOfSnoc(m, k);
  }

  // ---- merging is summarizing the whole

  lemma {:induction false} FilteredConcat(xs: seq<Event>, ys: seq<Event>, since: Time, until: Time)
    ensures Filtered(xs + ys, since, until) == Filtered(xs, since, until) + Filtered(ys, since, until)
  {
    if ys == [] {
      assert xs + ys == xs;
    } else {
      var n := |ys| - 1;
      FilteredConcat(xs, ys[..n], since, until);
      assert (xs + ys)[..|xs + ys| - 1] == xs + ys[..n];
    }
  }

  lemma CountsConcat(text: Payload -> string, xs: seq<Event>, ys: seq<Event>)
    ensures Counts(Types(xs + ys)) == Added(Counts(Types(xs)), Counts(Types(ys)))
    ensures Counts(Aggregates(xs + ys)) == Added(Counts(Aggregates(xs)), Counts(Aggregates(ys)))
    ensures Counts(Actors(text, xs + ys)) == Added(Counts(Actors(text, xs)), Counts(Actors(text, ys)))
  {
    TypesConcat(xs, ys);
    AggregatesConcat(xs, ys);
    ActorsConcat(text, xs, ys);
    hide *;
    CountsAdd(Types(xs), Types(ys));
    CountsAdd(Aggregates(xs), Aggregates(ys));
    CountsAdd(Actors(text, xs), Actors(text, ys));
  }

  lemma TypesConcat(xs: seq<Event>, ys: seq<Event>)
    ensures Types(xs + ys) == Types(xs) + Types(ys)
  {
    var f := (zs: seq<Event>) => seq(|zs|, i requires 0 <= i < |zs| => zs[i].kind);
    assert f(xs + ys) == f(xs) + f(ys);
  }

  lemma AggregatesConcat(xs: seq<Event>, ys: seq<Event>)
    ensures Aggregates(xs + ys) == Aggregates(xs) + Aggregates(ys)
  {
    var f := (zs: seq<Event>) => seq(|zs|, i requires 0 <= i < |zs| => zs[i].aggregate);
    assert f(xs + ys) == f(xs) + f(ys);
  }

  lemma ActorsConcat(text: Payload -> string, xs: seq<Event>, ys: seq<Event>)
    ensures Actors(text, xs + ys) == Actors(text, xs) + Actors(text, ys)
  {
    var f := (zs: seq<Event>) => seq(|zs|, i requires 0 <= i < |zs| => Actor(text, zs[i]));
    assert f(xs + ys) == f(xs) + f(ys);
    DropKey(multiset(f(xs)), multiset(f(ys)), []);
  }

  lemma DropKey(m: multiset<string>, n: multiset<string>, k: string)
    ensures (m + n)[k := 0] == m[k := 0] + n[k := 0]
  {}

  /** The times of the most recent of two most-recent lists are those of the most recent of all. */
  lemma MostRecentTimes(xs: seq<Event>, ys: seq<Event>, k: nat, a: seq<Event>,
                        b: seq<Event>, c: seq<Event>, m: seq<Event>)
    requires MostRecent(xs, k, a) && MostRecent(ys, k, b) && MostRecent(xs + ys, k, c) && MostRecent(a + b, k, m)
    ensures Times(c) == Times(m)
  {
    var sx :| multiset(sx) == multiset(xs) && Sorted(sx, BY_TIME) && a == LastOf(sx, k);
    var sy :| multiset(sy) == multiset(ys) && Sorted(sy, BY_TIME) && b == LastOf(sy, k);
    var sc :| multiset(sc) == multiset(xs + ys) && Sorted(sc, BY_TIME) && c == LastOf(sc, k);
    var sm :| multiset(sm) == multiset(a + b) && Sorted(sm, BY_TIME) && m == LastOf(sm, k);
    SortedMerge(sc, sx, sy, xs, ys);
    LastSorted(sx, k);
    LastSorted(sy, k);
    SortedMerge(sm, a, b, a, b);
    TimesLast(sx, k);
    TimesLast(sy, k);
    TimesLast(sc, k);
    TimesLast(sm, k);
    LastOfMerge(Times(sc), Times(sm), Times(sx), Times(sy), k, k, k);
  }

  lemma LastSorted(xs: seq<Event>, k: nat)
    requires Sorted(xs, BY_TIME)
    ensures Sorted(LastOf(xs, k), BY_TIME)
  {}

  lemma SortedMerge(c: seq<Event>, a: seq<Event>, b: seq<Event>, xs: seq<Event>, ys: seq<Event>)
    requires Sorted(a, BY_TIME) && Sorted(b, BY_TIME) && Sorted(c, BY_TIME)
    requires multiset(a) == multiset(xs) && multiset(b) == multiset(ys) && multiset(c) == multiset(xs + ys)
    ensures Merges(Times(c), Times(a), Times(b))
  {
    SortedTimes(a);
    SortedTimes(b);
    SortedTimes(c);
    TimesPermute(c, xs + ys);
    TimesPermute(a, xs);
    TimesPermute(b, ys);
    TimesConcat(xs, ys);
  }

  /** No two different events at one instant. */
  predicate TellsApart(xs: seq<Event>) {
    forall e, f :: e in xs && f in xs && e.at == f.at ==> e == f
  }

  lemma RecentAmong(xs: seq<Event>, k: nat, recent: seq<Event>)
    requires MostRecent(xs, k, recent)
    ensures forall e :: e in recent ==> e in xs
  {
    var ys :| multiset(ys) == multiset(xs) && Sorted(ys, BY_TIME) && recent == LastOf(ys, k);
    forall e | e in recent ensures e in xs { assert e in ys && e in multiset(ys) && e in multiset(xs); }
  }

  lemma SameTimesSameEvents(xs: seq<Event>, c: seq<Event>, m: seq<Event>)
    requires TellsApart(xs) && Times(c) == Times(m)
    requires (forall e :: e in c ==> e in xs) && (forall e :: e in m ==> e in xs)
    ensures c == m
  {
    forall i | 0 <= i < |c| ensures c[i] == m[i] {
      assert c[i] in c && m[i] in m && Times(c)[i] == Times(m)[i];
    }
    assert |Times(c)| == |Times(m)|;
  }

  /**
    Summarizing two logs for one window with the default limit and merging gives the summary of the joined log: the same
    total and counts, the same instants of recent events, and the same recent events unless two differ at one instant.
   */
  lemma MergeIsHomomorphic(text: Payload -> string, xs: seq<Event>, ys: seq<Event>,
                           since: Time, until: Time, limit: int,
                           a: Summary, b: Summary, c: Summary, m: Summary)
    requires limit <= 0 || limit == DEFAULT_LIMIT
    requires Built(text, xs, since, until, limit, a) && Built(text, ys, since, until, limit, b)
    requires Built(text, xs + ys, since, until, limit, c) && Merged(a, b, m)
    ensures m.(recent := []) == c.(recent := []) && Times(m.recent) == Times(c.recent)
    ensures TellsApart(Filtered(xs + ys, since, until)) ==> m == c
  {
    hide Counts, Types, Aggregates, Actors, Added, Filtered, TellsApart, MostRecent;
    var fx, fy := Filtered(xs, since, until), Filtered(ys, since, until);
    FilteredConcat(xs, ys, since, until);
    CountsConcat(text, fx, fy);
    MostRecentTimes(fx, fy, DEFAULT_LIMIT, a.recent, b.recent, c.recent, m.recent);
    if TellsApart(fx + fy) {
      RecentAmong(fx, DEFAULT_LIMIT, a.recent);
      RecentAmong(fy, DEFAULT_LIMIT, b.recent);
      RecentAmong(fx + fy, DEFAULT_LIMIT, c.recent);
      RecentAmong(a.recent + b.recent, DEFAULT_LIMIT, m.recent);
      SameTimesSameEvents(fx + fy, c.recent, m.recent);
    }
  }

  // ---- merged windows

  /** Every event one of the parts admits is inside the window the merge announces. */
  ghost predicate WindowCovers(a: Summary, b: Summary, out: Summary) {
    forall e: Event ::
      InWindow(e, a.since, a.until) || InWindow(e, b.since, b.until) ==> InWindow(e, out.since, out.until)
  }

  function EventAt(at: Time): Event { Event("e", DeviceRegistered, "", Opaque(""), at) }

  /**
    The announced window covers both parts exactly when they agree on which ends are open: an end open on one side only
    is lost.
   */
  lemma WindowCoversExactly(a: Summary, b: Summary, out: Summary)
    requires Merged(a, b, out) && a.since >= 0 && b.since >= 0 && a.until >= 0 && b.until >= 0
    ensures WindowCovers(a, b, out) <==>
      (a.since == ZERO_TIME <==> b.since == ZERO_TIME) && (a.until == ZERO_TIME <==> b.until == ZERO_TIME)
  {
    hide Added, MostRecent;
    var late := EventAt(a.since + b.since + a.until + b.until + 1);
    if WindowCovers(a, b, out) {
      var early := EventAt(-1);
      assert InWindow(early, a.since, a.until) || InWindow(early, b.since, b.until) ==>
        InWindow(early, out.since, out.until);
      assert InWindow(late, a.since, a.until) || InWindow(late, b.since, b.until) ==>
        InWindow(late, out.since, out.until);
    }
  }

  // ---- what a summary tells

  /** How many of the events have the property. */
  function HowMany(xs: seq<Event>, p: Event -> bool): nat {
    if xs == [] then 0 else HowMany(xs[..|xs| - 1], p) + if p(xs[|xs| - 1]) then 1 else 0
  }

  lemma HowManySnoc(xs: seq<Event>, e: Event, p: Event -> bool)
    ensures HowMany(xs + [e], p) == HowMany(xs, p) + if p(e) then 1 else 0
  {
    assert (xs + [e])[..|xs + [e]| - 1] == xs;
  }

  /** From since to until, both included; a zero time is no bound. */
  predicate Within(at: Time, since: Time, until: Time) {
    (since == 0 || since <= at) && (until == 0 || at <= until)
  }

  lemma {:induction false} FilteredCounts(xs: seq<Event>, since: Time, until: Time, p: Event -> bool, q: Event -> bool)
    requires forall e :: q(e) <==> Within(e.at, since, until) && p(e)
    ensures HowMany(Filtered(xs, since, until), p) == HowMany(xs, q)
  {
    if xs != [] {
      var n := |xs| - 1;
      FilteredCounts(xs[..n], since, until, p, q);
      HowManySnoc(Filtered(xs[..n], since, until), xs[n], p);
      assert q(xs[n]) <==> Within(xs[n].at, since, until) && p(xs[n]);
    }
  }

  lemma {:induction false} AllCount(xs: seq<Event>)
    ensures HowMany(xs, (e: Event) => true) == |xs|
  {
    if xs != [] { AllCount(xs[..|xs| - 1]); }
  }

  lemma NoneCounted(text: Payload -> string, p: Event -> bool)
    ensures HowMany([], p) == 0
    ensures forall k :: Types([])[k] == 0
    ensures forall k :: Aggregates([])[k] == 0 && Actors(text, [])[k] == 0
  {}

  lemma KindStep(xs: seq<Event>, e: Event, k: Kind)
    ensures Types(xs + [e])[k] == Types(xs)[k] + if e.kind == k then 1 else 0
  {
    TypesSnoc(xs, e);
    hide Types;
  }

  lemma {:induction false} KindsCount(xs: seq<Event>, k: Kind)
    ensures Types(xs)[k] == HowMany(xs, (e: Event) => e.kind == k)
  {
    hide *;
    NoneCounted((_: Payload) => "", (e: Event) => e.kind == k);
    if xs != [] {
      var n := |xs| - 1;
      KindsCount(xs[..n], k);
      KindStep(xs[..n], xs[n], k);
      HowManySnoc(xs[..n], xs[n], (e: Event) => e.kind == k);
      assert xs == xs[..n] + [xs[n]];
    }
  }

  lemma AggregateStep(xs: seq<Event>, e: Event, k: string)
    ensures Aggregates(xs + [e])[k] == Aggregates(xs)[k] + if e.aggregate == k then 1 else 0
  {
    AggregatesSnoc(xs, e);
    hide Aggregates;
  }

  lemma {:induction false} AggregatesCount(xs: seq<Event>, k: string)
    ensures Aggregates(xs)[k] == HowMany(xs, (e: Event) => e.aggregate == k)
  {
    hide *;
    NoneCounted((_: Payload) => "", (e: Event) => e.aggregate == k);
    if xs != [] {
      var n := |xs| - 1;
      AggregatesCount(xs[..n], k);
      AggregateStep(xs[..n], xs[n], k);
      HowManySnoc(xs[..n], xs[n], (e: Event) => e.aggregate == k);
      assert xs == xs[..n] + [xs[n]];
    }
  }

  lemma ActorStep(text: Payload -> string, xs: seq<Event>, e: Event, k: string)
    requires k != ""
    ensures Actors(text, xs + [e])[k] == Actors(text, xs)[k] + if TrimSpace(text(e.data)) == k then 1 else 0
  {
    ActorsSnoc(text, xs, e);
    hide Actors, TrimSpace;
  }

  lemma {:induction false} ActorsCount(text: Payload -> string, xs: seq<Event>, k: string)
    requires k != ""
    ensures Actors(text, xs)[k] == HowMany(xs, (e: Event) => TrimSpace(text(e.data)) == k)
  {
    hide *;
    NoneCounted(text, (e: Event) => TrimSpace(text(e.data)) == k);
    if xs != [] {
      var n := |xs| - 1;
      ActorsCount(text, xs[..n], k);
      ActorStep(text, xs[..n], xs[n], k);
      HowManySnoc(xs[..n], xs[n], (e: Event) => TrimSpace(text(e.data)) == k);
      assert xs == xs[..n] + [xs[n]];
    }
  }

  /** The totals count the events of the window: all of them, by type, by aggregate, and by trimmed nonempty text. */
  lemma BuiltMeans(text: Payload -> string, xs: seq<Event>, since: Time, until: Time, limit: int, s: Summary)
    requires Built(text, xs, since, until, limit, s)
    ensures s.total == HowMany(xs, (e: Event) => Within(e.at, since, until))
    ensures forall k :: Get(s.types, k) == HowMany(xs, (e: Event) => Within(e.at, since, until) && e.kind == k)
    ensures forall k ::
      Get(s.aggregates, k) == HowMany(xs, (e: Event) => Within(e.at, since, until) && e.aggregate == k)
    ensures "" !in s.actors && forall k :: k != "" ==>
      Get(s.actors, k) == HowMany(xs, (e: Event) => Within(e.at, since, until) && TrimSpace(text(e.data)) == k)
  {
    var fs := Filtered(xs, since, until);
    hide Filtered, HowMany, Types, Aggregates, MostRecent, TrimSpace;
    AllCount(fs);
    FilteredCounts(xs, since, until, (e: Event) => true, (e: Event) => Within(e.at, since, until));
    forall k ensures Get(s.types, k) == HowMany(xs, (e: Event) => Within(e.at, since, until) && e.kind == k) {
      KindsCount(fs, k);
      FilteredCounts(xs, since, until, (e: Event) => e.kind == k,
                     (e: Event) => Within(e.at, since, until) && e.kind == k);
    }
    forall k ensures Get(s.aggregates, k) == HowMany(xs, (e: Event) => Within(e.at, since, until) && e.aggregate == k) {
      AggregatesCount(fs, k);
      FilteredCounts(xs, since, until, (e: Event) => e.aggregate == k,
                     (e: Event) => Within(e.at, since, until) && e.aggregate == k);
    }
    forall k | k != ""
      ensures Get(s.actors, k)
        == HowMany(xs, (e: Event) => Within(e.at, since, until) && TrimSpace(text(e.data)) == k)
    {
      ActorsCount(text, fs, k);
      FilteredCounts(xs, since, until, (e: Event) => TrimSpace(text(e.data)) == k,
                     (e: Event) => Within(e.at, since, until) && TrimSpace(text(e.data)) == k);
    }
  }

  /** The list is in order of time, and no event left out is later than one listed; a limit of 0 or less means 20. */
  lemma RecentMeans(text: Payload -> string, xs: seq<Event>, since: Time, until: Time, limit: int, s: Summary)
    requires Built(text, xs, since, until, limit, s)
    ensures |s.recent| == var max := if limit <= 0 then 20 else limit; if s.total > max then max else s.total
    ensures forall i, j :: 0 <= i < j < |s.recent| ==> s.recent[i].at <= s.recent[j].at
    ensures NoneLater(multiset(Filtered(xs, since, until)), s.recent)
  {
    var max := if limit <= 0 then DEFAULT_LIMIT else limit;
    hide Filtered, Counts, Types, Aggregates, Actors, MostRecent, NoneLater;
    RecentOf(Filtered(xs, since, until), max, s.recent);
  }

  /** The others are no later than any listed. */
  ghost predicate NoneLater(all: multiset<Event>, recent: seq<Event>) {
    exists dropped: seq<Event> ::
      all == multiset(dropped) + multiset(recent) && forall d, r :: d in dropped && r in recent ==> d.at <= r.at
  }

  lemma RecentOf(fs: seq<Event>, k: nat, recent: seq<Event>)
    requires MostRecent(fs, k, recent)
    ensures |recent| == if |fs| > k then k else |fs|
    ensures forall i, j :: 0 <= i < j < |recent| ==> recent[i].at <= recent[j].at
    ensures NoneLater(multiset(fs), recent)
  {
    var ys :| multiset(ys) == multiset(fs) && Sorted(ys, BY_TIME) && recent == LastOf(ys, k);
    assert |multiset(ys)| == |ys| && |multiset(fs)| == |fs|;
    hide NoneLater;
    SortedSplit(ys, k);
  }

  predicate InTime(ys: seq<Event>) { forall i, j :: 0 <= i < j < |ys| ==> ys[i].at <= ys[j].at }

  lemma SortedInTime(ys: seq<Event>)
    requires Sorted(ys, BY_TIME)
    ensures InTime(ys)
  {
    forall i, j | 0 <= i < j < |ys| ensures ys[i].at <= ys[j].at { assert !BY_TIME(ys[j], ys[i]); }
  }

  lemma SortedSplit(ys: seq<Event>, k: nat)
    requires Sorted(ys, BY_TIME)
    ensures InTime(LastOf(ys, k)) && NoneLater(multiset(ys), LastOf(ys, k))
  {
    hide *;
    SortedInTime(ys);
    var n := LastSplit(ys, k);
    NoneLaterThan(ys[..n], LastOf(ys, k), ys);
  }

  lemma LastSplit(ys: seq<Event>, k: nat) returns (n: nat)
    requires InTime(ys)
    ensures n <= |ys| && ys == ys[..n] + LastOf(ys, k) && InTime(LastOf(ys, k))
  {
    n := if |ys| > k then |ys| - k else 0;
    assert LastOf(ys, k) == ys[n..];
  }

  lemma NoneLaterThan(dropped: seq<Event>, recent: seq<Event>, ys: seq<Event>)
    requires ys == dropped + recent && InTime(ys)
    ensures NoneLater(multiset(ys), recent)
  {
    forall d, r | d in dropped && r in recent ensures d.at <= r.at {
      var i :| 0 <= i < |dropped| && dropped[i] == d;
      var j :| 0 <= j < |recent| && recent[j] == r;
      assert ys[i] == d && ys[|dropped| + j] == r;
    }
    assert multiset(ys) == multiset(dropped) + multiset(recent);
  }
}
