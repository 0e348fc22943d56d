/**
 How the findings of the walk are ranked.
 */
module AddressRanking {
  import opened Wrappers
  import opened AddressExtraction

  // --- Ranking -----------------------------------------------------------------------------------

  /** Higher priority first, then earlier recording. */
  predicate Precedes(a: Match, b: Match) {
    a.priority > b.priority || (a.priority == b.priority && a.sequence < b.sequence)
  }

  /** Recordings carry their own number. */
  ghost predicate DistinctNumbers(ms: seq<Match>) {
    forall i, j :: 0 <= i < j < |ms| ==> ms[i].sequence != ms[j].sequence
  }

  function Insert(s: seq<Match>, m: Match): seq<Match> {
    if s != [] && Precedes(m, s[|s| - 1]) then Insert(s[..|s| - 1], m) + [s[|s| - 1]] else s + [m]
  }

  function Sort(s: seq<Match>): seq<Match> {
    if s == [] then [] else Insert(Sort(s[..|s| - 1]), s[|s| - 1])
  }

  /** Addresses in order of first appearance. */
  function Distinct(ms: seq<Match>): seq<string> {
    if ms == [] then []
    else
      var front := Distinct(ms[..|ms| - 1]);
      var a := ms[|ms| - 1].address;
      if a in front then front else front + [a]
  }

  function Ranked(ms: seq<Match>): seq<string> {
    Distinct(Sort(ms))
  }

  method Rank(ms: seq<Match>) returns (ordered: seq<string>)
    ensures ordered == Ranked(ms)
  {
    var sorted := Sort(ms);
    ordered := [];
    for n := 0 to |sorted|
      invariant ordered == Distinct(sorted[..n])
    {
      assert sorted[..n + 1][..n] == sorted[..n];
      if sorted[n].address !in ordered {
        ordered := ordered + [sorted[n].address];
      }
    }
    assert sorted[..|sorted|] == sorted;
  }

  lemma {:induction false} RecordNumbers(cs: seq<Candidate>, path: seq<string>, start: nat)
    ensures forall i :: 0 <= i < |Record(cs, path, start)| ==> Record(cs, path, start)[i].sequence == start + i
    decreases |cs|
  {
    if cs != [] {
      if Usable(cs[0]) && Priority(path).Some? {
        RecordNumbers(cs[1..], path, start + 1);
      } else {
        RecordNumbers(cs[1..], path, start);
      }
    }
  }

  /** Every recording's number is its position. */
  ghost predicate InPlace(s: State) {
    forall i :: 0 <= i < |s.matches| ==> s.matches[i].sequence == i
  }

  lemma {:induction false} WalkNumbers(heap: Heap, find: Finder, s: State, v: Value, path: seq<string>, depth: nat)
    requires InPlace(s)
    ensures InPlace(Walk(heap, find, s, v, path, depth))
    decreases MAX_DEPTH + 1 - depth, 0
  {
    if v.Null? || v.Scalar? || depth > MAX_DEPTH {
    } else if v.Str? {
      RecordNumbers(find(v.s), path, |s.matches|);
    } else if v.id !in s.visited {
      WalkAllNumbers(heap, find, s.(visited := s.visited + {v.id}), Children(heap, v, path), depth + 1);
    }
  }

  lemma {:induction false} WalkAllNumbers(heap: Heap, find: Finder, s: State, vs: seq<(Value, seq<string>)>, depth: nat)
    requires InPlace(s)
    ensures InPlace(WalkAll(heap, find, s, vs, depth))
    decreases MAX_DEPTH + 1 - depth, |vs| + 1
  {
    if vs != [] {
      WalkNumbers(heap, find, s, vs[0].0, vs[0].1, depth);
      WalkAllNumbers(heap, find, Walk(heap, find, s, vs[0].0, vs[0].1, depth), vs[1..], depth);
    }
  }

  ghost predicate Sorted(ms: seq<Match>) {
    forall i, j :: 0 <= i < j < |ms| ==> Precedes(ms[i], ms[j])
  }

  lemma {:induction false} InsertSorts(s: seq<Match>, m: Match)
    requires Sorted(s) && forall x :: x in s ==> x.sequence != m.sequence
    ensures Sorted(Insert(s, m))
    ensures forall x :: x in Insert(s, m) <==> x == m || x in s
  {
    if s != [] && Precedes(m, s[|s| - 1]) {
      var front, last := s[..|s| - 1], s[|s| - 1];
      assert last in s && s == front + [last];
      InsertSorts(front, m);
      var t := Insert(front, m);
      forall i | 0 <= i < |t| ensures Precedes(t[i], last) {
        assert t[i] in t;
      }
    } else if s != [] {
      assert s[|s| - 1] in s;
    }
  }

  lemma {:induction false} SortSorts(ms: seq<Match>)
    requires DistinctNumbers(ms)
    ensures Sorted(Sort(ms))
    ensures forall x :: x in Sort(ms) <==> x in ms
  {
    if ms != [] {
      var front, last := ms[..|ms| - 1], ms[|ms| - 1];
      SortSorts(front);
      assert ms == front + [last];
      forall x | x in Sort(front) ensures x.sequence != last.sequence {
        assert x in front;
      }
      InsertSorts(Sort(front), last);
    }
  }

  /** The recording of an address that precedes all its others. */
  ghost predicate BestOf(ms: seq<Match>, a: string, b: Match) {
    b in ms && b.address == a && forall m :: m in ms && m.address == a ==> m == b || Precedes(b, m)
  }

  ghost predicate HasAddress(ms: seq<Match>, a: string) {
    exists k :: 0 <= k < |ms| && ms[k].address == a
  }

  lemma InListHasAddress(ms: seq<Match>, m: Match)
    ensures m in ms ==> HasAddress(ms, m.address)
  {
  }

  lemma {:induction false} DistinctLists(ms: seq<Match>, a: string)
    ensures a in Distinct(ms) <==> HasAddress(ms, a)
  {
    if ms != [] {
      var front := ms[..|ms| - 1];
      DistinctLists(front, a);
      assert forall k :: 0 <= k < |front| ==> front[k] == ms[k];
      assert HasAddress(ms, a) <==> HasAddress(front, a) || ms[|ms| - 1].address == a;
    }
  }

  lemma {:induction false} DistinctOnce(ms: seq<Match>)
    ensures forall i, j :: 0 <= i < j < |Distinct(ms)| ==> Distinct(ms)[i] != Distinct(ms)[j]
  {
    if ms != [] {
      DistinctOnce(ms[..|ms| - 1]);
    }
  }

  /** In a sorted list the first recording of an address is its best. */
  lemma {:induction false} BestExists(ms: seq<Match>, a: string) returns (b: Match)
    requires Sorted(ms) && HasAddress(ms, a)
    ensures BestOf(ms, a, b)
  {
    var front, last := ms[..|ms| - 1], ms[|ms| - 1];
    assert ms == front + [last];
    assert forall k :: 0 <= k < |front| ==> front[k] == ms[k];
    if HasAddress(front, a) {
      b := BestExists(front, a);
      var i :| 0 <= i < |front| && front[i] == b;
      assert Precedes(ms[i], ms[|ms| - 1]);
    } else {
      b := last;
      assert last in ms;
    }
  }

  lemma BestInFront(ms: seq<Match>, a: string, b: Match)
    requires ms != [] && Sorted(ms) && HasAddress(ms[..|ms| - 1], a) && BestOf(ms, a, b)
    ensures BestOf(ms[..|ms| - 1], a, b)
  {
    var front, last := ms[..|ms| - 1], ms[|ms| - 1];
    assert ms == front + [last];
    var k :| 0 <= k < |front| && front[k].address == a;
    assert ms[k] == front[k] && front[k] in ms && Precedes(ms[k], last);
    assert b != last;
  }

  /** First appearances in a sorted list are ordered by the best recordings. */
  lemma {:induction false} DistinctIsOrdered(ms: seq<Match>, i: nat, j: nat, b: Match, c: Match)
    requires Sorted(ms) && i < j < |Distinct(ms)|
    requires BestOf(ms, Distinct(ms)[i], b) && BestOf(ms, Distinct(ms)[j], c)
    ensures Precedes(b, c)
  {
    var front, last := ms[..|ms| - 1], ms[|ms| - 1];
    assert ms == front + [last];
    var f := Distinct(front);
    DistinctLists(front, f[i]);
    BestInFront(ms, f[i], b);
    if j < |f| {
      DistinctLists(front, f[j]);
      BestInFront(ms, f[j], c);
      DistinctIsOrdered(front, i, j, b, c);
    } else {
      DistinctLists(front, last.address);
      InListHasAddress(front, c);
      assert c == last;
      var k :| 0 <= k < |front| && front[k] == b;
      assert Precedes(ms[k], last);
    }
  }

  lemma BestOfSame(ms: seq<Match>, ns: seq<Match>, a: string, b: Match)
    requires forall m :: m in ms <==> m in ns
    ensures BestOf(ms, a, b) <==> BestOf(ns, a, b)
  {
  }

  ghost predicate HasBest(ms: seq<Match>, a: string) {
    exists b :: BestOf(ms, a, b)
  }

  /** The recorded addresses, each once, ordered by their best recordings. */
  ghost predicate OrderedByBest(ms: seq<Match>, r: seq<string>) {
    && (forall a :: a in r <==> exists m :: m in ms && m.address == a)
    && (forall i, j :: 0 <= i < j < |r| ==> r[i] != r[j])
    && (forall i :: 0 <= i < |r| ==> HasBest(ms, r[i]))
    && (forall i, j, b, c :: 0 <= i < j < |r| && BestOf(ms, r[i], b) && BestOf(ms, r[j], c) ==> Precedes(b, c))
  }

  lemma RankedListed(ms: seq<Match>, sorted: seq<Match>, a: string)
    requires forall m :: m in ms <==> m in sorted
    ensures a in Distinct(sorted) <==> exists m :: m in ms && m.address == a
  {
    DistinctLists(sorted, a);
    SameAddresses(ms, sorted, a);
  }

  lemma RankedHasBest(ms: seq<Match>, sorted: seq<Match>, i: nat)
    requires Sorted(sorted) && (forall m :: m in ms <==> m in sorted) && i < |Distinct(sorted)|
    ensures HasBest(ms, Distinct(sorted)[i])
  {
    DistinctLists(sorted, Distinct(sorted)[i]);
    var b := BestExists(sorted, Distinct(sorted)[i]);
    BestOfSame(ms, sorted, Distinct(sorted)[i], b);
  }

  lemma RankedInOrder(ms: seq<Match>, sorted: seq<Match>, i: nat, j: nat, b: Match, c: Match)
    requires Sorted(sorted) && (forall m :: m in ms <==> m in sorted) && i < j < |Distinct(sorted)|
    requires BestOf(ms, Distinct(sorted)[i], b) && BestOf(ms, Distinct(sorted)[j], c)
    ensures Precedes(b, c)
  {
    BestOfSame(ms, sorted, Distinct(sorted)[i], b);
    BestOfSame(ms, sorted, Distinct(sorted)[j], c);
    DistinctIsOrdered(sorted, i, j, b, c);
  }

  lemma RankingIsByBest(ms: seq<Match>)
    requires DistinctNumbers(ms)
    ensures OrderedByBest(ms, Ranked(ms))
    ensures Ranked(ms) != [] ==>
              exists b :: BestOf(ms, Ranked(ms)[0], b) && forall m :: m in ms ==> m == b || Precedes(b, m)
  {
    SortSorts(ms);
    var sorted := Sort(ms);
    var r := Ranked(ms);
    DistinctOnce(sorted);
    forall a ensures a in r <==> exists m :: m in ms && m.address == a {
      RankedListed(ms, sorted, a);
    }
    forall i | 0 <= i < |r| ensures HasBest(ms, r[i]) {
      RankedHasBest(ms, sorted, i);
    }
    forall i, j, b, c | 0 <= i < j < |r| && BestOf(ms, r[i], b) && BestOf(ms, r[j], c) ensures Precedes(b, c) {
      RankedInOrder(ms, sorted, i, j, b, c);
    }
    if r != [] {
      FirstIsGreatest(ms, sorted);
    }
  }

  /**
   The result lists the recorded addresses, each once, ordered by their best recordings; so the
   first is the earliest recorded one of the greatest priority.
   */
  lemma RankedByBest(heap: Heap, find: Finder, payload: Value)
    ensures var ms := Walk(heap, find, State([], {}), payload, [], 0).matches;
            var r := Ranked(ms);
            && OrderedByBest(ms, r)
            && (r != [] ==> exists b :: BestOf(ms, r[0], b) && forall m :: m in ms ==> m == b || Precedes(b, m))
  {
    WalkNumbers(heap, find, State([], {}), payload, [], 0);
    RankingIsByBest(Walk(heap, find, State([], {}), payload, [], 0).matches);
  }

  lemma SameAddresses(ms: seq<Match>, sorted: seq<Match>, a: string)
    requires forall m :: m in ms <==> m in sorted
    ensures HasAddress(sorted, a) <==> exists m :: m in ms && m.address == a
  {
    if HasAddress(sorted, a) {
      var k :| 0 <= k < |sorted| && sorted[k].address == a;
      assert sorted[k] in ms;
    }
    if m :| m in ms && m.address == a {
      var k :| 0 <= k < |sorted| && sorted[k] == m;
    }
  }

  lemma FirstIsGreatest(ms: seq<Match>, sorted: seq<Match>)
    requires Sorted(sorted) && (forall m :: m in ms <==> m in sorted) && Distinct(sorted) != []
    ensures exists b :: BestOf(ms, Distinct(sorted)[0], b) && forall m :: m in ms ==> m == b || Precedes(b, m)
  {
    FirstOfDistinct(sorted);
    var b := sorted[0];
    forall m | m in ms ensures m == b || Precedes(b, m) {
      var i :| 0 <= i < |sorted| && sorted[i] == m;
    }
    assert b in sorted;
    assert BestOf(ms, b.address, b);
  }

  lemma {:induction false} FirstOfDistinct(ms: seq<Match>)
    requires ms != []
    ensures Distinct(ms) != [] && Distinct(ms)[0] == ms[0].address
  {
    if |ms| > 1 {
      FirstOfDistinct(ms[..|ms| - 1]);
    }
  }
}
