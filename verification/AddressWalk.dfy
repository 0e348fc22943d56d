/**
 What the walk finds.  The graph is unfolded from the payload down to the depth bound; the walk records
 exactly those sights of the unfolding that do not lie below a container met before.
 */
module AddressWalk {
  import opened Wrappers
  import opened AddressExtraction

  /** One thing met in the unfolding, and how deep. */
  datatype Sight = TextAt(s: string, path: seq<string>, depth: nat) | NodeAt(id: nat, depth: nat)

  function Unfold(heap: Heap, v: Value, path: seq<string>, depth: nat): seq<Sight>
    decreases MAX_DEPTH + 1 - depth, 0
  {
    if v.Null? || v.Scalar? || depth > MAX_DEPTH then []
    else if v.Str? then [TextAt(v.s, path, depth)]
    else [NodeAt(v.id, depth)] + UnfoldAll(heap, Children(heap, v, path), depth + 1)
  }

  function UnfoldAll(heap: Heap, vs: seq<(Value, seq<string>)>, depth: nat): seq<Sight>
    decreases MAX_DEPTH + 1 - depth, |vs| + 1
  {
    if vs == [] then [] else Unfold(heap, vs[0].0, vs[0].1, depth) + UnfoldAll(heap, vs[1..], depth)
  }

  lemma {:induction false} UnfoldIsDeep(heap: Heap, v: Value, path: seq<string>, depth: nat)
    ensures forall x :: x in Unfold(heap, v, path, depth) ==> x.depth >= depth
    decreases MAX_DEPTH + 1 - depth, 0
  {
    if !(v.Null? || v.Scalar? || v.Str? || depth > MAX_DEPTH) {
      UnfoldAllIsDeep(heap, Children(heap, v, path), depth + 1);
    }
  }

  lemma {:induction false} UnfoldAllIsDeep(heap: Heap, vs: seq<(Value, seq<string>)>, depth: nat)
    ensures forall x :: x in UnfoldAll(heap, vs, depth) ==> x.depth >= depth
    decreases MAX_DEPTH + 1 - depth, |vs| + 1
  {
    if vs != [] {
      UnfoldIsDeep(heap, vs[0].0, vs[0].1, depth);
      UnfoldAllIsDeep(heap, vs[1..], depth);
    }
  }

  // --- Which sights are kept ---------------------------------------------------------------------

  /** The container at j still surrounds what comes next at n. */
  ghost predicate OpenAt(xs: seq<Sight>, j: nat, n: nat) {
    j < n <= |xs| && xs[j].NodeAt? && forall m :: j < m < n ==> xs[m].depth > xs[j].depth
  }

  /** Sight k lies inside the container at j. */
  ghost predicate Below(xs: seq<Sight>, j: nat, k: nat) {
    k < |xs| && OpenAt(xs, j, k) && xs[k].depth > xs[j].depth
  }

  /** The container at j was visited before, or met earlier at a place that was not dropped. */
  ghost predicate Repeated(xs: seq<Sight>, visited: set<nat>, j: nat)
    requires j < |xs|
    decreases j
  {
    xs[j].NodeAt?
    && (xs[j].id in visited
        || exists i :: 0 <= i < j && xs[i].NodeAt? && xs[i].id == xs[j].id && !Dropped(xs, visited, i))
  }

  /** A sight is dropped when it lies inside a repeated container. */
  ghost predicate Dropped(xs: seq<Sight>, visited: set<nat>, k: nat)
    requires k < |xs|
    decreases k
  {
    exists j :: 0 <= j < k && Below(xs, j, k) && Repeated(xs, visited, j)
  }

  /** The sights among the first n that are not dropped. */
  ghost function Kept(xs: seq<Sight>, visited: set<nat>, n: nat): seq<Sight>
    requires n <= |xs|
  {
    if n == 0 then []
    else
      var front := Kept(xs, visited, n - 1);
      if Dropped(xs, visited, n - 1) then front else front + [xs[n - 1]]
  }

  function Ids(xs: seq<Sight>): set<nat> {
    set k | 0 <= k < |xs| && xs[k].NodeAt? :: xs[k].id
  }

  /** What one sight adds to the matches, of which there are so many. */
  type Gain = (Sight, nat) -> seq<Match>

  function Gaining(find: Finder): Gain {
    (x: Sight, start: nat) => if x.TextAt? then Record(find(x.s), x.path, start) else []
  }

  /** Containers themselves add nothing. */
  ghost predicate OnlyTextsAdd(gain: Gain) {
    forall x: Sight, start: nat :: x.NodeAt? ==> gain(x, start) == []
  }

  /** The candidates of all texts, recorded in order and numbered from a start. */
  function Collect(gain: Gain, xs: seq<Sight>, start: nat): seq<Match> {
    if xs == [] then []
    else
      var front := Collect(gain, xs[..|xs| - 1], start);
      front + gain(xs[|xs| - 1], start + |front|)
  }

  // --- The walk as a scan ------------------------------------------------------------------------

  /** Skip: everything deeper than this lies inside a repeated container. */
  datatype ScanState = ScanState(matches: seq<Match>, visited: set<nat>, skip: Option<nat>)

  function Take(gain: Gain, st: ScanState, x: Sight): ScanState {
    if st.skip.Some? && x.depth > st.skip.value then st
    else
      match x
      case TextAt(_, _, _) => ScanState(st.matches + gain(x, |st.matches|), st.visited, None)
      case NodeAt(id, depth) =>
        if id in st.visited then st.(skip := Some(depth)) else ScanState(st.matches, st.visited + {id}, None)
  }

  function Scan(gain: Gain, st: ScanState, xs: seq<Sight>): ScanState {
    if xs == [] then st else Take(gain, Scan(gain, st, xs[..|xs| - 1]), xs[|xs| - 1])
  }

  lemma ScanLast(gain: Gain, st: ScanState, xs: seq<Sight>, n: nat)
    requires 0 < n <= |xs|
    ensures Scan(gain, st, xs[..n]) == Take(gain, Scan(gain, st, xs[..n - 1]), xs[n - 1])
  {
    assert xs[..n][..n - 1] == xs[..n - 1] && xs[..n][n - 1] == xs[n - 1];
  }

  lemma {:induction false} ScanConcat(gain: Gain, st: ScanState, a: seq<Sight>, b: seq<Sight>)
    ensures Scan(gain, st, a + b) == Scan(gain, Scan(gain, st, a), b)
    decreases |b|
  {
    if b == [] {
      assert a + b == a;
    } else {
      assert (a + b)[..|a + b| - 1] == a + b[..|b| - 1];
      ScanConcat(gain, st, a, b[..|b| - 1]);
    }
  }

  lemma {:induction false} ScanSkips(gain: Gain, st: ScanState, xs: seq<Sight>)
    requires st.skip.Some? && forall x :: x in xs ==> x.depth > st.skip.value
    ensures Scan(gain, st, xs) == st
    decreases |xs|
  {
    if xs != [] {
      ScanSkips(gain, st, xs[..|xs| - 1]);
    }
  }

  /** Whatever is being skipped ends at sights of this depth. */
  predicate SkipsBelow(st: ScanState, depth: nat) {
    st.skip.None? || st.skip.value >= depth
  }

  /** From this state the scan of these sights does what the walk does. */
  ghost predicate Scans(gain: Gain, st: ScanState, xs: seq<Sight>, r: State, depth: nat) {
    var end := Scan(gain, st, xs);
    State(end.matches, end.visited) == r && SkipsBelow(end, depth)
  }

  lemma ScanOne(gain: Gain, st: ScanState, x: Sight)
    ensures Scan(gain, st, [x]) == Take(gain, st, x)
  {
    assert [x][..0] == [];
  }

  lemma {:induction false} WalkIsScan(heap: Heap, find: Finder, st: ScanState, v: Value, path: seq<string>, depth: nat)
    requires SkipsBelow(st, depth)
    ensures Scans(Gaining(find), st, Unfold(heap, v, path, depth),
                  Walk(heap, find, State(st.matches, st.visited), v, path, depth), depth)
    decreases MAX_DEPTH + 1 - depth, 0
  {
    var xs := Unfold(heap, v, path, depth);
    if v.Null? || v.Scalar? || depth > MAX_DEPTH {
      assert xs == [];
    } else if v.Str? {
      ScanOne(Gaining(find), st, TextAt(v.s, path, depth));
    } else {
      var children := Children(heap, v, path);
      var inner := UnfoldAll(heap, children, depth + 1);
      var next := Take(Gaining(find), st, NodeAt(v.id, depth));
      ScanOne(Gaining(find), st, NodeAt(v.id, depth));
      ScanConcat(Gaining(find), st, [NodeAt(v.id, depth)], inner);
      if v.id in st.visited {
        UnfoldAllIsDeep(heap, children, depth + 1);
        ScanSkips(Gaining(find), next, inner);
      } else {
        WalkAllIsScan(heap, find, next, children, depth + 1);
      }
    }
  }

  lemma {:induction false} WalkAllIsScan(heap: Heap, find: Finder, st: ScanState, vs: seq<(Value, seq<string>)>,
                                         depth: nat)
    requires SkipsBelow(st, depth)
    ensures Scans(Gaining(find), st, UnfoldAll(heap, vs, depth),
                  WalkAll(heap, find, State(st.matches, st.visited), vs, depth), depth)
    decreases MAX_DEPTH + 1 - depth, |vs| + 1
  {
    if vs == [] {
      assert UnfoldAll(heap, vs, depth) == [];
    } else {
      var first := Unfold(heap, vs[0].0, vs[0].1, depth);
      WalkIsScan(heap, find, st, vs[0].0, vs[0].1, depth);
      var next := Scan(Gaining(find), st, first);
      WalkAllIsScan(heap, find, next, vs[1..], depth);
      ScanConcat(Gaining(find), st, first, UnfoldAll(heap, vs[1..], depth));
    }
  }

  // --- The scan keeps what is not dropped --------------------------------------------------------

  /** The containers that are open and repeated: none, or the outermost of them gives the skip. */
  ghost predicate SkipFits(xs: seq<Sight>, visited: set<nat>, n: nat, skip: Option<nat>)
    requires n <= |xs|
  {
    && (forall j :: 0 <= j < n && OpenAt(xs, j, n) && Repeated(xs, visited, j) ==> skip.Some? && skip.value <= xs[j].depth)
    && (skip.Some? ==>
          exists j :: 0 <= j < n && OpenAt(xs, j, n) && Repeated(xs, visited, j) && xs[j].depth == skip.value)
  }

  /** The state has gathered what these sights add, and marked their containers. */
  ghost predicate Gathers(gain: Gain, st: ScanState, kept: seq<Sight>, r: ScanState) {
    r.matches == st.matches + Collect(gain, kept, |st.matches|) && r.visited == st.visited + Ids(kept)
  }

  lemma GathersOne(gain: Gain, st: ScanState, kept: seq<Sight>, r: ScanState, x: Sight, skip: Option<nat>)
    requires Gathers(gain, st, kept, r) && OnlyTextsAdd(gain)
    ensures var ids := if x.NodeAt? then {x.id} else {};
            Gathers(gain, st, kept + [x], ScanState(r.matches + gain(x, |r.matches|), r.visited + ids, skip))
  {
    IdsGrow(kept, x);
    CollectGrows(gain, kept, x, |st.matches|);
    var before, more := Collect(gain, kept, |st.matches|), gain(x, |r.matches|);
    assert st.matches + before + more == st.matches + (before + more);
  }

  ghost predicate ScanFits(gain: Gain, st: ScanState, xs: seq<Sight>, n: nat, r: ScanState)
    requires n <= |xs|
  {
    var kept := Kept(xs, st.visited, n);
    Gathers(gain, st, kept, r) && SkipFits(xs, st.visited, n, r.skip)
  }

  lemma DroppedIffSkipped(xs: seq<Sight>, visited: set<nat>, n: nat, skip: Option<nat>)
    requires n < |xs| && SkipFits(xs, visited, n, skip)
    ensures Dropped(xs, visited, n) <==> skip.Some? && xs[n].depth > skip.value
  {
    if skip.Some? && xs[n].depth > skip.value {
      var j :| 0 <= j < n && OpenAt(xs, j, n) && Repeated(xs, visited, j) && xs[j].depth == skip.value;
      assert Below(xs, j, n);
    }
    if Dropped(xs, visited, n) {
      var j :| 0 <= j < n && Below(xs, j, n) && Repeated(xs, visited, j);
      assert OpenAt(xs, j, n);
    }
  }

  lemma OpenOneLater(xs: seq<Sight>, j: nat, n: nat)
    requires n < |xs| && j <= n
    ensures OpenAt(xs, j, n + 1) <==> if j < n then OpenAt(xs, j, n) && xs[n].depth > xs[j].depth else xs[n].NodeAt?
  {
    if j < n && OpenAt(xs, j, n + 1) {
      assert OpenAt(xs, j, n);
    }
  }

  lemma SkipGoesOn(xs: seq<Sight>, visited: set<nat>, n: nat, skip: Option<nat>)
    requires n < |xs| && SkipFits(xs, visited, n, skip)
    requires skip.Some? && xs[n].depth > skip.value
    ensures SkipFits(xs, visited, n + 1, skip)
  {
    var j :| 0 <= j < n && OpenAt(xs, j, n) && Repeated(xs, visited, j) && xs[j].depth == skip.value;
    OpenOneLater(xs, j, n);
    forall i | 0 <= i < n + 1 && OpenAt(xs, i, n + 1) && Repeated(xs, visited, i) ensures skip.value <= xs[i].depth {
      OpenOneLater(xs, i, n);
    }
  }

  lemma SkipIsSet(xs: seq<Sight>, visited: set<nat>, n: nat, skip: Option<nat>)
    requires n < |xs| && SkipFits(xs, visited, n, skip) && !(skip.Some? && xs[n].depth > skip.value)
    ensures SkipFits(xs, visited, n + 1, if Repeated(xs, visited, n) then Some(xs[n].depth) else None)
  {
    OpenOneLater(xs, n, n);
    forall i | 0 <= i < n + 1 && OpenAt(xs, i, n + 1) && Repeated(xs, visited, i) ensures i == n {
      OpenOneLater(xs, i, n);
    }
  }

  lemma IdsGrow(xs: seq<Sight>, x: Sight)
    ensures Ids(xs + [x]) == Ids(xs) + (if x.NodeAt? then {x.id} else {})
  {
    var more := xs + [x];
    assert more[|xs|] == x;
    forall id | id in Ids(xs) ensures id in Ids(more) {
      var k :| 0 <= k < |xs| && xs[k].NodeAt? && xs[k].id == id;
      assert more[k] == xs[k];
    }
  }

  /** The identities kept so far are those of the containers not dropped. */
  lemma {:induction false} KeptIds(xs: seq<Sight>, visited: set<nat>, n: nat, id: nat)
    requires n <= |xs|
    ensures id in Ids(Kept(xs, visited, n)) <==>
            exists i :: 0 <= i < n && xs[i].NodeAt? && xs[i].id == id && !Dropped(xs, visited, i)
  {
    if n > 0 {
      KeptIds(xs, visited, n - 1, id);
      IdsGrow(Kept(xs, visited, n - 1), xs[n - 1]);
    }
  }

  lemma CollectGrows(gain: Gain, xs: seq<Sight>, x: Sight, start: nat)
    ensures Collect(gain, xs + [x], start) == Collect(gain, xs, start) + gain(x, start + |Collect(gain, xs, start)|)
  {
    var more := xs + [x];
    assert more[..|more| - 1] == xs && more[|more| - 1] == x;
  }

  lemma OneTake(gain: Gain, st: ScanState, xs: seq<Sight>, n: nat, r: ScanState)
    requires n < |xs| && ScanFits(gain, st, xs, n, r) && OnlyTextsAdd(gain)
    ensures ScanFits(gain, st, xs, n + 1, Take(gain, r, xs[n]))
  {
    DroppedIffSkipped(xs, st.visited, n, r.skip);
    if Dropped(xs, st.visited, n) {
      SkipGoesOn(xs, st.visited, n, r.skip);
    } else {
      OneTaken(gain, st, xs, n, r);
    }
  }

  lemma OneTaken(gain: Gain, st: ScanState, xs: seq<Sight>, n: nat, r: ScanState)
    requires n < |xs| && ScanFits(gain, st, xs, n, r) && OnlyTextsAdd(gain) && !Dropped(xs, st.visited, n)
    ensures ScanFits(gain, st, xs, n + 1, Take(gain, r, xs[n]))
  {
    var kept, x := Kept(xs, st.visited, n), xs[n];
    DroppedIffSkipped(xs, st.visited, n, r.skip);
    SkipIsSet(xs, st.visited, n, r.skip);
    var t := Take(gain, r, x);
    GathersOne(gain, st, kept, r, x, t.skip);
    if x.NodeAt? {
      KeptIds(xs, st.visited, n, x.id);
      assert Repeated(xs, st.visited, n) <==> x.id in r.visited;
      assert r.matches + [] == r.matches;
      assert x.id in r.visited ==> r.visited + {x.id} == r.visited;
    } else {
      assert r.visited + {} == r.visited;
    }
  }

  lemma {:induction false} ScanKeeps(gain: Gain, st: ScanState, xs: seq<Sight>, n: nat)
    requires n <= |xs| && st.skip.None? && OnlyTextsAdd(gain)
    ensures ScanFits(gain, st, xs, n, Scan(gain, st, xs[..n]))
  {
    if n == 0 {
      assert xs[..n] == [] && Ids([]) == {};
    } else {
      ScanKeeps(gain, st, xs, n - 1);
      ScanLast(gain, st, xs, n);
      OneTake(gain, st, xs, n - 1, Scan(gain, st, xs[..n - 1]));
    }
  }

  // --- What the walk records ---------------------------------------------------------------------

  /**
   The walk records exactly the texts of the unfolding that are not dropped, in their order and under the
   paths at which they stand there; and it marks exactly the containers that are not dropped.
   */
  lemma WalkRecordsWhatIsKept(heap: Heap, find: Finder, s: State, v: Value, path: seq<string>, depth: nat)
    ensures var xs := Unfold(heap, v, path, depth);
            var kept := Kept(xs, s.visited, |xs|);
            Walk(heap, find, s, v, path, depth) ==
            State(s.matches + Collect(Gaining(find), kept, |s.matches|), s.visited + Ids(kept))
  {
    var xs := Unfold(heap, v, path, depth);
    var st := ScanState(s.matches, s.visited, None);
    WalkIsScan(heap, find, st, v, path, depth);
    ScanKeeps(Gaining(find), st, xs, |xs|);
    assert xs[..|xs|] == xs;
  }

  /** An address of this priority stands, usable, in the text. */
  ghost predicate Shows(find: Finder, x: Sight, priority: nat, address: string) {
    x.TextAt? && Priority(x.path) == Some(priority) && exists c :: c in find(x.s) && Usable(c) && c.text == address
  }

  lemma {:induction false} RecordShows(cs: seq<Candidate>, path: seq<string>, start: nat, priority: nat,
                                       address: string)
    ensures Recorded(Record(cs, path, start), priority, address) <==>
            Priority(path) == Some(priority) && exists c :: c in cs && Usable(c) && c.text == address
    decreases |cs|
  {
    if cs != [] {
      var counted := Usable(cs[0]) && Priority(path).Some?;
      var rest := Record(cs[1..], path, if counted then start + 1 else start);
      RecordShows(cs[1..], path, if counted then start + 1 else start, priority, address);
      assert cs == [cs[0]] + cs[1..];
      if counted {
        var first := Match(Priority(path).value, start, cs[0].text);
        assert Record(cs, path, start) == [first] + rest;
        assert first in Record(cs, path, start);
      }
    }
  }

  lemma GainShows(find: Finder, x: Sight, start: nat, priority: nat, address: string)
    ensures Recorded(Gaining(find)(x, start), priority, address) <==> Shows(find, x, priority, address)
  {
    if x.TextAt? {
      RecordShows(find(x.s), x.path, start, priority, address);
    }
  }

  lemma {:induction false} CollectShows(find: Finder, xs: seq<Sight>, start: nat, priority: nat, address: string)
    ensures Recorded(Collect(Gaining(find), xs, start), priority, address) <==> Met(find, xs, priority, address)
  {
    if xs != [] {
      var front, last := xs[..|xs| - 1], xs[|xs| - 1];
      CollectShows(find, front, start, priority, address);
      ShowsSplit(find, xs, priority, address);
      var before := Collect(Gaining(find), front, start);
      GainShows(find, last, start + |before|, priority, address);
      RecordedSplit(before, Gaining(find)(last, start + |before|), priority, address);
    }
  }

  lemma RecordedSplit(a: seq<Match>, b: seq<Match>, priority: nat, address: string)
    ensures Recorded(a + b, priority, address) <==> Recorded(a, priority, address) || Recorded(b, priority, address)
  {
    if m :| m in a && m.priority == priority && m.address == address {
      assert m in a + b;
    }
    if m :| m in b && m.priority == priority && m.address == address {
      assert m in a + b;
    }
  }

  lemma ShowsSplit(find: Finder, xs: seq<Sight>, priority: nat, address: string)
    requires xs != []
    ensures Met(find, xs, priority, address) <==>
            Met(find, xs[..|xs| - 1], priority, address) || Shows(find, xs[|xs| - 1], priority, address)
  {
    var front := xs[..|xs| - 1];
    assert forall k :: 0 <= k < |front| ==> front[k] == xs[k];
  }

  /** One of the first n sights shows the address and is not dropped. */
  ghost predicate ShownAndKept(find: Finder, xs: seq<Sight>, visited: set<nat>, n: nat, priority: nat, address: string)
    requires n <= |xs|
  {
    exists k :: 0 <= k < n && !Dropped(xs, visited, k) && Shows(find, xs[k], priority, address)
  }

  lemma OneMoreShown(find: Finder, xs: seq<Sight>, visited: set<nat>, n: nat, priority: nat, address: string)
    requires n < |xs|
    ensures ShownAndKept(find, xs, visited, n + 1, priority, address) <==>
            ShownAndKept(find, xs, visited, n, priority, address)
            || (!Dropped(xs, visited, n) && Shows(find, xs[n], priority, address))
  {
  }

  lemma MetGrows(find: Finder, xs: seq<Sight>, x: Sight, priority: nat, address: string)
    ensures Met(find, xs + [x], priority, address) <==> Met(find, xs, priority, address) || Shows(find, x, priority, address)
  {
    ShowsSplit(find, xs + [x], priority, address);
    assert (xs + [x])[..|xs|] == xs;
  }

  lemma {:induction false} KeptShows(find: Finder, xs: seq<Sight>, visited: set<nat>, n: nat, priority: nat,
                                     address: string)
    requires n <= |xs|
    ensures Met(find, Kept(xs, visited, n), priority, address) <==> ShownAndKept(find, xs, visited, n, priority, address)
  {
    if n > 0 {
      KeptShows(find, xs, visited, n - 1, priority, address);
      OneMoreShown(find, xs, visited, n - 1, priority, address);
      MetGrows(find, Kept(xs, visited, n - 1), xs[n - 1], priority, address);
    }
  }

  /** An address of this priority is recorded. */
  ghost predicate Recorded(matches: seq<Match>, priority: nat, address: string) {
    exists m :: m in matches && m.priority == priority && m.address == address
  }

  /** It stands somewhere in the unfolding. */
  ghost predicate Met(find: Finder, xs: seq<Sight>, priority: nat, address: string) {
    exists k :: 0 <= k < |xs| && Shows(find, xs[k], priority, address)
  }

  /**
   Exactly what is lost: an address of some priority is recorded if and only if it stands in a text that
   does not lie inside a container met before.
   */
  lemma RecordedIffKept(heap: Heap, find: Finder, payload: Value, priority: nat, address: string)
    ensures var xs := Unfold(heap, payload, [], 0);
            Recorded(Walk(heap, find, State([], {}), payload, [], 0).matches, priority, address) <==>
            ShownAndKept(find, xs, {}, |xs|, priority, address)
  {
    var xs := Unfold(heap, payload, [], 0);
    WalkRecordsWhatIsKept(heap, find, State([], {}), payload, [], 0);
    CollectShows(find, Kept(xs, {}, |xs|), 0, priority, address);
    KeptShows(find, xs, {}, |xs|, priority, address);
  }

  /** Every recorded address stands, usable, in some text of the unfolding, under a path of its priority. */
  lemma WalkIsSound(heap: Heap, find: Finder, payload: Value, m: Match)
    requires m in Walk(heap, find, State([], {}), payload, [], 0).matches
    ensures Met(find, Unfold(heap, payload, [], 0), m.priority, m.address)
  {
    RecordedIffKept(heap, find, payload, m.priority, m.address);
    assert Recorded(Walk(heap, find, State([], {}), payload, [], 0).matches, m.priority, m.address);
  }

  /** No identity is met twice, and none was visited before. */
  ghost predicate Unshared(xs: seq<Sight>, visited: set<nat>) {
    && Ids(xs) !! visited
    && (forall i, j :: 0 <= i < j < |xs| && xs[i].NodeAt? && xs[j].NodeAt? ==> xs[i].id != xs[j].id)
  }

  lemma {:induction false} UnsharedIsKept(xs: seq<Sight>, visited: set<nat>, n: nat)
    requires n <= |xs| && Unshared(xs, visited)
    ensures Kept(xs, visited, n) == xs[..n]
  {
    if n > 0 {
      UnsharedIsKept(xs, visited, n - 1);
      forall j | 0 <= j < n ensures !Repeated(xs, visited, j) {
        assert xs[j].NodeAt? ==> xs[j].id in Ids(xs);
      }
      assert !Dropped(xs, visited, n - 1);
      assert xs[..n] == xs[..n - 1] + [xs[n - 1]];
    }
  }

  /** Where no identity, be it of a lasting or of a temporary container, is met twice, nothing is lost. */
  lemma WalkIsComplete(heap: Heap, find: Finder, s: State, v: Value, path: seq<string>, depth: nat)
    requires Unshared(Unfold(heap, v, path, depth), s.visited)
    ensures var xs := Unfold(heap, v, path, depth);
            Walk(heap, find, s, v, path, depth) ==
            State(s.matches + Collect(Gaining(find), xs, |s.matches|), s.visited + Ids(xs))
  {
    var xs := Unfold(heap, v, path, depth);
    WalkRecordsWhatIsKept(heap, find, s, v, path, depth);
    UnsharedIsKept(xs, s.visited, |xs|);
    assert xs[..|xs|] == xs;
  }

  // --- Sharing loses addresses -------------------------------------------------------------------

  const LINKS: set<nat> := {1, 2, 3, 4, 5, 6, 7, 8, 9, 10, 11}

  /** Nodes 1 to 11 each hold the next one, node 12 an address, node 0 both ends of the chain. */
  function ChainHeap(address: string): Heap {
    (map k | k in LINKS :: Items([Ref(k + 1)]))
    + map[0 := Items([Ref(1), Ref(MAX_DEPTH)]), MAX_DEPTH := Dict([("ip", Str(address))])]
  }

  lemma {:induction false} ChainIsCutOff(find: Finder, address: string, s: State, k: nat, path: seq<string>)
    requires 1 <= k <= MAX_DEPTH && forall j :: k <= j <= MAX_DEPTH ==> j !in s.visited
    ensures var r := Walk(ChainHeap(address), find, s, Ref(k), path, k); r.matches == s.matches && MAX_DEPTH in r.visited
    decreases MAX_DEPTH - k
  {
    var heap := ChainHeap(address);
    var marked := s.(visited := s.visited + {k});
    var children := Children(heap, Ref(k), path);
    assert |children| == 1 && children[1..] == [];
    var next := Walk(heap, find, marked, children[0].0, children[0].1, k + 1);
    assert WalkAll(heap, find, marked, children, k + 1) == WalkAll(heap, find, next, [], k + 1) == next;
    if k < MAX_DEPTH {
      ChainIsCutOff(find, address, marked, k + 1, children[0].1);
    }
  }

  /**
   With sharing an address may be lost, although a short path leads to it: the walk meets its node
   first at the depth bound, marks it, and passes it by at depth one.
   */
  lemma SharedNodesMayHideAddresses(find: Finder, address: string)
    requires find(address) == [Address(address, false, false, false, false)]
    ensures var heap := ChainHeap(address);
            Walk(heap, find, State([], {}), Ref(0), [], 0).matches == []
            && Met(find, Unfold(heap, Ref(0), [], 0), 90, address)
  {
    var heap := ChainHeap(address);
    var children := Children(heap, Ref(0), []);
    var marked := State([], {0});
    assert |children| == 2 && children[0].0 == Ref(1) && children[1].0 == Ref(MAX_DEPTH);
    ChainIsCutOff(find, address, marked, 1, children[0].1);
    PassedBy(heap, find, marked, children[0].1, children[1]);
    assert children == [(Ref(1), children[0].1), children[1]];
    assert State([], {}).visited + {0} == {0};
    assert Walk(heap, find, State([], {}), Ref(0), [], 0) == WalkAll(heap, find, marked, children, 1);
    HiddenIsMet(find, address);
  }

  lemma PassedBy(heap: Heap, find: Finder, s: State, path: seq<string>, last: (Value, seq<string>))
    requires last.0.Ref? && last.0.id in Walk(heap, find, s, Ref(1), path, 1).visited
    ensures WalkAll(heap, find, s, [(Ref(1), path), last], 1) == Walk(heap, find, s, Ref(1), path, 1)
  {
    var vs := [(Ref(1), path), last];
    var next := Walk(heap, find, s, Ref(1), path, 1);
    assert vs[1..] == [last] && [last][1..] == [];
    assert Walk(heap, find, next, last.0, last.1, 1) == next;
    assert WalkAll(heap, find, next, [last], 1) == WalkAll(heap, find, next, [], 1);
  }

  lemma HiddenIsMet(find: Finder, address: string)
    requires find(address) == [Address(address, false, false, false, false)]
    ensures Met(find, Unfold(ChainHeap(address), Ref(0), [], 0), 90, address)
  {
    var heap := ChainHeap(address);
    var children := Children(heap, Ref(0), []);
    var path := children[1].1;
    var inner := Children(heap, Ref(MAX_DEPTH), path);
    assert |inner| == 1 && inner[0] == (Str(address), path + ["ip"]);
    var text := TextAt(address, path + ["ip"], 2);
    assert Unfold(heap, Str(address), path + ["ip"], 2) == [text];
    assert inner[1..] == [] && UnfoldAll(heap, inner, 2) == [text] + UnfoldAll(heap, [], 2) == [text];
    assert Unfold(heap, Ref(MAX_DEPTH), path, 1) == [NodeAt(MAX_DEPTH, 1), text];
    assert children[1..] == [children[1]] && [children[1]][1..] == [];
    var first := Unfold(heap, Ref(1), children[0].1, 1);
    assert UnfoldAll(heap, [children[1]], 1) == [NodeAt(MAX_DEPTH, 1), text] + [];
    assert UnfoldAll(heap, children, 1) == first + [NodeAt(MAX_DEPTH, 1), text];
    assert Unfold(heap, Ref(0), [], 0) == [NodeAt(0, 0)] + (first + [NodeAt(MAX_DEPTH, 1), text]);
    IpHasPriority(path);
    assert Shows(find, text, 90, address);
    var xs := [NodeAt(0, 0)] + (first + [NodeAt(MAX_DEPTH, 1), text]);
    assert xs[|xs| - 1] == text;
  }

  lemma IpHasPriority(path: seq<string>)
    ensures Priority(path + ["ip"]) == Some(90)
  {
    assert "ip"[1..] == "p" && "p"[1..] == "";
    assert Normal("p") == "p" && Normal("ip") == "ip";
    assert (path + ["ip"])[|path + ["ip"]| - 1] == "ip";
  }

  // --- Two more ways to lose an address ----------------------------------------------------------

  /** One node under two keys: the path of its first meeting counts, even where that is not trusted. */
  function TwoKeysHeap(address: string): Heap {
    map[0 := Dict([("a", Ref(1)), ("status", Ref(1))]), 1 := Dict([("host", Str(address))])]
  }

  lemma NormalWords()
    ensures Normal("host") == "host" && Normal("a") == "a" && Normal("status") == "status"
  {
    NormalLetter('t', "");
    NormalLetter('s', "t");
    NormalLetter('o', "st");
    NormalLetter('h', "ost");
    NormalLetter('a', "");
    NormalLetter('s', "");
    NormalLetter('u', "s");
    NormalLetter('t', "us");
    NormalLetter('a', "tus");
    NormalLetter('t', "atus");
    NormalLetter('s', "tatus");
  }

  lemma NormalLetter(c: char, s: string)
    requires 'a' <= c <= 'z'
    ensures Normal([c] + s) == [c] + Normal(s)
  {
    assert ([c] + s)[1..] == s;
  }

  lemma HostPriorities()
    ensures Priority(["a", "host"]) == None && Priority(["status", "host"]) == Some(50)
  {
    NormalWords();
    var trusted, other := ["status", "host"], ["a", "host"];
    assert "status"[..|"status"|] == "status" && Contains("status", "status");
    assert Contains(Normal(trusted[0]), "status");
    assert StatusPath(trusted);
    assert !StatusPath(other) by {
      assert Normal(other[0]) == "a";
    }
  }

  lemma TwoKeysUnfold(address: string)
    ensures Unfold(TwoKeysHeap(address), Ref(0), [], 0) ==
            [NodeAt(0, 0), NodeAt(1, 1), TextAt(address, ["a", "host"], 2),
             NodeAt(1, 1), TextAt(address, ["status", "host"], 2)]
  {
    var heap := TwoKeysHeap(address);
    TwoKeysChildren(heap, address);
    var a, b := TextAt(address, ["a", "host"], 2), TextAt(address, ["status", "host"], 2);
    OneChildUnfolds(heap, (Str(address), ["a", "host"]), 2);
    OneChildUnfolds(heap, (Str(address), ["status", "host"]), 2);
    assert Unfold(heap, Ref(1), ["a"], 1) == [NodeAt(1, 1), a];
    assert Unfold(heap, Ref(1), ["status"], 1) == [NodeAt(1, 1), b];
    OneChildUnfolds(heap, (Ref(1), ["status"]), 1);
    var children := [(Ref(1), ["a"]), (Ref(1), ["status"])];
    assert children[1..] == [(Ref(1), ["status"])];
    assert UnfoldAll(heap, children, 1) == [NodeAt(1, 1), a] + [NodeAt(1, 1), b];
  }

  lemma OneChildUnfolds(heap: Heap, child: (Value, seq<string>), depth: nat)
    ensures UnfoldAll(heap, [child], depth) == Unfold(heap, child.0, child.1, depth)
  {
    assert [child][1..] == [];
  }

  lemma TwoKeysChildren(heap: Heap, address: string)
    requires heap == TwoKeysHeap(address)
    ensures Children(heap, Ref(0), []) == [(Ref(1), ["a"]), (Ref(1), ["status"])]
    ensures Children(heap, Ref(1), ["a"]) == [(Str(address), ["a", "host"])]
    ensures Children(heap, Ref(1), ["status"]) == [(Str(address), ["status", "host"])]
  {
    var none: seq<string> := [];
    assert none + ["a"] == ["a"] && none + ["status"] == ["status"];
    assert ["a"] + ["host"] == ["a", "host"] && ["status"] + ["host"] == ["status", "host"];
  }

  lemma FirstPathsCount(find: Finder, address: string)
    requires find(address) == [Address(address, false, false, false, false)]
    ensures var heap := TwoKeysHeap(address);
            !Recorded(Walk(heap, find, State([], {}), Ref(0), [], 0).matches, 50, address)
            && Met(find, Unfold(heap, Ref(0), [], 0), 50, address)
  {
    var a, b := TextAt(address, ["a", "host"], 2), TextAt(address, ["status", "host"], 2);
    var xs := [NodeAt(0, 0), NodeAt(1, 1), a, NodeAt(1, 1), b];
    TwoKeysUnfold(address);
    HostPriorities();
    RecordedIffKept(TwoKeysHeap(address), find, Ref(0), 50, address);
    assert !Shows(find, a, 50, address);
    SecondMeetingIsLost(find, xs, a, b, 50, address);
    assert Shows(find, xs[4], 50, address);
  }

  lemma SecondMeetingIsLost(find: Finder, xs: seq<Sight>, a: Sight, b: Sight, priority: nat, address: string)
    requires a.TextAt? && b.TextAt? && a.depth == b.depth == 2
    requires xs == [NodeAt(0, 0), NodeAt(1, 1), a, NodeAt(1, 1), b] && !Shows(find, a, priority, address)
    ensures !ShownAndKept(find, xs, {}, |xs|, priority, address)
  {
    SecondMeetingIsDropped(xs, a, b);
  }

  lemma SecondMeetingIsDropped(xs: seq<Sight>, a: Sight, b: Sight)
    requires a.TextAt? && b.TextAt? && a.depth == b.depth == 2
    requires xs == [NodeAt(0, 0), NodeAt(1, 1), a, NodeAt(1, 1), b]
    ensures Dropped(xs, {}, 4)
  {
    assert !Dropped(xs, {}, 1) by {
      assert !Repeated(xs, {}, 0);
    }
    assert Repeated(xs, {}, 3) by {
      assert xs[1].id == xs[3].id;
    }
    assert Below(xs, 3, 4);
  }

  /** Two objects of a list whose dictionaries get the same memory address, one after the other. */
  function ReusedHeap(address: string, first: nat, second: nat): Heap {
    map[0 := Items([Ref(1), Ref(2)]),
        1 := Object([], NoDump, Some((first, [("name", Scalar)]))),
        2 := Object([], NoDump, Some((second, [("ip", Str(address))])))]
  }

  lemma ReusedIdentitiesMayHideAddresses(find: Finder, address: string, temporary: nat)
    requires temporary > 2
    ensures var heap := ReusedHeap(address, temporary, temporary);
            Walk(heap, find, State([], {}), Ref(0), [], 0).matches == []
  {
    var heap := ReusedHeap(address, temporary, temporary);
    var children := Children(heap, Ref(0), []);
    var one, two := children[0].1, children[1].1;
    assert children == [(Ref(1), one), (Ref(2), two)] && children[1..] == [children[1]] && [children[1]][1..] == [];
    var named := [("name", Scalar)];
    assert named[1..] == [] && Public(named) == named + Public([]) == named;
    var t1 := Temp(temporary, Dict(named));
    assert Children(heap, Ref(1), one) == [(t1, one)] && [(t1, one)][1..] == [];
    var listed := [("ip", Str(address))];
    assert listed[1..] == [] && Public(listed) == listed + Public([]) == listed;
    var t2 := Temp(temporary, Dict(listed));
    assert Children(heap, Ref(2), two) == [(t2, two)] && [(t2, two)][1..] == [];
    var s0, s1, s2, s3 := State([], {0}), State([], {0, 1}), State([], {0, 1, temporary}), State([], {0, 1, temporary, 2});
    var scalars := Children(heap, t1, one);
    assert |scalars| == 1 && scalars[0].0 == Scalar && scalars[1..] == [];
    assert WalkAll(heap, find, s2, scalars, 3) == WalkAll(heap, find, s2, [], 3) == s2;
    assert s1.visited + {temporary} == s2.visited && Walk(heap, find, s1, t1, one, 2) == s2;
    assert WalkAll(heap, find, s1, [(t1, one)], 2) == WalkAll(heap, find, s2, [], 2) == s2;
    assert s0.visited + {1} == s1.visited && Walk(heap, find, s0, Ref(1), one, 1) == s2;
    assert Walk(heap, find, s3, t2, two, 2) == s3;
    assert WalkAll(heap, find, s3, [(t2, two)], 2) == WalkAll(heap, find, s3, [], 2) == s3;
    assert s2.visited + {2} == s3.visited && Walk(heap, find, s2, Ref(2), two, 1) == s3;
    assert WalkAll(heap, find, s2, [children[1]], 1) == WalkAll(heap, find, s3, [], 1) == s3;
    assert WalkAll(heap, find, s0, children, 1) == s3;
    assert State([], {}).visited + {0} == {0};
  }
}
