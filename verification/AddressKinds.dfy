/**
 Which addresses a report yields, and in what order, told by the keys under which they stand.
 */
module AddressKinds {
  import opened Wrappers
  import opened AddressExtraction
  import opened AddressWalk
  import opened AddressRanking
  import Text

  // --- Keys --------------------------------------------------------------------------------------

  /** A letter or digit, read in lower case. */
  predicate ReadsChar(c: char, w: char) {
    if 'A' <= c <= 'Z' then 'a' <= w <= 'z' && w - 'a' == c - 'A' else ('a' <= c <= 'z' || '0' <= c <= '9') && w == c
  }

  /** A key reads as a word if it spells that word, whatever the case of its letters and whatever else stands in it. */
  predicate ReadsAs(key: string, word: string)
    decreases |key|
  {
    if key == "" then word == ""
    else
      var k, w := |key| - 1, |word| - 1;
      if Text.IsAlnum(key[k]) then word != "" && ReadsChar(key[k], word[w]) && ReadsAs(key[..k], word[..w])
      else ReadsAs(key[..k], word)
  }

  lemma {:induction false} NormalLast(key: string, c: char)
    ensures Normal(key + [c]) ==
            Normal(key) + (if Text.IsAlnum(c) then [Text.LowerChar(c)] else "")
  {
    var s := key + [c];
    if key == "" {
      assert s == [c] && s[1..] == "";
    } else {
      assert s[1..] == key[1..] + [c] && s[0] == key[0];
      NormalLast(key[1..], c);
    }
  }

  lemma {:induction false} NormalReads(key: string, word: string)
    ensures Normal(key) == word <==> ReadsAs(key, word)
    decreases |key|
  {
    if key != "" {
      var k := |key| - 1;
      assert key == key[..k] + [key[k]];
      NormalLast(key[..k], key[k]);
      if Text.IsAlnum(key[k]) {
        if word != "" {
          var w := |word| - 1;
          assert word == word[..w] + [word[w]];
          NormalReads(key[..k], word[..w]);
          assert ReadsChar(key[k], word[w]) <==> Text.LowerChar(key[k]) == word[w];
        }
      } else {
        NormalReads(key[..k], word);
      }
    }
  }

  predicate StandsAt(word: string, part: string, i: nat) {
    i + |part| <= |word| && word[i..i + |part|] == part
  }

  /** The part stands somewhere in the word. */
  ghost predicate Within(word: string, part: string) {
    exists i: nat :: StandsAt(word, part, i)
  }

  lemma StandsOneLater(s: string, part: string, i: nat)
    requires s != ""
    ensures StandsAt(s[1..], part, i) <==> StandsAt(s, part, i + 1)
  {
    if i + 1 + |part| <= |s| {
      assert s[1..][i..i + |part|] == s[i + 1..i + 1 + |part|];
    }
  }

  lemma {:induction false} ContainsIsWithin(s: string, part: string)
    ensures Contains(s, part) <==> Within(s, part)
  {
    assert |part| <= |s| ==> (s[..|part|] == part <==> StandsAt(s, part, 0));
    if |part| <= |s| && s != "" {
      ContainsIsWithin(s[1..], part);
      if i: nat :| StandsAt(s[1..], part, i) {
        StandsOneLater(s, part, i);
      }
      if i: nat :| StandsAt(s, part, i) {
        if i > 0 {
          StandsOneLater(s, part, i - 1);
        }
      }
    }
  }

  /** The key reads as a word that mentions a status or a network. */
  ghost predicate Mentions(key: string, word: string) {
    ReadsAs(key, word) && (Within(word, "status") || Within(word, "network"))
  }

  /** Some key above does. */
  ghost predicate InStatus(path: seq<string>) {
    exists k, word :: 0 <= k < |path| - 1 && Mentions(path[k], word)
  }

  // --- Kinds -------------------------------------------------------------------------------------

  /** How a key names an address: as the container's own, just so, as the node's, or as an endpoint in a status. */
  datatype Kind = Own | Ip | OfNode | InReport

  ghost predicate IsKind(path: seq<string>, kind: Kind) {
    path != [] &&
    var key := path[|path| - 1];
    match kind
    case Own =>
      ReadsAs(key, "podip") || ReadsAs(key, "containerip") || ReadsAs(key, "privateip") || ReadsAs(key, "ipaddress")
    case Ip => ReadsAs(key, "ip")
    case OfNode => ReadsAs(key, "hostip") || ReadsAs(key, "nodeip")
    case InReport => InStatus(path) && (ReadsAs(key, "address") || ReadsAs(key, "endpoint") || ReadsAs(key, "host"))
  }

  predicate MoreTrusted(a: Kind, b: Kind) {
    match a
    case Own => b != Own
    case Ip => b == OfNode || b == InReport
    case OfNode => b == InReport
    case InReport => false
  }

  function Weight(kind: Kind): nat {
    match kind
    case Own => 100
    case Ip => 90
    case OfNode => 80
    case InReport => 50
  }

  lemma StatusPathsAreInStatus(path: seq<string>)
    ensures StatusPath(path) <==> InStatus(path)
  {
    if StatusPath(path) {
      var k :| 0 <= k < |path| - 1 && (Contains(Normal(path[k]), "status") || Contains(Normal(path[k]), "network"));
      NormalReads(path[k], Normal(path[k]));
      ContainsIsWithin(Normal(path[k]), "status");
      ContainsIsWithin(Normal(path[k]), "network");
      assert Mentions(path[k], Normal(path[k]));
    }
    if InStatus(path) {
      var k, word :| 0 <= k < |path| - 1 && Mentions(path[k], word);
      NormalReads(path[k], word);
      ContainsIsWithin(word, "status");
      ContainsIsWithin(word, "network");
    }
  }

  /** The number of a path tells its kind, and paths of no kind have none. */
  lemma PrioritiesTellKinds(path: seq<string>, kind: Kind)
    ensures IsKind(path, kind) <==> Priority(path) == Some(Weight(kind))
    ensures Priority(path).Some? ==> exists k :: Priority(path) == Some(Weight(k))
  {
    StatusPathsAreInStatus(path);
    if path != [] {
      var key := path[|path| - 1];
      NormalReads(key, "podip");
      NormalReads(key, "containerip");
      NormalReads(key, "privateip");
      NormalReads(key, "ipaddress");
      NormalReads(key, "ip");
      NormalReads(key, "hostip");
      NormalReads(key, "nodeip");
      NormalReads(key, "address");
      NormalReads(key, "endpoint");
      NormalReads(key, "host");
    }
    assert Weight(Own) == 100 && Weight(Ip) == 90 && Weight(OfNode) == 80 && Weight(InReport) == 50;
  }

  // --- Showings ----------------------------------------------------------------------------------

  /** Candidate i of sight n is this address, fit for use, under a key of this kind. */
  ghost predicate ShownAt(find: Finder, ks: seq<Sight>, n: nat, i: nat, kind: Kind, a: string) {
    && n < |ks| && ks[n].TextAt? && i < |find(ks[n].s)|
    && var c := find(ks[n].s)[i];
       && c.Address? && c.text == a
       && !c.loopback && !c.linkLocal && !c.multicast && !c.unspecified
       && IsKind(ks[n].path, kind)
  }

  /** Read earlier in the report. */
  predicate ReadBefore(p: (nat, nat), q: (nat, nat)) {
    p.0 < q.0 || (p.0 == q.0 && p.1 < q.1)
  }

  ghost predicate Shown(find: Finder, ks: seq<Sight>, a: string) {
    exists n: nat, i: nat, kind :: ShownAt(find, ks, n, i, kind, a)
  }

  /** This showing goes before that one: under a more trusted key, or equally trusted and read earlier. */
  predicate Beats(kind: Kind, p: (nat, nat), kind2: Kind, q: (nat, nat)) {
    MoreTrusted(kind, kind2) || (kind == kind2 && ReadBefore(p, q))
  }

  /** Some showing of the one address goes before every showing of the other. */
  ghost predicate Outranks(find: Finder, ks: seq<Sight>, a: string, b: string) {
    exists n: nat, i: nat, kind ::
      ShownAt(find, ks, n, i, kind, a)
      && forall m: nat, j: nat, kind2 :: ShownAt(find, ks, m, j, kind2, b) ==> Beats(kind, (n, i), kind2, (m, j))
  }

  /** The places of the recorded candidates of one text. */
  function Spots(cs: seq<Candidate>, path: seq<string>, n: nat, first: nat): seq<(nat, nat)> {
    if cs == [] then []
    else if Usable(cs[0]) && Priority(path).Some? then [(n, first)] + Spots(cs[1..], path, n, first + 1)
    else Spots(cs[1..], path, n, first + 1)
  }

  function Places(find: Finder, ks: seq<Sight>): seq<(nat, nat)> {
    if ks == [] then []
    else
      var n := |ks| - 1;
      Places(find, ks[..n]) + (if ks[n].TextAt? then Spots(find(ks[n].s), ks[n].path, n, 0) else [])
  }

  /** Match m was recorded for the candidate at this place. */
  ghost predicate Backs(find: Finder, ks: seq<Sight>, p: (nat, nat), m: Match) {
    && p.0 < |ks| && ks[p.0].TextAt? && p.1 < |find(ks[p.0].s)|
    && Usable(find(ks[p.0].s)[p.1]) && find(ks[p.0].s)[p.1].text == m.address
    && Priority(ks[p.0].path) == Some(m.priority)
  }

  ghost predicate InOrder(ps: seq<(nat, nat)>) {
    forall x, y :: 0 <= x < y < |ps| ==> ReadBefore(ps[x], ps[y])
  }

  /** Place x of the recorded ones is a usable candidate of this text, with its match. */
  ghost predicate SpotFits(cs: seq<Candidate>, path: seq<string>, n: nat, first: nat, p: (nat, nat), m: Match) {
    && p.0 == n && first <= p.1 < first + |cs|
    && Usable(cs[p.1 - first]) && cs[p.1 - first].text == m.address
    && Priority(path) == Some(m.priority)
  }

  predicate Listed(ps: seq<(nat, nat)>, p: (nat, nat)) {
    p in ps
  }

  /** The candidates of one text from one of them on, against what is recorded for them. */
  ghost predicate SpotsFit(cs: seq<Candidate>, path: seq<string>, n: nat, first: nat, ps: seq<(nat, nat)>,
                           ms: seq<Match>) {
    && |ps| == |ms| && InOrder(ps)
    && (forall x :: 0 <= x < |ps| ==> SpotFits(cs, path, n, first, ps[x], ms[x]))
    && (forall j: nat :: j < |cs| && Usable(cs[j]) && Priority(path).Some? ==> Listed(ps, (n, first + j)))
  }

  lemma {:induction false} SpotsFitRecord(cs: seq<Candidate>, path: seq<string>, n: nat, first: nat, start: nat)
    ensures SpotsFit(cs, path, n, first, Spots(cs, path, n, first), Record(cs, path, start))
    decreases |cs|
  {
    if cs != [] {
      if Usable(cs[0]) && Priority(path).Some? {
        SpotsFitRecord(cs[1..], path, n, first + 1, start + 1);
        SpotCounts(cs, path, n, first, Spots(cs[1..], path, n, first + 1), Record(cs[1..], path, start + 1), start);
      } else {
        SpotsFitRecord(cs[1..], path, n, first + 1, start);
        SpotIsSkipped(cs, path, n, first, Spots(cs[1..], path, n, first + 1), Record(cs[1..], path, start));
      }
    }
  }

  lemma SpotsShift(cs: seq<Candidate>, path: seq<string>, n: nat, first: nat, p: (nat, nat), m: Match)
    requires cs != [] && SpotFits(cs[1..], path, n, first + 1, p, m)
    ensures SpotFits(cs, path, n, first, p, m) && p.1 > first
  {
    assert cs[1..][p.1 - (first + 1)] == cs[p.1 - first];
  }

  lemma SpotIsSkipped(cs: seq<Candidate>, path: seq<string>, n: nat, first: nat, ps: seq<(nat, nat)>, ms: seq<Match>)
    requires cs != [] && SpotsFit(cs[1..], path, n, first + 1, ps, ms) && !(Usable(cs[0]) && Priority(path).Some?)
    ensures SpotsFit(cs, path, n, first, ps, ms)
  {
    forall x | 0 <= x < |ps| ensures SpotFits(cs, path, n, first, ps[x], ms[x]) {
      SpotsShift(cs, path, n, first, ps[x], ms[x]);
    }
    forall j: nat | j < |cs| && Usable(cs[j]) && Priority(path).Some? ensures Listed(ps, (n, first + j)) {
      assert cs[1..][j - 1] == cs[j] && Listed(ps, (n, first + 1 + (j - 1)));
    }
  }

  lemma SpotCounts(cs: seq<Candidate>, path: seq<string>, n: nat, first: nat, ps: seq<(nat, nat)>, ms: seq<Match>,
                   start: nat)
    requires cs != [] && SpotsFit(cs[1..], path, n, first + 1, ps, ms) && Usable(cs[0]) && Priority(path).Some?
    ensures SpotsFit(cs, path, n, first, [(n, first)] + ps, [Match(Priority(path).value, start, cs[0].text)] + ms)
  {
    var all, found := [(n, first)] + ps, [Match(Priority(path).value, start, cs[0].text)] + ms;
    forall x | 0 <= x < |ps| ensures SpotFits(cs, path, n, first, ps[x], ms[x]) && ReadBefore((n, first), ps[x]) {
      SpotsShift(cs, path, n, first, ps[x], ms[x]);
    }
    assert SpotFits(cs, path, n, first, all[0], found[0]);
    assert forall x :: 0 < x < |all| ==> all[x] == ps[x - 1] && found[x] == ms[x - 1];
    forall j: nat | j < |cs| && Usable(cs[j]) && Priority(path).Some? ensures Listed(all, (n, first + j)) {
      if j == 0 {
        assert all[0] == (n, first + j);
      } else {
        assert cs[1..][j - 1] == cs[j] && Listed(ps, (n, first + 1 + (j - 1)));
        ListedStays([(n, first)], ps, (n, first + j));
      }
    }
  }

  lemma ListedStays(a: seq<(nat, nat)>, b: seq<(nat, nat)>, p: (nat, nat))
    ensures Listed(a + b, p) <==> Listed(a, p) || Listed(b, p)
  {
  }

  /** Candidate i of sight n is recorded. */
  predicate Counts(find: Finder, ks: seq<Sight>, n: nat, i: nat) {
    && n < |ks| && ks[n].TextAt? && i < |find(ks[n].s)|
    && Usable(find(ks[n].s)[i]) && Priority(ks[n].path).Some?
  }

  /** Places and matches of the first sights correspond, in the order of reading. */
  ghost predicate PlacesFit(find: Finder, ks: seq<Sight>, ps: seq<(nat, nat)>, ms: seq<Match>) {
    && |ps| == |ms| && InOrder(ps)
    && (forall x :: 0 <= x < |ps| ==> Backs(find, ks, ps[x], ms[x]))
    && (forall n: nat, i: nat :: Counts(find, ks, n, i) ==> Listed(ps, (n, i)))
  }

  lemma {:induction false} PlacesFitCollect(find: Finder, ks: seq<Sight>)
    ensures PlacesFit(find, ks, Places(find, ks), Collect(Gaining(find), ks, 0))
    decreases |ks|
  {
    if ks != [] {
      var n := |ks| - 1;
      var front := ks[..n];
      PlacesFitCollect(find, front);
      var ps, ms := Places(find, front), Collect(Gaining(find), front, 0);
      if ks[n].TextAt? {
        var cs, path := find(ks[n].s), ks[n].path;
        SpotsFitRecord(cs, path, n, 0, |ms|);
        PlacesFitOneMore(find, ks, ps, ms, Spots(cs, path, n, 0), Record(cs, path, |ms|));
      } else {
        assert ps + [] == ps && ms + [] == ms;
        PlacesFitWithoutText(find, ks, ps, ms);
      }
    }
  }

  lemma PlacesFitWithoutText(find: Finder, ks: seq<Sight>, ps: seq<(nat, nat)>, ms: seq<Match>)
    requires ks != [] && !ks[|ks| - 1].TextAt? && PlacesFit(find, ks[..|ks| - 1], ps, ms)
    ensures PlacesFit(find, ks, ps, ms)
  {
    forall x | 0 <= x < |ps| ensures Backs(find, ks, ps[x], ms[x]) {
      assert Backs(find, ks[..|ks| - 1], ps[x], ms[x]);
    }
    forall k: nat, i: nat | Counts(find, ks, k, i) ensures Listed(ps, (k, i)) {
      assert Counts(find, ks[..|ks| - 1], k, i);
    }
  }

  lemma PlacesFitOneMore(find: Finder, ks: seq<Sight>, ps: seq<(nat, nat)>, ms: seq<Match>, qs: seq<(nat, nat)>,
                         ns: seq<Match>)
    requires ks != [] && ks[|ks| - 1].TextAt?
    requires PlacesFit(find, ks[..|ks| - 1], ps, ms)
    requires SpotsFit(find(ks[|ks| - 1].s), ks[|ks| - 1].path, |ks| - 1, 0, qs, ns)
    ensures PlacesFit(find, ks, ps + qs, ms + ns)
  {
    var all, found := ps + qs, ms + ns;
    forall x | 0 <= x < |all| ensures Backs(find, ks, all[x], found[x]) && (x < |ps| ==> all[x].0 < |ks| - 1) {
      if x < |ps| {
        assert Backs(find, ks[..|ks| - 1], ps[x], ms[x]);
      } else {
        assert SpotFits(find(ks[|ks| - 1].s), ks[|ks| - 1].path, |ks| - 1, 0, qs[x - |ps|], ns[x - |ps|]);
      }
    }
    forall x | 0 <= x < |qs| ensures qs[x].0 == |ks| - 1 {
      assert SpotFits(find(ks[|ks| - 1].s), ks[|ks| - 1].path, |ks| - 1, 0, qs[x], ns[x]);
    }
    PlacesStayInOrder(ps, qs, |ks| - 1);
    forall k: nat, i: nat | Counts(find, ks, k, i) ensures Listed(all, (k, i)) {
      CountedIsListed(find, ks, ps, ms, qs, ns, k, i);
    }
  }

  lemma PlacesStayInOrder(ps: seq<(nat, nat)>, qs: seq<(nat, nat)>, n: nat)
    requires InOrder(ps) && InOrder(qs)
    requires (forall x :: 0 <= x < |ps| ==> ps[x].0 < n) && (forall x :: 0 <= x < |qs| ==> qs[x].0 == n)
    ensures InOrder(ps + qs)
  {
  }

  lemma CountedIsListed(find: Finder, ks: seq<Sight>, ps: seq<(nat, nat)>, ms: seq<Match>, qs: seq<(nat, nat)>,
                        ns: seq<Match>, k: nat, i: nat)
    requires ks != [] && ks[|ks| - 1].TextAt? && Counts(find, ks, k, i)
    requires PlacesFit(find, ks[..|ks| - 1], ps, ms)
    requires SpotsFit(find(ks[|ks| - 1].s), ks[|ks| - 1].path, |ks| - 1, 0, qs, ns)
    ensures Listed(ps + qs, (k, i))
  {
    if k < |ks| - 1 {
      assert Counts(find, ks[..|ks| - 1], k, i);
    } else {
      assert Listed(qs, (|ks| - 1, 0 + i));
    }
    ListedStays(ps, qs, (k, i));
  }

  // --- The order of the result -------------------------------------------------------------------

  lemma ShownCounts(find: Finder, ks: seq<Sight>, n: nat, i: nat, kind: Kind, a: string)
    requires ShownAt(find, ks, n, i, kind, a)
    ensures Counts(find, ks, n, i) && Priority(ks[n].path) == Some(Weight(kind)) && find(ks[n].s)[i].text == a
  {
    PrioritiesTellKinds(ks[n].path, kind);
  }

  /** The place at which the match of a showing was made. */
  lemma ShowingIsBacked(find: Finder, ks: seq<Sight>, ps: seq<(nat, nat)>, ms: seq<Match>, n: nat, i: nat, kind: Kind,
                        a: string) returns (x: nat)
    requires PlacesFit(find, ks, ps, ms) && ShownAt(find, ks, n, i, kind, a)
    ensures x < |ms| && ps[x] == (n, i) && ms[x].address == a && ms[x].priority == Weight(kind)
  {
    ShownCounts(find, ks, n, i, kind, a);
    assert Listed(ps, (n, i));
    x :| 0 <= x < |ps| && ps[x] == (n, i);
    assert Backs(find, ks, ps[x], ms[x]);
  }

  lemma MatchShows(find: Finder, ks: seq<Sight>, ps: seq<(nat, nat)>, ms: seq<Match>, x: nat) returns (kind: Kind)
    requires PlacesFit(find, ks, ps, ms) && x < |ms|
    ensures ShownAt(find, ks, ps[x].0, ps[x].1, kind, ms[x].address) && ms[x].priority == Weight(kind)
  {
    assert Backs(find, ks, ps[x], ms[x]);
    PrioritiesTellKinds(ks[ps[x].0].path, Own);
    kind :| Priority(ks[ps[x].0].path) == Some(Weight(kind));
    PrioritiesTellKinds(ks[ps[x].0].path, kind);
  }

  /** Matches numbered by position: the better one was made under a more trusted key, or earlier under an equal one. */
  lemma BetterMatchBeats(ps: seq<(nat, nat)>, ms: seq<Match>, x: nat, y: nat, kind: Kind, kind2: Kind)
    requires |ps| == |ms| && InOrder(ps) && x < |ms| && y < |ms| && x == ms[x].sequence && y == ms[y].sequence
    requires ms[x].priority == Weight(kind) && ms[y].priority == Weight(kind2) && Precedes(ms[x], ms[y])
    ensures Beats(kind, ps[x], kind2, ps[y])
  {
  }

  /** The earliest of the most trusted showings of the whole report shows this address. */
  ghost predicate Leads(find: Finder, ks: seq<Sight>, a: string) {
    exists n: nat, i: nat, kind ::
      ShownAt(find, ks, n, i, kind, a)
      && forall m: nat, j: nat, kind2, b ::
           ShownAt(find, ks, m, j, kind2, b) ==> (m, j) == (n, i) || Beats(kind, (n, i), kind2, (m, j))
  }

  ghost predicate RankedByTrust(find: Finder, ks: seq<Sight>, r: seq<string>) {
    && (forall a :: a in r <==> Shown(find, ks, a))
    && (r != [] ==> Leads(find, ks, r[0]))
    && (forall i, j :: 0 <= i < j < |r| ==> r[i] != r[j] && Outranks(find, ks, r[i], r[j]))
  }

  lemma ListedIffShown(find: Finder, ks: seq<Sight>, ps: seq<(nat, nat)>, ms: seq<Match>, a: string)
    requires PlacesFit(find, ks, ps, ms)
    ensures (exists m :: m in ms && m.address == a) <==> Shown(find, ks, a)
  {
    if m :| m in ms && m.address == a {
      var x :| 0 <= x < |ms| && ms[x] == m;
      var kind := MatchShows(find, ks, ps, ms, x);
    }
    if n: nat, i: nat, kind :| ShownAt(find, ks, n, i, kind, a) {
      var x := ShowingIsBacked(find, ks, ps, ms, n, i, kind, a);
      assert ms[x] in ms;
    }
  }

  lemma BestOutranks(find: Finder, ks: seq<Sight>, ps: seq<(nat, nat)>, ms: seq<Match>, b: Match, c: Match,
                     a2: string)
    requires PlacesFit(find, ks, ps, ms) && (forall x :: 0 <= x < |ms| ==> ms[x].sequence == x)
    requires b in ms && BestOf(ms, a2, c) && Precedes(b, c)
    ensures Outranks(find, ks, b.address, a2)
  {
    var x: nat :| x < |ms| && ms[x] == b;
    var kind := MatchShows(find, ks, ps, ms, x);
    forall m: nat, j: nat, kind2 | ShownAt(find, ks, m, j, kind2, a2) ensures Beats(kind, ps[x], kind2, (m, j)) {
      var y := ShowingIsBacked(find, ks, ps, ms, m, j, kind2, a2);
      assert ms[y] in ms;
      BetterMatchBeats(ps, ms, x, y, kind, kind2);
    }
    assert ps[x] == (ps[x].0, ps[x].1);
  }

  lemma BestLeads(find: Finder, ks: seq<Sight>, ps: seq<(nat, nat)>, ms: seq<Match>, b: Match)
    requires PlacesFit(find, ks, ps, ms) && (forall x :: 0 <= x < |ms| ==> ms[x].sequence == x)
    requires b in ms && forall m :: m in ms ==> m == b || Precedes(b, m)
    ensures Leads(find, ks, b.address)
  {
    var x: nat :| x < |ms| && ms[x] == b;
    var kind := MatchShows(find, ks, ps, ms, x);
    forall m: nat, j: nat, kind2, a2 | ShownAt(find, ks, m, j, kind2, a2)
      ensures (m, j) == ps[x] || Beats(kind, ps[x], kind2, (m, j))
    {
      var y := ShowingIsBacked(find, ks, ps, ms, m, j, kind2, a2);
      assert ms[y] in ms;
      if y != x {
        BetterMatchBeats(ps, ms, x, y, kind, kind2);
      }
    }
    assert ps[x] == (ps[x].0, ps[x].1);
  }

  /** The texts of a report that the walk looks at. */
  ghost function Read(heap: Heap, payload: Value): seq<Sight> {
    var xs := Unfold(heap, payload, [], 0);
    Kept(xs, {}, |xs|)
  }

  /**
   Trust decides: the result lists exactly the usable addresses read under a trusted key, each once, and of any two
   the first one stands somewhere under a more trusted key than the second ever does, or earlier under an equal one.
   */
  lemma TrustDecides(heap: Heap, find: Finder, payload: Value)
    ensures RankedByTrust(find, Read(heap, payload), Ranked(Walk(heap, find, State([], {}), payload, [], 0).matches))
  {
    MatchesOfTexts(heap, find, payload);
    MatchesAreNumbered(heap, find, payload);
    MatchesAreRanked(find, Read(heap, payload), Walk(heap, find, State([], {}), payload, [], 0).matches);
  }

  lemma MatchesOfTexts(heap: Heap, find: Finder, payload: Value)
    ensures Walk(heap, find, State([], {}), payload, [], 0).matches == Collect(Gaining(find), Read(heap, payload), 0)
  {
    WalkRecordsWhatIsKept(heap, find, State([], {}), payload, [], 0);
  }

  lemma MatchesAreNumbered(heap: Heap, find: Finder, payload: Value)
    ensures var ms := Walk(heap, find, State([], {}), payload, [], 0).matches;
            forall x :: 0 <= x < |ms| ==> ms[x].sequence == x
  {
    WalkNumbers(heap, find, State([], {}), payload, [], 0);
    assert InPlace(Walk(heap, find, State([], {}), payload, [], 0));
  }

  lemma MatchesAreRanked(find: Finder, ks: seq<Sight>, ms: seq<Match>)
    requires ms == Collect(Gaining(find), ks, 0) && forall x :: 0 <= x < |ms| ==> ms[x].sequence == x
    ensures RankedByTrust(find, ks, Ranked(ms))
  {
    PlacesFitCollect(find, ks);
    RankingIsByBest(ms);
    if Ranked(ms) != [] {
      var b :| BestOf(ms, Ranked(ms)[0], b) && forall m :: m in ms ==> m == b || Precedes(b, m);
      BestLeads(find, ks, Places(find, ks), ms, b);
    }
    TrustRanks(find, ks, Places(find, ks), ms, Ranked(ms));
  }

  lemma TrustRanks(find: Finder, ks: seq<Sight>, ps: seq<(nat, nat)>, ms: seq<Match>, r: seq<string>)
    requires PlacesFit(find, ks, ps, ms) && (forall x :: 0 <= x < |ms| ==> ms[x].sequence == x) && OrderedByBest(ms, r)
    requires r != [] ==> Leads(find, ks, r[0])
    ensures RankedByTrust(find, ks, r)
  {
    forall a ensures a in r <==> Shown(find, ks, a) {
      ListedIffShown(find, ks, ps, ms, a);
    }
    forall i, j | 0 <= i < j < |r| ensures Outranks(find, ks, r[i], r[j]) {
      assert HasBest(ms, r[i]) && HasBest(ms, r[j]);
      var b :| BestOf(ms, r[i], b);
      var c :| BestOf(ms, r[j], c);
      BestOutranks(find, ks, ps, ms, b, c, r[j]);
    }
  }

  method ExtractRJobIps(heap: Heap, find: Finder, payload: Value) returns (ordered: seq<string>)
    ensures ordered == Ranked(Walk(heap, find, State([], {}), payload, [], 0).matches)
    ensures RankedByTrust(find, Read(heap, payload), ordered)
  {
    var extraction := new Extraction(heap, find);
    extraction.Visit(payload, [], 0);
    ordered := Rank(extraction.matches);
    TrustDecides(heap, find, payload);
  }

  // --- Where texts stand -------------------------------------------------------------------------

  ghost predicate Holds(entries: seq<(string, Value)>, keys: seq<string>, w: Value) {
    exists k :: 0 <= k < |entries| && entries[k].1 == w && keys == [entries[k].0]
  }

  /** One step down in a report: an entry, an item under its index, an attribute, a dump, or the public variables. */
  ghost predicate Part(node: Node, keys: seq<string>, w: Value) {
    match node
    case Dict(entries) => Holds(entries, keys, w)
    case Items(values) => exists k :: 0 <= k < |values| && values[k] == w && keys == [Text.NatText(k)]
    case Object(attributes, dump, fields) =>
      || Holds(attributes, keys, w)
      || (keys == [] && dump == Dumped(w))
      || (keys == [] && dump.NoDump? && fields.Some? && w == Temp(fields.value.0, Dict(Public(fields.value.1))))
  }

  ghost predicate PartOf(heap: Heap, v: Value, keys: seq<string>, w: Value) {
    match v
    case Ref(id) => id in heap && Part(heap[id], keys, w)
    case Temp(_, node) => Part(node, keys, w)
    case _ => false
  }

  /** The text stands at the end of a chain of parts, under the keys met on the way and no deeper than twelve steps. */
  ghost predicate Chain(heap: Heap, v: Value, path: seq<string>, depth: nat, x: Sight)
    decreases 13 - depth
  {
    depth <= 12
    && ((v.Str? && x == TextAt(v.s, path, depth))
        || exists keys, w :: PartOf(heap, v, keys, w) && Chain(heap, w, path + keys, depth + 1, x))
  }

  lemma NamedHolds(entries: seq<(string, Value)>, path: seq<string>, w: Value, p: seq<string>)
    ensures (w, p) in Named(entries, path) <==> exists keys :: Holds(entries, keys, w) && p == path + keys
  {
    var named := Named(entries, path);
    if (w, p) in named {
      var k :| 0 <= k < |named| && named[k] == (w, p);
      assert Holds(entries, [entries[k].0], w);
    }
    if keys :| Holds(entries, keys, w) && p == path + keys {
      var k :| 0 <= k < |entries| && entries[k].1 == w && keys == [entries[k].0];
      assert named[k] == (w, p);
    }
  }

  lemma InsideArePart(node: Node, path: seq<string>, w: Value, p: seq<string>)
    ensures (w, p) in Inside(node, path) <==> exists keys :: Part(node, keys, w) && p == path + keys
  {
    match node
    case Dict(entries) => NamedHolds(entries, path, w, p);
    case Items(values) =>
      var numbered := Inside(node, path);
      if (w, p) in numbered {
        var k :| 0 <= k < |numbered| && numbered[k] == (w, p);
        assert Part(node, [Text.NatText(k)], w);
      }
      if keys :| Part(node, keys, w) && p == path + keys {
        var k :| 0 <= k < |values| && values[k] == w && keys == [Text.NatText(k)];
        assert numbered[k] == (w, p);
      }
    case Object(attributes, dump, fields) => ObjectsArePart(node, path, w, p);
  }

  lemma ObjectsArePart(node: Node, path: seq<string>, w: Value, p: seq<string>)
    requires node.Object?
    ensures (w, p) in Inside(node, path) <==> exists keys :: Part(node, keys, w) && p == path + keys
  {
    NamedHolds(node.attributes, path, w, p);
    var own := if node.dump.Dumped? then [(node.dump.v, path)]
               else if node.dump.DumpRaises? || node.fields.None? then []
               else [(Temp(node.fields.value.0, Dict(Public(node.fields.value.1))), path)];
    assert Inside(node, path) == Named(node.attributes, path) + own;
    assert path + [] == path;
    if (w, p) in own {
      assert Part(node, [], w);
    }
    if (w, p) in Named(node.attributes, path) {
      var keys :| Holds(node.attributes, keys, w) && p == path + keys;
      assert Part(node, keys, w);
    }
    if keys :| Part(node, keys, w) && p == path + keys {
      assert Holds(node.attributes, keys, w) || own == [(w, path)];
    }
  }

  lemma {:induction false} UnfoldAllHolds(heap: Heap, vs: seq<(Value, seq<string>)>, depth: nat, x: Sight)
    ensures x in UnfoldAll(heap, vs, depth) <==>
            exists k :: 0 <= k < |vs| && x in Unfold(heap, vs[k].0, vs[k].1, depth)
    decreases |vs|
  {
    if vs != [] {
      UnfoldAllHolds(heap, vs[1..], depth, x);
      assert forall k :: 0 < k < |vs| ==> vs[k] == vs[1..][k - 1];
      if k :| 0 <= k < |vs[1..]| && x in Unfold(heap, vs[1..][k].0, vs[1..][k].1, depth) {
        assert vs[k + 1] == vs[1..][k];
      }
    }
  }

  lemma ChildrenArePart(heap: Heap, v: Value, path: seq<string>, w: Value, p: seq<string>)
    ensures (w, p) in Children(heap, v, path) <==> exists keys :: PartOf(heap, v, keys, w) && p == path + keys
  {
    if v.Ref? && v.id in heap {
      InsideArePart(heap[v.id], path, w, p);
    } else if v.Temp? {
      InsideArePart(v.node, path, w, p);
    }
  }

  /** A text stands below one of the children or at the end of a chain through one of the parts. */
  lemma DescentsAgree(heap: Heap, v: Value, path: seq<string>, depth: nat, x: Sight)
    requires depth < MAX_DEPTH + 1 && (v.Ref? || v.Temp?) && x.TextAt?
    requires forall c :: c in Children(heap, v, path) ==>
               (x in Unfold(heap, c.0, c.1, depth + 1) <==> Chain(heap, c.0, c.1, depth + 1, x))
    ensures x in UnfoldAll(heap, Children(heap, v, path), depth + 1) <==>
            exists keys, w :: PartOf(heap, v, keys, w) && Chain(heap, w, path + keys, depth + 1, x)
  {
    var children := Children(heap, v, path);
    UnfoldAllHolds(heap, children, depth + 1, x);
    if k :| 0 <= k < |children| && x in Unfold(heap, children[k].0, children[k].1, depth + 1) {
      assert children[k] in children;
      ChildrenArePart(heap, v, path, children[k].0, children[k].1);
    }
    if keys, w :| PartOf(heap, v, keys, w) && Chain(heap, w, path + keys, depth + 1, x) {
      ChildrenArePart(heap, v, path, w, path + keys);
      var k :| 0 <= k < |children| && children[k] == (w, path + keys);
    }
  }

  /** The unfolding holds exactly the texts at the ends of chains. */
  lemma {:induction false} TextsStandAtChains(heap: Heap, v: Value, path: seq<string>, depth: nat, x: Sight)
    requires x.TextAt?
    ensures x in Unfold(heap, v, path, depth) <==> Chain(heap, v, path, depth, x)
    decreases MAX_DEPTH + 1 - depth
  {
    if depth <= MAX_DEPTH && (v.Ref? || v.Temp?) {
      forall c | c in Children(heap, v, path)
        ensures x in Unfold(heap, c.0, c.1, depth + 1) <==> Chain(heap, c.0, c.1, depth + 1, x)
      {
        TextsStandAtChains(heap, c.0, c.1, depth + 1, x);
      }
      DescentsAgree(heap, v, path, depth, x);
      var inner := UnfoldAll(heap, Children(heap, v, path), depth + 1);
      assert Unfold(heap, v, path, depth) == [NodeAt(v.id, depth)] + inner;
    }
  }

  /** Public variables are those whose name does not begin with an underscore. */
  lemma {:induction false} PublicIsNotHidden(fields: seq<(string, Value)>, field: (string, Value))
    ensures field in Public(fields) <==> field in fields && !(field.0 != "" && field.0[0] == '_')
  {
    if fields != [] {
      PublicIsNotHidden(fields[1..], field);
      assert fields == [fields[0]] + fields[1..];
    }
  }
}
