/**
 Cutting a text at a marker and joining it again, for markers whose first character does not recur.
 */
module Splits {

  predicate Proper(m: string) {
    m != "" && m[0] !in m[1..]
  }

  predicate StartsWith(s: string, m: string) {
    |m| <= |s| && s[..|m|] == m
  }

  /** str.split: cut at every occurrence, from the left. */
  function Split(s: string, m: string): (r: seq<string>)
    requires m != ""
    ensures r != []
  {
    if s == "" then [""]
    else if StartsWith(s, m) then [""] + Split(s[|m|..], m)
    else
      var rest := Split(s[1..], m);
      [[s[0]] + rest[0]] + rest[1..]
  }

  function Join(ps: seq<string>, m: string): string
    requires ps != []
  {
    if |ps| == 1 then ps[0] else ps[0] + m + Join(ps[1..], m)
  }

  /** The marker does not occur. */
  ghost predicate Clean(s: string, m: string) {
    forall k :: 0 <= k <= |s| ==> !StartsWith(s[k..], m)
  }

  lemma JoinPrepend(c: char, ps: seq<string>, m: string)
    requires ps != []
    ensures Join([[c] + ps[0]] + ps[1..], m) == [c] + Join(ps, m)
  {
    var all := [[c] + ps[0]] + ps[1..];
    assert all[1..] == ps[1..];
    if |ps| > 1 {
      var rest := Join(ps[1..], m);
      assert [c] + (ps[0] + m + rest) == ([c] + ps[0]) + m + rest;
    }
  }

  lemma {:induction false} JoinOfSplit(s: string, m: string)
    requires m != ""
    ensures Join(Split(s, m), m) == s
  {
    if s == "" {
    } else if StartsWith(s, m) {
      var rest := Split(s[|m|..], m);
      JoinOfSplit(s[|m|..], m);
      assert ([""] + rest)[1..] == rest;
      assert s == "" + m + s[|m|..];
    } else {
      JoinOfSplit(s[1..], m);
      JoinPrepend(s[0], Split(s[1..], m), m);
      assert s == [s[0]] + s[1..];
    }
  }

  lemma CleanTail(s: string, m: string)
    requires s != "" && Clean(s, m)
    ensures Clean(s[1..], m)
  {
    forall k | 0 <= k <= |s| - 1 ensures !StartsWith(s[1..][k..], m) {
      assert s[1..][k..] == s[k + 1..];
    }
  }

  lemma CleanCons(c: char, s: string, m: string)
    requires Clean(s, m) && !StartsWith([c] + s, m)
    ensures Clean([c] + s, m)
  {
    var t := [c] + s;
    forall k | 0 <= k <= |t| ensures !StartsWith(t[k..], m) {
      if k > 0 {
        assert t[k..] == s[k - 1..];
      } else {
        assert t[k..] == t;
      }
    }
  }

  /** A marker cannot begin in a clean text and end in a marker behind it. */
  lemma NoStraddle(p: string, m: string, t: string)
    requires Proper(m) && p != "" && Clean(p, m)
    ensures !StartsWith(p + m + t, m)
  {
    var s := p + m + t;
    if |m| <= |p| {
      assert s[..|m|] == p[0..][..|m|];
      assert !StartsWith(p[0..], m);
    } else {
      assert s[..|m|][|p|] == s[|p|] == m[0];
      assert m[|p|] == m[1..][|p| - 1];
    }
  }

  lemma {:induction false} SplitOfJoin(ps: seq<string>, m: string)
    requires ps != [] && Proper(m) && forall p :: p in ps ==> Clean(p, m)
    ensures Split(Join(ps, m), m) == ps
    decreases |ps|, |ps[0]|
  {
    var p := ps[0];
    if |ps| == 1 {
      assert ps == [p];
      SplitClean(p, m);
    } else {
      var t := Join(ps[1..], m);
      var s := p + m + t;
      if p == "" {
        SplitOfJoin(ps[1..], m);
        assert s[..|m|] == m && s[|m|..] == t;
        assert ps == [""] + ps[1..];
      } else {
        NoStraddle(p, m, t);
        CleanTail(p, m);
        var less := [p[1..]] + ps[1..];
        assert less[1..] == ps[1..];
        SplitOfJoin(less, m);
        assert s[1..] == p[1..] + m + t == Join(less, m);
        assert [p[0]] + p[1..] == p;
        assert ps == [p] + ps[1..];
      }
    }
  }

  lemma {:induction false} SplitClean(s: string, m: string)
    requires m != "" && Clean(s, m)
    ensures Split(s, m) == [s]
  {
    if s != "" {
      assert s[0..] == s;
      CleanTail(s, m);
      SplitClean(s[1..], m);
      assert s == [s[0]] + s[1..];
    }
  }

  lemma {:induction false} PiecesAreClean(s: string, m: string)
    requires Proper(m)
    ensures forall p :: p in Split(s, m) ==> Clean(p, m)
  {
    if s == "" {
    } else if StartsWith(s, m) {
      PiecesAreClean(s[|m|..], m);
    } else {
      PiecesAreClean(s[1..], m);
      var rest := Split(s[1..], m);
      assert rest[0] in rest;
      HeadStaysClean(s, m);
      forall p | p in Split(s, m) ensures Clean(p, m) {
        if p != [s[0]] + rest[0] {
          assert p in rest;
        }
      }
    }
  }

  lemma HeadStaysClean(s: string, m: string)
    requires Proper(m) && s != "" && !StartsWith(s, m) && Clean(Split(s[1..], m)[0], m)
    ensures Clean([s[0]] + Split(s[1..], m)[0], m)
  {
    var rest := Split(s[1..], m);
    JoinOfSplit(s[1..], m);
    var head := rest[0];
    assert StartsWith(s[1..], head);
    assert |m| <= |head| + 1 ==> s[..|m|] == ([s[0]] + head)[..|m|];
    CleanCons(s[0], head, m);
  }

  lemma Regroup(a: string, m: string, b: string, t: string)
    ensures a + m + (b + m + t) == (a + m + b) + m + t
  {
  }

  /** Joining may take the first two pieces together. */
  lemma MergeFront(a: string, qs: seq<string>, m: string)
    requires qs != []
    ensures Join([a] + qs, m) == Join([a + m + qs[0]] + qs[1..], m)
  {
    var front := [a] + qs;
    var merged := [a + m + qs[0]] + qs[1..];
    assert front[1..] == qs && merged[1..] == qs[1..];
    if |qs| > 1 {
      Regroup(a, m, qs[0], Join(qs[1..], m));
    }
  }
}
