/**
 Bracing the arguments of fractions and roots: cut at the marker, brace what follows, join.
 */
module Fracs {
  import opened Wrappers
  import opened Splits

  const FRAC := "\\frac"
  const SQRT := "\\sqrt"

  lemma MarkersAreProper()
    ensures Proper(FRAC) && Proper(SQRT)
  {
    assert FRAC[1..] == "frac" && SQRT[1..] == "sqrt";
  }

  // --- Fractions ---------------------------------------------------------------------------------

  /** What follows a marker: braced already, too short to brace, or two arguments to brace. */
  function BraceArguments(p: string): string
    requires p != "" && (p[0] == '{' || |p| >= 2)
  {
    if p[0] == '{' then p
    else if p[1] != '{' then "{" + [p[0]] + "}{" + [p[1]] + "}" + p[2..]
    else "{" + [p[0]] + "}" + p[1..]
  }

  datatype Rewrite = Raises | GivesUp | Rewritten(text: string)

  /** The pieces behind the first, in order: the first that is empty raises, the first lone one gives up. */
  function RewriteFracs(done: string, ps: seq<string>): Rewrite
    decreases |ps|
  {
    if ps == [] then Rewritten(done)
    else
      var p := ps[0];
      if p == "" then Raises
      else if p[0] != '{' && |p| < 2 then GivesUp
      else RewriteFracs(done + FRAC + BraceArguments(p), ps[1..])
  }

  /** None when the source raises. */
  function FixFracs(s: string): Option<string> {
    var ps := Split(s, FRAC);
    match RewriteFracs(ps[0], ps[1..])
    case Raises => None
    case GivesUp => Some(s)
    case Rewritten(t) => Some(t)
  }

  /** The loop of the source. */
  method FixFracsInPlace(s: string) returns (r: Option<string>)
    ensures r == FixFracs(s)
  {
    var ps := Split(s, FRAC);
    var text := ps[0];
    for n := 1 to |ps|
      invariant RewriteFracs(text, ps[n..]) == RewriteFracs(ps[0], ps[1..])
    {
      var p := ps[n];
      assert ps[n..][0] == p && ps[n..][1..] == ps[n + 1..];
      if p == "" {
        return None;
      }
      if p[0] == '{' {
        text := text + FRAC + p;
      } else {
        if |p| < 2 {
          return Some(s);
        }
        var a, b := p[0], p[1];
        if b != '{' {
          text := text + FRAC + ("{" + [a] + "}{" + [b] + "}" + p[2..]);
        } else {
          assert p[1..] == [b] + p[2..];
          assert "{" + [a] + "}" + p[1..] == "{" + [a] + "}" + [b] + p[2..];
          text := text + FRAC + ("{" + [a] + "}" + [b] + p[2..]);
        }
      }
    }
    return Some(text);
  }

  predicate Braceable(p: string) {
    p != "" && (p[0] == '{' || |p| >= 2)
  }

  predicate AllBraceable(ps: seq<string>) {
    forall i :: 0 <= i < |ps| ==> Braceable(ps[i])
  }

  function BraceAll(ps: seq<string>): (r: seq<string>)
    requires AllBraceable(ps)
    ensures |r| == |ps|
    ensures forall i :: 0 <= i < |ps| ==> r[i] == BraceArguments(ps[i])
  {
    seq(|ps|, i requires 0 <= i < |ps| => BraceArguments(ps[i]))
  }

  lemma {:induction false} RewriteIsJoin(done: string, ps: seq<string>)
    ensures RewriteFracs(done, ps).Rewritten? <==> AllBraceable(ps)
    ensures AllBraceable(ps) ==> RewriteFracs(done, ps) == Rewritten(Join([done] + BraceAll(ps), FRAC))
    decreases |ps|
  {
    if ps != [] {
      if Braceable(ps[0]) {
        var more := done + FRAC + BraceArguments(ps[0]);
        RewriteIsJoin(more, ps[1..]);
        assert AllBraceable(ps) <==> AllBraceable(ps[1..]) by {
          assert forall i :: 0 < i < |ps| ==> ps[i] == ps[1..][i - 1];
        }
        if AllBraceable(ps) {
          MergeFront(done, BraceAll(ps), FRAC);
          assert BraceAll(ps)[1..] == BraceAll(ps[1..]);
        }
      }
    }
  }

  lemma BracedStaysClean(p: string)
    requires Braceable(p) && Clean(p, FRAC)
    ensures Clean(BraceArguments(p), FRAC) && BraceArguments(p)[0] == '{'
  {
    if p[0] != '{' {
      CleanTail(p, FRAC);
      var a := p[0];
      if p[1] != '{' {
        CleanTail(p[1..], FRAC);
        assert p[1..][1..] == p[2..];
        var b := p[1];
        CleanWhenNotFrac('}', p[2..]);
        CleanWhenNotFrac(b, ['}'] + p[2..]);
        CleanWhenNotFrac('{', [b] + (['}'] + p[2..]));
        CleanWhenNotFrac('}', ['{'] + ([b] + (['}'] + p[2..])));
        CleanWhenNotFrac(a, ['}'] + (['{'] + ([b] + (['}'] + p[2..]))));
        CleanWhenNotFrac('{', [a] + (['}'] + (['{'] + ([b] + (['}'] + p[2..])))));
        assert BraceArguments(p) == ['{'] + ([a] + (['}'] + (['{'] + ([b] + (['}'] + p[2..])))));
      } else {
        CleanWhenNotFrac('}', p[1..]);
        CleanWhenNotFrac(a, ['}'] + p[1..]);
        CleanWhenNotFrac('{', [a] + (['}'] + p[1..]));
        assert BraceArguments(p) == ['{'] + ([a] + (['}'] + p[1..]));
      }
    }
  }

  /** No marker begins at a character other than the backslash, or just before a brace. */
  lemma CleanWhenNotFrac(c: char, s: string)
    requires Clean(s, FRAC) && (c == '{' || c == '}' || (s != "" && s[0] == '}'))
    ensures Clean([c] + s, FRAC)
  {
    assert |s| + 1 >= |FRAC| ==> ([c] + s)[..|FRAC|][0] == c && ([c] + s)[..|FRAC|][1] == s[0];
    CleanCons(c, s, FRAC);
  }

  /** Fixing is idempotent wherever it does not raise, and then every fraction is braced or the text unchanged. */
  lemma FixFracsIsIdempotent(s: string)
    ensures FixFracs(s).Some? ==> FixFracs(FixFracs(s).value) == FixFracs(s)
  {
    var ps := Split(s, FRAC);
    var tail := ps[1..];
    RewriteIsJoin(ps[0], tail);
    if AllBraceable(tail) {
      MarkersAreProper();
      PiecesAreClean(s, FRAC);
      FixedAgain(ps);
    }
  }

  lemma FixedPieces(ps: seq<string>)
    requires ps != [] && (forall p :: p in ps ==> Clean(p, FRAC)) && AllBraceable(ps[1..])
    ensures var qs := [ps[0]] + BraceAll(ps[1..]);
            && (forall q :: q in qs ==> Clean(q, FRAC))
            && (forall i :: 1 <= i < |qs| ==> Braceable(qs[i]) && qs[i][0] == '{')
  {
    forall i | 0 <= i < |ps| - 1
      ensures var q := BraceAll(ps[1..])[i]; Clean(q, FRAC) && Braceable(q) && q[0] == '{'
    {
      assert ps[1..][i] == ps[i + 1];
      BracedStaysClean(ps[i + 1]);
    }
  }

  lemma FixedAgain(ps: seq<string>)
    requires ps != [] && (forall p :: p in ps ==> Clean(p, FRAC)) && AllBraceable(ps[1..])
    ensures var t := Join([ps[0]] + BraceAll(ps[1..]), FRAC); FixFracs(t) == Some(t)
  {
    MarkersAreProper();
    FixedPieces(ps);
    var qs := [ps[0]] + BraceAll(ps[1..]);
    SplitOfJoin(qs, FRAC);
    RewriteIsJoin(qs[0], qs[1..]);
    assert BraceAll(qs[1..]) == qs[1..];
    assert qs == [qs[0]] + qs[1..];
  }

  function Bare(s: string): string {
    if s == "" then "" else (if s[0] == '{' || s[0] == '}' then "" else [s[0]]) + Bare(s[1..])
  }

  lemma {:induction false} BareOfConcat(a: string, b: string)
    ensures Bare(a + b) == Bare(a) + Bare(b)
  {
    if a == "" {
      assert a + b == b;
    } else {
      assert (a + b)[1..] == a[1..] + b;
      BareOfConcat(a[1..], b);
    }
  }

  lemma {:induction false} BareOfJoin(ps: seq<string>, qs: seq<string>, m: string)
    requires ps != [] && |ps| == |qs| && forall i :: 0 <= i < |ps| ==> Bare(ps[i]) == Bare(qs[i])
    ensures Bare(Join(ps, m)) == Bare(Join(qs, m))
  {
    if |ps| > 1 {
      BareOfJoin(ps[1..], qs[1..], m);
      BareOfConcat(ps[0] + m, Join(ps[1..], m));
      BareOfConcat(qs[0] + m, Join(qs[1..], m));
      BareOfConcat(ps[0], m);
      BareOfConcat(qs[0], m);
    }
  }

  lemma BareArguments(p: string)
    requires Braceable(p)
    ensures Bare(BraceArguments(p)) == Bare(p)
  {
    if p[0] != '{' {
      var a, b := [p[0]], [p[1]];
      assert p == a + p[1..];
      BareOfConcat(a, p[1..]);
      if p[1] != '{' {
        assert p[1..] == b + p[2..];
        BareOfConcat(b, p[2..]);
        var head := "{" + a + "}{" + b + "}";
        BareOfConcat(head, p[2..]);
        BareOfConcat("{" + a + "}{" + b, "}");
        BareOfConcat("{" + a + "}{", b);
        BareOfConcat("{" + a, "}{");
        BareOfConcat("{", a);
        assert Bare("}") == "" && Bare("{") == "" && Bare("}{") == "" by { assert "}{"[1..] == "{"; }
      } else {
        BareOfConcat("{" + a + "}", p[1..]);
        BareOfConcat("{" + a, "}");
        BareOfConcat("{", a);
      }
    }
  }

  /**
   Two brace groups begin the piece: as they stood, or around its first character and around its second one, which
   may have been braced before.
   */
  predicate Braced(before: string, after: string) {
    if before != "" && before[0] == '{' then after == before
    else
      && |before| >= 2 && |after| >= 4
      && after[0] == '{' && after[1] == before[0] && after[2] == '}' && after[3] == '{'
      && if before[1] == '{' then after[3..] == before[1..]
         else |after| >= 6 && after[4] == before[1] && after[5] == '}' && after[6..] == before[2..]
  }

  /** The first piece behind a marker that cannot be braced. */
  predicate FirstMisfit(ps: seq<string>, i: nat) {
    1 <= i < |ps| && !Braceable(ps[i]) && forall j :: 1 <= j < i ==> Braceable(ps[j])
  }

  lemma {:induction false} MisfitStops(done: string, ps: seq<string>, i: nat)
    requires i < |ps| && !Braceable(ps[i]) && forall j :: 0 <= j < i ==> Braceable(ps[j])
    ensures RewriteFracs(done, ps) == if ps[i] == "" then Raises else GivesUp
    decreases |ps|
  {
    if i > 0 {
      MisfitStops(done + FRAC + BraceArguments(ps[0]), ps[1..], i - 1);
    }
  }

  /** The first fraction that lacks an argument decides: with nothing behind it raises, with one character gives up. */
  lemma MisfitDecides(s: string, i: nat)
    requires FirstMisfit(Split(s, FRAC), i)
    ensures FixFracs(s) == if Split(s, FRAC)[i] == "" then None else Some(s)
  {
    var ps := Split(s, FRAC);
    assert forall j :: 0 <= j < |ps| - 1 ==> ps[1..][j] == ps[j + 1];
    MisfitStops(ps[0], ps[1..], i - 1);
  }

  lemma PiecesOfFixed(s: string)
    requires AllBraceable(Split(s, FRAC)[1..])
    ensures var ps := Split(s, FRAC);
            var qs := [ps[0]] + BraceAll(ps[1..]);
            FixFracs(s) == Some(Join(qs, FRAC)) && Split(Join(qs, FRAC), FRAC) == qs
  {
    var ps := Split(s, FRAC);
    MarkersAreProper();
    PiecesAreClean(s, FRAC);
    RewriteIsJoin(ps[0], ps[1..]);
    FixedPieces(ps);
    SplitOfJoin([ps[0]] + BraceAll(ps[1..]), FRAC);
  }

  lemma PiecesAreBraced(ps: seq<string>, i: nat)
    requires ps != [] && AllBraceable(ps[1..]) && i < |ps|
    ensures var q := ([ps[0]] + BraceAll(ps[1..]))[i];
            Bare(ps[i]) == Bare(q) && (i >= 1 ==> Braced(ps[i], q))
  {
    if i >= 1 {
      assert ps[i] == ps[1..][i - 1];
      BareArguments(ps[i]);
      ArgumentsAreBraced(ps[i]);
    }
  }

  lemma ArgumentsAreBraced(p: string)
    requires Braceable(p)
    ensures Braced(p, BraceArguments(p))
  {
    var q := BraceArguments(p);
    if p[0] != '{' {
      if p[1] == '{' {
        assert q[3..] == p[1..];
      } else {
        assert q[6..] == p[2..];
      }
    }
  }

  /**
   A fixed text differs from the original in braces only; cut at its markers it has the same number
   of pieces, each of them braced.
   */
  lemma FixingOnlyAddsBraces(s: string)
    requires AllBraceable(Split(s, FRAC)[1..])
    ensures FixFracs(s).Some?
    ensures var t := FixFracs(s).value;
            && Bare(t) == Bare(s)
            && |Split(t, FRAC)| == |Split(s, FRAC)| && Split(t, FRAC)[0] == Split(s, FRAC)[0]
            && forall i :: 1 <= i < |Split(s, FRAC)| ==> Braced(Split(s, FRAC)[i], Split(t, FRAC)[i])
  {
    var ps := Split(s, FRAC);
    var qs := [ps[0]] + BraceAll(ps[1..]);
    PiecesOfFixed(s);
    JoinOfSplit(s, FRAC);
    forall i | 0 <= i < |ps| ensures Bare(ps[i]) == Bare(qs[i]) && (i >= 1 ==> Braced(ps[i], qs[i])) {
      PiecesAreBraced(ps, i);
    }
    BareOfJoin(ps, qs, FRAC);
  }

  // --- Roots -------------------------------------------------------------------------------------

  function BraceRoot(p: string): string
    requires p != ""
  {
    if p[0] != '{' then "{" + [p[0]] + "}" + p[1..] else p
  }

  /** None when some piece is empty: the source raises. */
  function RewriteSqrts(done: string, ps: seq<string>): Option<string>
    decreases |ps|
  {
    if ps == [] then Some(done)
    else if ps[0] == "" then None
    else RewriteSqrts(done + SQRT + BraceRoot(ps[0]), ps[1..])
  }

  function FixSqrt(s: string): Option<string> {
    var ps := Split(s, SQRT);
    RewriteSqrts(ps[0], ps[1..])
  }

  method FixSqrtInPlace(s: string) returns (r: Option<string>)
    ensures r == FixSqrt(s)
  {
    var ps := Split(s, SQRT);
    var text := ps[0];
    for n := 1 to |ps|
      invariant RewriteSqrts(text, ps[n..]) == RewriteSqrts(ps[0], ps[1..])
    {
      var p := ps[n];
      assert ps[n..][0] == p && ps[n..][1..] == ps[n + 1..];
      if p == "" {
        return None;
      }
      if p[0] != '{' {
        text := text + SQRT + ("{" + [p[0]] + "}" + p[1..]);
      } else {
        text := text + SQRT + p;
      }
    }
    return Some(text);
  }

  predicate NoneEmpty(ps: seq<string>) {
    forall i :: 0 <= i < |ps| ==> ps[i] != ""
  }

  function BraceRoots(ps: seq<string>): (r: seq<string>)
    requires NoneEmpty(ps)
    ensures |r| == |ps|
    ensures forall i :: 0 <= i < |ps| ==> r[i] == BraceRoot(ps[i])
  {
    seq(|ps|, i requires 0 <= i < |ps| => BraceRoot(ps[i]))
  }

  lemma {:induction false} RootsAreJoined(done: string, ps: seq<string>)
    ensures RewriteSqrts(done, ps) == if NoneEmpty(ps) then Some(Join([done] + BraceRoots(ps), SQRT)) else None
    decreases |ps|
  {
    if ps != [] && ps[0] != "" {
      RootsAreJoined(done + SQRT + BraceRoot(ps[0]), ps[1..]);
      assert NoneEmpty(ps) <==> NoneEmpty(ps[1..]) by {
        assert forall i :: 0 < i < |ps| ==> ps[i] == ps[1..][i - 1];
      }
      if NoneEmpty(ps) {
        MergeFront(done, BraceRoots(ps), SQRT);
        assert BraceRoots(ps)[1..] == BraceRoots(ps[1..]);
      }
    }
  }

  lemma CleanWhenNotSqrt(c: char, s: string)
    requires Clean(s, SQRT) && (c == '{' || c == '}' || (s != "" && s[0] == '}'))
    ensures Clean([c] + s, SQRT)
  {
    assert |s| + 1 >= |SQRT| ==> ([c] + s)[..|SQRT|][0] == c && ([c] + s)[..|SQRT|][1] == s[0];
    CleanCons(c, s, SQRT);
  }

  lemma RootStaysClean(p: string)
    requires p != "" && Clean(p, SQRT)
    ensures Clean(BraceRoot(p), SQRT) && BraceRoot(p)[0] == '{'
  {
    if p[0] != '{' {
      CleanTail(p, SQRT);
      CleanWhenNotSqrt('}', p[1..]);
      CleanWhenNotSqrt(p[0], ['}'] + p[1..]);
      CleanWhenNotSqrt('{', [p[0]] + (['}'] + p[1..]));
      assert BraceRoot(p) == ['{'] + ([p[0]] + (['}'] + p[1..]));
    }
  }

  lemma RootPieces(s: string)
    requires NoneEmpty(Split(s, SQRT)[1..])
    ensures var ps := Split(s, SQRT);
            var qs := [ps[0]] + BraceRoots(ps[1..]);
            && FixSqrt(s) == Some(Join(qs, SQRT)) && Split(Join(qs, SQRT), SQRT) == qs
            && forall i :: 1 <= i < |qs| ==> qs[i] != "" && qs[i][0] == '{'
  {
    var ps := Split(s, SQRT);
    MarkersAreProper();
    PiecesAreClean(s, SQRT);
    RootsAreJoined(ps[0], ps[1..]);
    var qs := [ps[0]] + BraceRoots(ps[1..]);
    forall i | 0 <= i < |ps| - 1 ensures var q := BraceRoots(ps[1..])[i]; Clean(q, SQRT) && q != "" && q[0] == '{' {
      assert ps[1..][i] == ps[i + 1];
      RootStaysClean(ps[i + 1]);
    }
    SplitOfJoin(qs, SQRT);
  }

  /** Fixing roots is idempotent wherever it does not raise. */
  lemma FixSqrtIsIdempotent(s: string)
    ensures FixSqrt(s).Some? ==> FixSqrt(FixSqrt(s).value) == FixSqrt(s)
  {
    var ps := Split(s, SQRT);
    RootsAreJoined(ps[0], ps[1..]);
    if NoneEmpty(ps[1..]) {
      RootPieces(s);
      var qs := [ps[0]] + BraceRoots(ps[1..]);
      RootsAreJoined(qs[0], qs[1..]);
      assert BraceRoots(qs[1..]) == qs[1..];
      assert qs == [qs[0]] + qs[1..];
    }
  }

  /** A root as it stood when it was braced before, or else with its first character braced. */
  predicate RootBraced(before: string, after: string) {
    if before != "" && before[0] == '{' then after == before
    else
      && before != "" && |after| == |before| + 2
      && after[0] == '{' && after[1] == before[0] && after[2] == '}' && after[3..] == before[1..]
  }

  lemma RootIsBraced(p: string)
    requires p != ""
    ensures RootBraced(p, BraceRoot(p)) && Bare(BraceRoot(p)) == Bare(p)
  {
    var q := BraceRoot(p);
    if p[0] != '{' {
      assert q[3..] == p[1..];
      var a := [p[0]];
      assert p == a + p[1..];
      BareOfConcat(a, p[1..]);
      BareOfConcat("{" + a + "}", p[1..]);
      BareOfConcat("{" + a, "}");
      BareOfConcat("{", a);
      assert Bare("}") == "" && Bare("{") == "";
    }
  }

  /**
   Fixing roots raises exactly when a text ends with a root or has one just behind another; else it differs from
   the original in braces only, and every root is braced.
   */
  lemma FixingRootsOnlyAddsBraces(s: string)
    ensures FixSqrt(s).Some? <==> NoneEmpty(Split(s, SQRT)[1..])
    ensures FixSqrt(s).Some? ==>
              var t := FixSqrt(s).value;
              && Bare(t) == Bare(s)
              && |Split(t, SQRT)| == |Split(s, SQRT)| && Split(t, SQRT)[0] == Split(s, SQRT)[0]
              && forall i :: 1 <= i < |Split(s, SQRT)| ==> RootBraced(Split(s, SQRT)[i], Split(t, SQRT)[i])
  {
    var ps := Split(s, SQRT);
    RootsAreJoined(ps[0], ps[1..]);
    if NoneEmpty(ps[1..]) {
      RootPieces(s);
      JoinOfSplit(s, SQRT);
      var qs := [ps[0]] + BraceRoots(ps[1..]);
      forall i | 0 <= i < |ps| ensures Bare(ps[i]) == Bare(qs[i]) && (i >= 1 ==> RootBraced(ps[i], qs[i])) {
        if i >= 1 {
          assert ps[i] == ps[1..][i - 1];
          RootIsBraced(ps[i]);
        }
      }
      BareOfJoin(ps, qs, SQRT);
    }
  }
}
