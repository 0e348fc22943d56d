/**
 Stripping the thousands separators of numerals: one regular-expression pass, repeated to a
 fixpoint.  The digit test is a parameter, since the pattern accepts every Unicode digit.
 */
module Commas {
  import opened Wrappers

  /** The pattern matches here: digit, comma, three digits, then the end or a non-digit. */
  predicate MatchAt(d: char -> bool, s: string, i: nat) {
    && i + 5 <= |s|
    && d(s[i]) && s[i + 1] == ',' && d(s[i + 2]) && d(s[i + 3]) && d(s[i + 4])
    && (i + 5 < |s| ==> !d(s[i + 5]))
  }

  /** One pass: matches from the left, each consuming its boundary character too, lose their comma. */
  function Pass(d: char -> bool, s: string): string {
    if s == "" then ""
    else if MatchAt(d, s, 0) then
      [s[0]] + s[2..5] + (if |s| > 5 then [s[5]] + Pass(d, s[6..]) else "")
    else [s[0]] + Pass(d, s[1..])
  }

  predicate NoMatch(d: char -> bool, s: string) {
    forall i :: 0 <= i < |s| ==> !MatchAt(d, s, i)
  }

  lemma {:induction false} PassShrinks(d: char -> bool, s: string)
    ensures |Pass(d, s)| <= |s|
    ensures Pass(d, s) == s <==> NoMatch(d, s)
    ensures |Pass(d, s)| == |s| <==> NoMatch(d, s)
  {
    if s == "" {
    } else if MatchAt(d, s, 0) {
      if |s| > 5 {
        PassShrinks(d, s[6..]);
      }
    } else {
      PassShrinks(d, s[1..]);
      assert s == [s[0]] + s[1..];
      assert Pass(d, s) == s ==> Pass(d, s)[1..] == s[1..];
      forall i | 0 < i < |s| ensures MatchAt(d, s, i) == MatchAt(d, s[1..], i - 1) {
      }
      assert NoMatch(d, s) ==> NoMatch(d, s[1..]) by {
        forall i | 0 <= i < |s[1..]| && NoMatch(d, s) ensures !MatchAt(d, s[1..], i) {
          assert MatchAt(d, s, i + 1) == MatchAt(d, s[1..], i + 1 - 1);
        }
      }
    }
  }

  function StripCommas(d: char -> bool, s: string): string
    decreases |s|
  {
    PassShrinks(d, s);
    if Pass(d, s) == s then s else StripCommas(d, Pass(d, s))
  }

  method StripProperlyFormattedCommas(d: char -> bool, s: string) returns (r: string)
    ensures r == StripCommas(d, s)
  {
    r := s;
    while true
      invariant StripCommas(d, r) == StripCommas(d, s)
      decreases |r|
    {
      PassShrinks(d, r);
      var next := Pass(d, r);
      if next == r {
        break;
      }
      r := next;
    }
  }

  // --- Only commas go ----------------------------------------------------------------------------

  /** t is s with some commas deleted. */
  predicate DropsCommas(s: string, t: string) {
    || (s == "" && t == "")
    || (s != "" && s[0] == ',' && DropsCommas(s[1..], t))
    || (s != "" && t != "" && s[0] == t[0] && DropsCommas(s[1..], t[1..]))
  }

  lemma {:induction false} DropsNothing(s: string)
    ensures DropsCommas(s, s)
  {
    if s != "" {
      DropsNothing(s[1..]);
    }
  }

  lemma {:induction false} DropsBehind(a: string, s: string, t: string)
    requires DropsCommas(s, t)
    ensures DropsCommas(a + s, a + t)
  {
    if a == "" {
      assert a + s == s && a + t == t;
    } else {
      DropsBehind(a[1..], s, t);
      assert (a + s)[1..] == a[1..] + s && (a + t)[1..] == a[1..] + t;
    }
  }

  lemma {:induction false} DropsTransitive(a: string, b: string, c: string)
    requires DropsCommas(a, b) && DropsCommas(b, c)
    ensures DropsCommas(a, c)
    decreases |a| + |b|
  {
    if a != "" {
      if a[0] == ',' && DropsCommas(a[1..], b) {
        DropsTransitive(a[1..], b, c);
      } else if b[0] == ',' && DropsCommas(b[1..], c) {
        DropsTransitive(a[1..], b[1..], c);
      } else {
        DropsTransitive(a[1..], b[1..], c[1..]);
      }
    }
  }

  lemma {:induction false} PassDropsCommas(d: char -> bool, s: string)
    ensures DropsCommas(s, Pass(d, s))
  {
    if s == "" {
    } else if MatchAt(d, s, 0) {
      var tail := s[5..];
      var done := if |s| > 5 then [s[5]] + Pass(d, s[6..]) else "";
      if |s| > 5 {
        PassDropsCommas(d, s[6..]);
        DropsBehind([s[5]], s[6..], Pass(d, s[6..]));
        assert tail == [s[5]] + s[6..];
      }
      DropsBehind(s[2..5], tail, done);
      assert s[2..5] + tail == s[2..];
      assert s[1..][1..] == s[2..];
      assert DropsCommas(s[1..], s[2..5] + done);
      DropsBehind([s[0]], s[1..], s[2..5] + done);
      assert [s[0]] + s[1..] == s;
      assert [s[0]] + (s[2..5] + done) == Pass(d, s);
    } else {
      PassDropsCommas(d, s[1..]);
    }
  }

  /** Stripping only deletes commas, leaves no match, and is idempotent. */
  lemma {:induction false} StrippedIsClean(d: char -> bool, s: string)
    ensures var r := StripCommas(d, s);
            DropsCommas(s, r) && NoMatch(d, r) && StripCommas(d, r) == r
    decreases |s|
  {
    PassShrinks(d, s);
    if Pass(d, s) == s {
      DropsNothing(s);
    } else {
      StrippedIsClean(d, Pass(d, s));
      PassDropsCommas(d, s);
      DropsTransitive(s, Pass(d, s), StripCommas(d, s));
    }
  }

  // --- Numerals ----------------------------------------------------------------------------------

  predicate AllDigits(d: char -> bool, s: string) {
    forall c :: c in s ==> d(c)
  }

  /** One to three digits, then groups of three. */
  predicate Groups(d: char -> bool, gs: seq<string>) {
    && gs != [] && 1 <= |gs[0]| <= 3
    && (forall i :: 0 <= i < |gs| ==> AllDigits(d, gs[i]))
    && (forall i :: 1 <= i < |gs| ==> |gs[i]| == 3)
  }

  function Numeral(gs: seq<string>): string
    requires gs != []
  {
    if |gs| == 1 then gs[0] else gs[0] + "," + Numeral(gs[1..])
  }

  /** A comma with more than three digits behind it. */
  predicate StuckAt(d: char -> bool, s: string, c: nat) {
    c + 5 <= |s| && s[c] == ',' && d(s[c + 1]) && d(s[c + 2]) && d(s[c + 3]) && d(s[c + 4])
  }

  /** Digits followed by a digit pass unchanged. */
  lemma {:induction false} DigitsPass(d: char -> bool, a: string, t: string)
    requires AllDigits(d, a) && !d(',') && t != "" && d(t[0])
    ensures Pass(d, a + t) == a + Pass(d, t)
  {
    if a == "" {
      assert a + t == t;
    } else {
      DigitsPass(d, a[1..], t);
      DigitPasses(d, a[0], a[1..] + t);
      HeadFirst(a, t);
      HeadFirst(a, Pass(d, t));
    }
  }

  lemma HeadFirst(a: string, t: string)
    requires a != ""
    ensures a + t == [a[0]] + (a[1..] + t)
  {
  }

  lemma DigitPasses(d: char -> bool, c: char, t: string)
    requires !d(',') && t != "" && d(t[0])
    ensures Pass(d, [c] + t) == [c] + Pass(d, t)
  {
    var s := [c] + t;
    assert s[1..] == t && s[1] == t[0] && !MatchAt(d, s, 0);
  }

  /** One group joined: the digits, their comma, three digits, and the character behind. */
  lemma GroupPasses(d: char -> bool, a: string, g: string, t: string)
    requires !d(',') && a != "" && AllDigits(d, a) && AllDigits(d, g) && |g| == 3 && (t != "" ==> !d(t[0]))
    ensures Pass(d, a + "," + g + t) == a + g + (if t == "" then "" else [t[0]] + Pass(d, t[1..]))
  {
    var n := |a| - 1;
    var s := [a[n]] + "," + g + t;
    assert a == a[..n] + [a[n]];
    assert a + "," + g + t == a[..n] + s;
    DigitsPass(d, a[..n], s);
    assert MatchAt(d, s, 0);
    assert s[2..5] == g;
    assert t != "" ==> s[5] == t[0] && s[6..] == t[1..];
  }

  lemma {:induction false} PlainPasses(d: char -> bool, s: string)
    requires ',' !in s
    ensures Pass(d, s) == s && StripCommas(d, s) == s
  {
    PassShrinks(d, s);
  }

  lemma {:induction false} StuckSurvivesPass(d: char -> bool, s: string, c: nat) returns (k: nat)
    requires !d(',') && StuckAt(d, s, c)
    ensures StuckAt(d, Pass(d, s), k)
  {
    if c == 0 {
      DigitsSurvive(d, s[1..], 4);
      k := 0;
    } else if MatchAt(d, s, 0) {
      if c == 5 {
        DigitsSurvive(d, s[6..], 4);
        k := 4;
      } else {
        k := StuckSurvivesPass(d, s[6..], c - 6);
        k := k + 5;
      }
    } else {
      k := StuckSurvivesPass(d, s[1..], c - 1);
      k := k + 1;
    }
  }

  /** Leading digits are still leading digits after a pass. */
  lemma {:induction false} DigitsSurvive(d: char -> bool, s: string, n: nat)
    requires !d(',') && n <= |s| && forall i :: 0 <= i < n ==> d(s[i])
    ensures n <= |Pass(d, s)| && forall i :: 0 <= i < n ==> d(Pass(d, s)[i])
  {
    if n > 0 {
      if MatchAt(d, s, 0) {
        assert n == 1;
      } else {
        DigitsSurvive(d, s[1..], n - 1);
      }
    }
  }

  /** A stuck comma is never stripped. */
  lemma {:induction false} StuckStays(d: char -> bool, s: string, c: nat)
    requires !d(',') && StuckAt(d, s, c)
    ensures ',' in StripCommas(d, s)
    decreases |s|
  {
    PassShrinks(d, s);
    if Pass(d, s) != s {
      var k := StuckSurvivesPass(d, s, c);
      StuckStays(d, Pass(d, s), k);
    }
  }

  function Concat(gs: seq<string>): string {
    if gs == [] then "" else gs[0] + Concat(gs[1..])
  }

  lemma OnePass(d: char -> bool, s: string, t: string)
    requires Pass(d, s) == t && s != t
    ensures StripCommas(d, s) == StripCommas(d, t)
  {
    PassShrinks(d, s);
  }

  lemma TwoGroups(d: char -> bool, a: string, g: string)
    requires !d(',') && a != "" && AllDigits(d, a) && AllDigits(d, g) && |g| == 3
    ensures StripCommas(d, a + "," + g) == a + g && ',' !in a + g
  {
    GroupPasses(d, a, g, "");
    assert a + "," + g + "" == a + "," + g;
    PlainPasses(d, a + g);
    OnePass(d, a + "," + g, a + g);
  }

  /** A group followed by a further comma: that comma is the boundary character, and is skipped. */
  lemma GroupBeforeComma(d: char -> bool, a: string, g: string, rest: string)
    requires !d(',') && a != "" && AllDigits(d, a) && AllDigits(d, g) && |g| == 3
    ensures Pass(d, a + "," + g + ("," + rest)) == (a + g) + "," + Pass(d, rest)
  {
    var t := "," + rest;
    GroupPasses(d, a, g, t);
    assert t[1..] == rest && [t[0]] == ",";
    assert a + g + ("," + Pass(d, rest)) == (a + g) + "," + Pass(d, rest);
  }

  lemma ThreeGroups(d: char -> bool, a: string, g: string, h: string)
    requires !d(',') && a != "" && AllDigits(d, a) && AllDigits(d, g) && AllDigits(d, h) && |g| == 3 && |h| == 3
    ensures StripCommas(d, a + "," + g + ("," + h)) == a + g + h && ',' !in a + g + h
  {
    GroupBeforeComma(d, a, g, h);
    PlainPasses(d, h);
    OnePass(d, a + "," + g + ("," + h), (a + g) + "," + h);
    TwoGroups(d, a + g, h);
  }

  lemma StuckBehind(d: char -> bool, x: string, y: string)
    requires |y| >= 4 && AllDigits(d, y[..4])
    ensures StuckAt(d, x + "," + y, |x|)
  {
    var s := x + "," + y;
    assert s[|x| + 1] == y[..4][0] && s[|x| + 2] == y[..4][1] && s[|x| + 3] == y[..4][2] && s[|x| + 4] == y[..4][3];
  }

  lemma TwoGroupsAhead(d: char -> bool, h: string, k: string, rest: string)
    requires !d(',') && AllDigits(d, h) && AllDigits(d, k) && |h| == 3 && |k| == 3 && (rest != "" ==> rest[0] == ',')
    ensures var y := Pass(d, h + "," + k + rest); |y| >= 4 && AllDigits(d, y[..4])
  {
    GroupPasses(d, h, k, rest);
    var y := Pass(d, h + "," + k + rest);
    assert y[..4] == h + k[..1];
    assert forall c :: c in k[..1] ==> c in k;
  }

  lemma StuckAfterPass(d: char -> bool, s: string, x: string, y: string)
    requires !d(',') && Pass(d, s) == x + "," + y && |y| >= 4 && AllDigits(d, y[..4])
    ensures ',' in StripCommas(d, s)
  {
    StuckBehind(d, x, y);
    StuckStays(d, Pass(d, s), |x|);
    PassShrinks(d, s);
  }

  lemma {:induction false} FourGroups(d: char -> bool, a: string, g: string, h: string, k: string, rest: string)
    requires !d(',') && a != "" && AllDigits(d, a) && AllDigits(d, g) && AllDigits(d, h) && AllDigits(d, k)
    requires |g| == 3 && |h| == 3 && |k| == 3 && (rest != "" ==> rest[0] == ',')
    ensures ',' in StripCommas(d, a + "," + g + ("," + (h + "," + k + rest)))
  {
    var tail := h + "," + k + rest;
    GroupBeforeComma(d, a, g, tail);
    TwoGroupsAhead(d, h, k, rest);
    StuckAfterPass(d, a + "," + g + ("," + tail), a + g, Pass(d, tail));
  }

  lemma GroupsAreDigits(d: char -> bool, gs: seq<string>, i: nat)
    requires !d(',') && Groups(d, gs) && i < |gs|
    ensures AllDigits(d, gs[i]) && ',' !in gs[i] && gs[i] != ""
  {
  }

  lemma LongNumeral(gs: seq<string>) returns (rest: string)
    requires |gs| >= 4
    ensures Numeral(gs) == gs[0] + "," + gs[1] + ("," + (gs[2] + "," + gs[3] + rest)) && (rest != "" ==> rest[0] == ',')
  {
    rest := if |gs| == 4 then "" else "," + Numeral(gs[4..]);
    assert gs[1..][1..] == gs[2..] && gs[2..][1..] == gs[3..] && gs[3..][1..] == gs[4..];
    assert Numeral(gs[3..]) == gs[3] + rest;
    assert Numeral(gs[2..]) == gs[2] + "," + gs[3] + rest;
    assert Numeral(gs[1..]) == gs[1] + "," + Numeral(gs[2..]);
  }

  lemma TwoGroupNumeral(gs: seq<string>)
    requires |gs| == 2
    ensures Numeral(gs) == gs[0] + "," + gs[1] && Concat(gs) == gs[0] + gs[1]
  {
    assert gs[1..] == [gs[1]];
    assert Concat([gs[1]]) == gs[1] + Concat([]);
  }

  lemma ThreeGroupNumeral(gs: seq<string>)
    requires |gs| == 3
    ensures Numeral(gs) == gs[0] + "," + gs[1] + ("," + gs[2]) && Concat(gs) == gs[0] + gs[1] + gs[2]
  {
    var tail := gs[1..];
    TwoGroupNumeral(tail);
    var a, b, c := gs[0], gs[1], gs[2];
    assert a + "," + (b + "," + c) == a + "," + b + ("," + c);
    assert a + (b + c) == a + b + c;
  }

  /**
   A correctly grouped numeral loses its commas, and becomes its digits, iff it has at most two of
   them: in longer numerals a pass joins the groups in pairs, and a comma before six digits never
   matches again.
   */
  lemma {:induction false} NumeralsAreStrippedUpToMillions(d: char -> bool, gs: seq<string>)
    requires !d(',') && Groups(d, gs)
    ensures ',' !in StripCommas(d, Numeral(gs)) <==> |gs| <= 3
    ensures |gs| <= 3 ==> StripCommas(d, Numeral(gs)) == Concat(gs)
  {
    GroupsAreDigits(d, gs, 0);
    if |gs| == 1 {
      PlainPasses(d, gs[0]);
      assert Concat(gs) == gs[0] + Concat(gs[1..]) == gs[0];
    } else if |gs| == 2 {
      TwoGroupNumeral(gs);
      TwoGroups(d, gs[0], gs[1]);
    } else if |gs| == 3 {
      ThreeGroupNumeral(gs);
      ThreeGroups(d, gs[0], gs[1], gs[2]);
    } else {
      var rest := LongNumeral(gs);
      FourGroups(d, gs[0], gs[1], gs[2], gs[3], rest);
    }
  }
}
