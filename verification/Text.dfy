/**
 Strings as the model uses them: decimal rendering and reading of integers, ASCII case,
 stripping, splitting, and a total order on strings.
 */
module Text {
  import opened Wrappers

  predicate IsDigit(c: char) {
    '0' <= c <= '9'
  }

  predicate IsAlnum(c: char) {
    IsDigit(c) || 'a' <= c <= 'z' || 'A' <= c <= 'Z'
  }

  predicate IsSpace(c: char) {
    c == ' ' || '\t' <= c <= '\r' || '\U{1c}' <= c <= '\U{1f}' || c == '\U{85}' || c == '\U{a0}'
  }

  function LowerChar(c: char): char {
    if 'A' <= c <= 'Z' then c - 'A' + 'a' else c
  }

  function Lower(s: string): (r: string)
    ensures |r| == |s|
  {
    seq(|s|, i requires 0 <= i < |s| => LowerChar(s[i]))
  }

  function StripLeft(s: string): string {
    if s != "" && IsSpace(s[0]) then StripLeft(s[1..]) else s
  }

  function StripRight(s: string): string {
    if s != "" && IsSpace(s[|s| - 1]) then StripRight(s[..|s| - 1]) else s
  }

  function Strip(s: string): string {
    StripRight(StripLeft(s))
  }

  predicate AllSpace(s: string) {
    forall k :: 0 <= k < |s| ==> IsSpace(s[k])
  }

  predicate Padded(s: string, before: string, core: string, after: string) {
    s == before + core + after && AllSpace(before) && AllSpace(after)
  }

  /** The text without the blanks around it. */
  ghost predicate Trims(s: string, core: string) {
    && (exists before, after :: Padded(s, before, core, after))
    && (core != "" ==> !IsSpace(core[0]) && !IsSpace(core[|core| - 1]))
  }

  lemma {:induction false} StripLeftCuts(before: string, t: string)
    requires AllSpace(before) && (t != "" ==> !IsSpace(t[0]))
    ensures StripLeft(before + t) == t
    decreases |before|
  {
    if before == "" {
      assert before + t == t;
    } else {
      assert (before + t)[1..] == before[1..] + t;
      StripLeftCuts(before[1..], t);
    }
  }

  lemma {:induction false} StripRightCuts(t: string, after: string)
    requires AllSpace(after) && (t != "" ==> !IsSpace(t[|t| - 1]))
    ensures StripRight(t + after) == t
    decreases |after|
  {
    if after == "" {
      assert t + after == t;
    } else {
      var n := |after| - 1;
      assert (t + after)[..|t| + n] == t + after[..n];
      StripRightCuts(t, after[..n]);
    }
  }

  lemma {:induction false} StripLeftLeaves(s: string) returns (before: string)
    ensures AllSpace(before) && s == before + StripLeft(s) && (StripLeft(s) != "" ==> !IsSpace(StripLeft(s)[0]))
  {
    if s != "" && IsSpace(s[0]) {
      before := StripLeftLeaves(s[1..]);
      before := [s[0]] + before;
      assert s == [s[0]] + s[1..];
    } else {
      before := "";
    }
  }

  lemma {:induction false} StripRightLeaves(s: string) returns (after: string)
    ensures AllSpace(after) && s == StripRight(s) + after
    ensures StripRight(s) != "" ==> !IsSpace(StripRight(s)[|StripRight(s)| - 1])
  {
    if s != "" && IsSpace(s[|s| - 1]) {
      after := StripRightLeaves(s[..|s| - 1]);
      after := after + [s[|s| - 1]];
      assert s == s[..|s| - 1] + [s[|s| - 1]];
    } else {
      after := "";
    }
  }

  /** Stripping takes the blanks around a text, and nothing else. */
  lemma StripTrims(s: string)
    ensures Trims(s, Strip(s))
  {
    var before := StripLeftLeaves(s);
    var after := StripRightLeaves(StripLeft(s));
    assert Padded(s, before, Strip(s), after);
  }

  lemma TrimsOneWay(s: string, core: string)
    requires Trims(s, core)
    ensures Strip(s) == core
  {
    var before, after :| Padded(s, before, core, after);
    if core == "" {
      assert s == before + after + "";
      StripLeftCuts(before + after, "");
    } else {
      assert s == before + (core + after);
      StripLeftCuts(before, core + after);
      StripRightCuts(core, after);
    }
  }

  /** What is left is determined by the text. */
  lemma StripIsExact(s: string, core: string)
    ensures Strip(s) == core <==> Trims(s, core)
  {
    StripTrims(s);
    if Trims(s, core) {
      TrimsOneWay(s, core);
    }
  }

  // --- Decimal integers ------------------------------------------------------------------

  function DigitChar(d: nat): char
    requires d < 10
  {
    '0' + d as char
  }

  function DigitValue(c: char): nat
    requires IsDigit(c)
  {
    (c - '0') as nat
  }

  function NatText(n: nat): (r: string)
    ensures r != "" && forall c :: c in r ==> IsDigit(c)
  {
    if n < 10 then [DigitChar(n)] else NatText(n / 10) + [DigitChar(n % 10)]
  }

  function IntText(n: int): string {
    if n < 0 then "-" + NatText(-n) else NatText(n)
  }

  /** Digits, with single underscores allowed between two of them. */
  function ReadDigits(s: string): Option<nat> {
    if s == "" || !IsDigit(s[|s| - 1]) then None
    else if |s| == 1 then Some(DigitValue(s[0]))
    else
      var init := s[..|s| - 1];
      var front := if init[|init| - 1] == '_' then init[..|init| - 1] else init;
      match ReadDigits(front)
      case None => None
      case Some(v) => Some(10 * v + DigitValue(s[|s| - 1]))
  }

  /** Python's int(text) on ASCII text. */
  function ReadInt(s: string): Option<int> {
    var t := Strip(s);
    if t != "" && t[0] == '-' then
      match ReadDigits(t[1..]) case None => None case Some(v) => var m: int := v; Some(-m)
    else if t != "" && t[0] == '+' then
      match ReadDigits(t[1..]) case None => None case Some(v) => Some(v)
    else
      match ReadDigits(t) case None => None case Some(v) => Some(v)
  }

  lemma {:induction false} ReadNatText(n: nat)
    ensures ReadDigits(NatText(n)) == Some(n)
  {
    if n >= 10 {
      ReadNatText(n / 10);
      var s := NatText(n);
      assert s[..|s| - 1] == NatText(n / 10);
      assert IsDigit(s[|s| - 2]) by { assert s[|s| - 2] in NatText(n / 10); }
    }
  }

  lemma StripFixed(s: string)
    requires s != "" && !IsSpace(s[0]) && !IsSpace(s[|s| - 1])
    ensures Strip(s) == s
  {
  }

  /** Rendering then reading gives the integer back. */
  lemma ReadIntText(n: int)
    ensures ReadInt(IntText(n)) == Some(n)
  {
    var m := if n < 0 then -n else n;
    ReadNatText(m);
    var s := IntText(n);
    assert IsDigit(NatText(m)[0]) && IsDigit(NatText(m)[|NatText(m)| - 1]) by {
      assert NatText(m)[0] in NatText(m) && NatText(m)[|NatText(m)| - 1] in NatText(m);
    }
    StripFixed(s);
    if n < 0 {
      assert s[1..] == NatText(m);
    }
  }

  // --- Lexicographic order ---------------------------------------------------------------

  predicate Before(a: string, b: string) {
    b != "" && (a == "" || a[0] < b[0] || (a[0] == b[0] && Before(a[1..], b[1..])))
  }

  /** At position k the first text has ended or shows a smaller character, after a common beginning. */
  predicate SmallerAt(a: string, b: string, k: nat) {
    && k <= |a| && k < |b| && a[..k] == b[..k]
    && (k == |a| || a[k] < b[k])
  }

  /** One text precedes another at their first difference. */
  ghost predicate Earlier(a: string, b: string) {
    exists k: nat :: SmallerAt(a, b, k)
  }

  lemma CommonHead(a: string, b: string, k: nat)
    requires a != "" && b != "" && k <= |a| && k <= |b| && a[..k] == b[..k]
    ensures k > 0 ==> a[0] == b[0]
  {
    if k > 0 {
      assert a[0] == a[..k][0] && b[0] == b[..k][0];
    }
  }

  /** The order compares texts by the first character in which they differ; a proper prefix comes first. */
  lemma {:induction false} BeforeIsFirstDifference(a: string, b: string)
    ensures Before(a, b) <==> Earlier(a, b)
  {
    if a == "" || b == "" {
      assert b != "" ==> SmallerAt(a, b, 0);
    } else if a[0] != b[0] {
      assert a[0] < b[0] ==> SmallerAt(a, b, 0);
      if k: nat :| SmallerAt(a, b, k) {
        CommonHead(a, b, k);
      }
    } else {
      BeforeIsFirstDifference(a[1..], b[1..]);
      if k: nat :| SmallerAt(a[1..], b[1..], k) {
        assert a[..k + 1] == [a[0]] + a[1..][..k] && b[..k + 1] == [b[0]] + b[1..][..k];
        assert SmallerAt(a, b, k + 1);
      }
      if k: nat :| SmallerAt(a, b, k) {
        assert k > 0;
        assert a[1..][..k - 1] == a[..k][1..] && b[1..][..k - 1] == b[..k][1..];
        assert SmallerAt(a[1..], b[1..], k - 1);
      }
    }
  }

  lemma {:induction false} BeforeIsStrictTotal(a: string, b: string)
    ensures !(Before(a, b) && Before(b, a))
    ensures Before(a, b) || Before(b, a) || a == b
    ensures a == b ==> !Before(a, b)
  {
    if a != "" && b != "" && a[0] == b[0] {
      BeforeIsStrictTotal(a[1..], b[1..]);
      if a[1..] == b[1..] {
        assert a == [a[0]] + a[1..] && b == [b[0]] + b[1..];
      }
    }
  }

  lemma {:induction false} BeforeTransitive(a: string, b: string, c: string)
    requires Before(a, b) && Before(b, c)
    ensures Before(a, c)
  {
    if a != "" && a[0] == b[0] && b[0] == c[0] {
      BeforeTransitive(a[1..], b[1..], c[1..]);
    }
  }
}
