/**
 The boxed answer of a solution text: a scan for the last marker and its matching brace, shown to
 be an exact parser.
 */
module Boxed {
  import opened Wrappers

  const BOXED := "\\boxed"
  const FBOX := "\\fbox"
  const LEFT := "\\boxed{"

  predicate OccursAt(s: string, marker: string, k: nat) {
    k + |marker| <= |s| && s[k..k + |marker|] == marker
  }

  predicate LastAt(s: string, marker: string, k: nat) {
    OccursAt(s, marker, k) && forall j :: k < j < |s| ==> !OccursAt(s, marker, j)
  }

  /** The last occurrence of a non-empty marker. */
  function RFind(s: string, marker: string): (r: Option<nat>)
    requires marker != ""
    ensures match r case Some(k) => LastAt(s, marker, k) case None => forall k: nat :: !OccursAt(s, marker, k)
  {
    RFindBelow(s, marker, |s|)
  }

  function RFindBelow(s: string, marker: string, bound: nat): (r: Option<nat>)
    requires bound <= |s| && marker != ""
    requires forall k: nat :: bound <= k ==> !OccursAt(s, marker, k)
    ensures match r case Some(k) => LastAt(s, marker, k) case None => forall k: nat :: !OccursAt(s, marker, k)
  {
    if bound == 0 then None
    else if OccursAt(s, marker, bound - 1) then Some(bound - 1)
    else RFindBelow(s, marker, bound - 1)
  }

  // --- Braces ------------------------------------------------------------------------------------

  function Weight(c: char): int {
    if c == '{' then 1 else if c == '}' then -1 else 0
  }

  function Depth(s: string): int {
    if s == "" then 0 else Weight(s[0]) + Depth(s[1..])
  }

  predicate Balanced(s: string) {
    Depth(s) == 0 && forall k :: 0 <= k <= |s| ==> Depth(s[..k]) >= 0
  }

  lemma {:induction false} DepthOfConcat(a: string, b: string)
    ensures Depth(a + b) == Depth(a) + Depth(b)
  {
    if a == "" {
      assert a + b == b;
    } else {
      assert (a + b)[1..] == a[1..] + b;
      DepthOfConcat(a[1..], b);
    }
  }

  /** The first closing brace at which the depth, counted from i, reaches zero. */
  function CloseFrom(s: string, i: nat, depth: int): (r: Option<nat>)
    requires i <= |s|
    ensures r.Some? ==> i <= r.value < |s|
    decreases |s| - i
  {
    if i == |s| then None
    else if s[i] == '}' && depth + Weight(s[i]) == 0 then Some(i)
    else CloseFrom(s, i + 1, depth + Weight(s[i]))
  }

  ghost predicate ClosesAt(s: string, i: nat, depth: int, j: nat) {
    && i <= j < |s| && s[j] == '}' && depth + Depth(s[i..j + 1]) == 0
    && forall k :: i <= k < j && s[k] == '}' ==> depth + Depth(s[i..k + 1]) != 0
  }

  lemma DepthFrom(s: string, i: nat, k: nat)
    requires i < k <= |s|
    ensures Depth(s[i..k]) == Weight(s[i]) + Depth(s[i + 1..k])
  {
    assert s[i..k][1..] == s[i + 1..k];
  }

  lemma {:induction false} CloseFromIsFirst(s: string, i: nat, depth: int)
    requires i <= |s|
    ensures match CloseFrom(s, i, depth)
            case Some(j) => ClosesAt(s, i, depth, j)
            case None => forall k :: i <= k < |s| && s[k] == '}' ==> depth + Depth(s[i..k + 1]) != 0
    decreases |s| - i
  {
    if i < |s| {
      CloseFromIsFirst(s, i + 1, depth + Weight(s[i]));
      forall k | i < k <= |s| ensures Depth(s[i..k]) == Weight(s[i]) + Depth(s[i + 1..k]) {
        DepthFrom(s, i, k);
      }
      assert Depth(s[i + 1..i + 1]) == 0;
    }
  }

  lemma ClosingIsUnique(s: string, i: nat, depth: int, j: nat)
    requires ClosesAt(s, i, depth, j)
    ensures CloseFrom(s, i, depth) == Some(j)
  {
    CloseFromIsFirst(s, i, depth);
  }

  // --- The extractor -----------------------------------------------------------------------------

  function LastBoxed(s: string): Option<string> {
    var boxed := RFind(s, BOXED);
    var start := if boxed.Some? then boxed else RFind(s, FBOX);
    if start.None? then None
    else
      match CloseFrom(s, start.value, 0)
      case None => None
      case Some(j) => Some(s[start.value..j + 1])
  }

  /** The scan of the source. */
  method LastBoxedOnlyString(s: string) returns (r: Option<string>)
    ensures r == LastBoxed(s)
  {
    var found := RFind(s, BOXED);
    if found.None? {
      found := RFind(s, FBOX);
      if found.None? {
        return None;
      }
    }
    var idx := found.value;
    var i := idx;
    var rightBrace: Option<nat> := None;
    var open := 0;
    while i < |s|
      invariant idx <= i <= |s| && rightBrace.None?
      invariant CloseFrom(s, i, open) == CloseFrom(s, idx, 0)
    {
      if s[i] == '{' {
        open := open + 1;
      }
      if s[i] == '}' {
        open := open - 1;
        if open == 0 {
          rightBrace := Some(i);
          break;
        }
      }
      i := i + 1;
    }
    if rightBrace.None? {
      return None;
    }
    return Some(s[idx..rightBrace.value + 1]);
  }

  function RemoveBoxed(s: Option<string>): Option<string> {
    if s.None? || s.value == "" || |s.value| < |LEFT| || s.value[..|LEFT|] != LEFT || s.value[|s.value| - 1] != '}' then None
    else Some(s.value[|LEFT|..|s.value| - 1])
  }

  function Extract(s: string): Option<string> {
    RemoveBoxed(LastBoxed(s))
  }

  // --- Exactness ---------------------------------------------------------------------------------

  /** The text is p, the marker with a balanced answer, and q; no later marker. */
  ghost predicate Parses(s: string, p: string, r: string, q: string) {
    s == p + LEFT + r + "}" + q && Balanced(r) && LastAt(s, BOXED, |p|)
  }

  lemma MarkerHasNoDepth()
    ensures Depth(BOXED) == 0 && Depth(LEFT) == 1
  {
    assert BOXED[1..] == "boxed" && "boxed"[1..] == "oxed" && "oxed"[1..] == "xed" && "xed"[1..] == "ed" && "ed"[1..] == "d";
    assert LEFT == BOXED + "{";
    DepthOfConcat(BOXED, "{");
  }

  lemma DepthInside(s: string, p: string, r: string, q: string, k: nat)
    requires s == p + LEFT + r + "}" + q && k <= |r|
    ensures Depth(s[|p|..|p| + |LEFT| + k]) == 1 + Depth(r[..k])
  {
    assert s[|p|..|p| + |LEFT| + k] == LEFT + r[..k];
    DepthOfConcat(LEFT, r[..k]);
    MarkerHasNoDepth();
  }

  lemma {:induction false} DepthAtEnd(s: string, p: string, r: string, q: string)
    requires s == p + LEFT + r + "}" + q
    ensures Depth(s[|p|..|p| + |LEFT| + |r| + 1]) == Depth(r)
  {
    AnswerSlice(s, p, r, q);
    DepthOfConcat(LEFT + r, "}");
    DepthOfConcat(LEFT, r);
    MarkerHasNoDepth();
    assert Depth("}") == -1;
  }

  lemma AnswerSlice(s: string, p: string, r: string, q: string)
    requires s == p + LEFT + r + "}" + q
    ensures s[|p|..|p| + |LEFT| + |r| + 1] == LEFT + r + "}"
  {
  }

  lemma ParsedIsExtracted(s: string, p: string, r: string, q: string)
    requires Parses(s, p, r, q)
    ensures Extract(s) == Some(r)
  {
    var end := |p| + |LEFT| + |r|;
    DepthAtEnd(s, p, r, q);
    assert s[end] == '}';
    assert forall m :: 0 <= m < |LEFT| ==> s[|p| + m] == LEFT[m] && LEFT[m] != '}';
    forall k | |p| <= k < end && s[k] == '}' ensures Depth(s[|p|..k + 1]) != 0 {
      var n := k - |p| - |LEFT|;
      assert s[k] == s[|p| + (k - |p|)];
      DepthInside(s, p, r, q, n + 1);
    }
    ClosingIsUnique(s, |p|, 0, end);
    assert RFind(s, BOXED) == Some(|p|);
    assert s[|p|..end + 1] == LEFT + r + "}";
  }

  lemma {:induction false} PrefixesStayOpen(s: string, p: string, r: string, q: string, k: nat)
    requires s == p + LEFT + r + "}" + q && k <= |r|
    requires ClosesAt(s, |p|, 0, |p| + |LEFT| + |r|)
    ensures Depth(r[..k]) >= 0
  {
    if k > 0 {
      PrefixesStayOpen(s, p, r, q, k - 1);
      assert r[..k] == r[..k - 1] + [r[k - 1]];
      DepthOfConcat(r[..k - 1], [r[k - 1]]);
      DepthInside(s, p, r, q, k);
      assert Depth([r[k - 1]]) == Weight(r[k - 1]);
      assert s[|p| + |LEFT| + k - 1] == r[k - 1];
    }
  }

  lemma CharOfOccurrence(s: string, marker: string, j: nat, n: nat)
    ensures OccursAt(s, marker, j) && n < |marker| ==> s[j + n] == marker[n]
  {
    if OccursAt(s, marker, j) && n < |marker| {
      assert s[j + n] == s[j..j + |marker|][n];
    }
  }

  /** The fallback marker yields a text, but never an answer. */
  lemma FramedOnlyIsNothing(s: string)
    ensures RFind(s, BOXED).None? ==> Extract(s).None?
  {
    var framed := RFind(s, FBOX);
    if RFind(s, BOXED).None? && framed.Some? {
      CharOfOccurrence(s, FBOX, framed.value, 1);
      var text := LastBoxed(s);
      assert LEFT[1] == 'b';
      assert text.Some? && |text.value| >= |LEFT| ==> text.value[..|LEFT|][1] == 'f';
    }
  }

  lemma ExtractedIsParsed(s: string, r: string) returns (p: string, q: string)
    requires Extract(s) == Some(r)
    ensures Parses(s, p, r, q)
  {
    var text := LastBoxed(s).value;
    var boxed := RFind(s, BOXED);
    FramedOnlyIsNothing(s);
    var idx := boxed.value;
    CloseFromIsFirst(s, idx, 0);
    var j := CloseFrom(s, idx, 0).value;
    assert text == s[idx..j + 1];
    p, q := s[..idx], s[j + 1..];
    assert text == LEFT + r + "}";
    assert s == p + text + q;
    assert s == p + LEFT + r + "}" + q;
    DepthAtEnd(s, p, r, q);
    forall k | 0 <= k <= |r| ensures Depth(r[..k]) >= 0 {
      PrefixesStayOpen(s, p, r, q, k);
    }
  }

  /**
   Extraction is exact: the answer is r iff the text splits at its last marker into a prefix, the
   marker holding the brace-balanced r, and a suffix.
   */
  lemma ExtractIsExact(s: string, r: string)
    ensures Extract(s) == Some(r) <==> exists p, q :: Parses(s, p, r, q)
  {
    if Extract(s) == Some(r) {
      var p, q := ExtractedIsParsed(s, r);
    }
    if p, q :| Parses(s, p, r, q) {
      ParsedIsExtracted(s, p, r, q);
    }
  }

  /** No marker begins inside the answer or the suffix, or across their seams. */
  lemma MarkerIsLast(p: string, r: string, q: string)
    requires forall k: nat :: !OccursAt(r, BOXED, k) && !OccursAt(q, BOXED, k)
    ensures LastAt(p + LEFT + r + "}" + q, BOXED, |p|)
  {
    var s := p + LEFT + r + "}" + q;
    assert s[|p|..|p| + |BOXED|] == BOXED;
    var a := |p| + |LEFT|;
    var b := a + |r|;
    forall j | |p| < j < |s| ensures !OccursAt(s, BOXED, j) {
      CharOfOccurrence(s, BOXED, j, 0);
      if j < a {
        assert s[j] == LEFT[j - |p|] && LEFT[j - |p|] != BOXED[0];
      } else if j + |BOXED| <= b {
        assert r[j - a..j - a + |BOXED|] == s[j..j + |BOXED|];
        assert !OccursAt(r, BOXED, j - a);
      } else if j <= b {
        CharOfOccurrence(s, BOXED, j, b - j);
        assert s[b] == '}' && BOXED[b - j] != '}';
      } else {
        assert !OccursAt(q, BOXED, j - b - 1);
        assert j + |BOXED| <= |s| ==> q[j - b - 1..j - b - 1 + |BOXED|] == s[j..j + |BOXED|];
      }
    }
  }

  /** A boxed balanced answer is found again behind any prefix, when nothing after it is boxed. */
  lemma BoxedRoundTrip(p: string, r: string, q: string)
    requires Balanced(r) && forall k: nat :: !OccursAt(r, BOXED, k) && !OccursAt(q, BOXED, k)
    ensures Extract(p + "\\boxed{" + r + "}" + q) == Some(r)
  {
    MarkerIsLast(p, r, q);
    ParsedIsExtracted(p + LEFT + r + "}" + q, p, r, q);
  }
}
