/**
 Reading a message without its thinking: every opening tag with a closing tag behind it goes, with all in between.
 */
module Thinking {
  import opened Wrappers
  import opened Splits

  /** The end of the first such tag, if any. */
  function AfterTag(s: string, tag: string): (r: Option<nat>)
    ensures r.Some? ==> |tag| <= r.value <= |s|
  {
    if StartsWith(s, tag) then Some(|tag|)
    else if s == "" then None
    else match AfterTag(s[1..], tag) case Some(n) => Some(n + 1) case None => None
  }

  function Without(s: string, open: string, close: string): string
    decreases |s|
  {
    if s == "" then ""
    else if open != "" && StartsWith(s, open) && AfterTag(s[|open|..], close).Some? then
      Without(s[|open|..][AfterTag(s[|open|..], close).value..], open, close)
    else [s[0]] + Without(s[1..], open, close)
  }

  function WithoutThinking(s: string): string {
    Without(s, "<think>", "</think>")
  }

  // --- What is left ------------------------------------------------------------------------------

  predicate TagAt(s: string, tag: string, k: nat) {
    k + |tag| <= |s| && s[k..k + |tag|] == tag
  }

  /** A closing tag follows an opening one. */
  ghost predicate Encloses(s: string, open: string, close: string) {
    exists i: nat, j: nat :: i + |open| <= j && TagAt(s, open, i) && TagAt(s, close, j)
  }

  /** The first enclosed stretch of a text: from its first opening tag to the first closing tag behind that. */
  ghost predicate FirstEnclosed(s: string, open: string, close: string, p: string, t: string, q: string) {
    s == p + open + t + close + q && Clean(p, open) && Clean(t, close)
  }

  /** What is left of a text without its enclosed stretches. */
  ghost predicate LeavesOut(s: string, open: string, close: string, r: string)
    decreases |s|
  {
    if !Encloses(s, open, close) then r == s
    else
      exists p, t, q, rest ::
        FirstEnclosed(s, open, close, p, t, q) && |q| < |s| && r == p + rest && LeavesOut(q, open, close, rest)
  }

  lemma TagOneLater(s: string, tag: string, k: nat)
    requires s != ""
    ensures TagAt(s[1..], tag, k) <==> TagAt(s, tag, k + 1)
  {
    if k + 1 + |tag| <= |s| {
      assert s[1..][k..k + |tag|] == s[k + 1..k + 1 + |tag|];
    }
  }

  lemma TagBehind(s: string, front: nat, tag: string, k: nat)
    requires front <= |s|
    ensures TagAt(s[front..], tag, k) <==> TagAt(s, tag, front + k)
  {
    if front + k + |tag| <= |s| {
      assert s[front..][k..k + |tag|] == s[front + k..front + k + |tag|];
    }
  }

  lemma {:induction false} TagEndsThere(t: string, tag: string, q: string)
    requires Proper(tag) && Clean(t, tag)
    ensures AfterTag(t + tag + q, tag) == Some(|t| + |tag|)
  {
    var s := t + tag + q;
    if t == "" {
      assert s[..|tag|] == tag;
    } else {
      NoStraddle(t, tag, q);
      CleanTail(t, tag);
      TagEndsThere(t[1..], tag, q);
      assert s[1..] == t[1..] + tag + q;
    }
  }

  lemma {:induction false} ReadsOn(s: string, open: string, close: string, n: nat)
    requires n <= |s| && forall k :: 0 <= k < n ==> !StartsWith(s[k..], open)
    ensures Without(s, open, close) == s[..n] + Without(s[n..], open, close)
    decreases n
  {
    if n == 0 {
      assert s[..0] == "" && s[0..] == s;
    } else {
      assert s[0..] == s;
      assert Without(s, open, close) == [s[0]] + Without(s[1..], open, close);
      forall k | 0 <= k < n - 1 ensures !StartsWith(s[1..][k..], open) {
        assert s[1..][k..] == s[k + 1..];
      }
      ReadsOn(s[1..], open, close, n - 1);
      assert s[1..][n - 1..] == s[n..] && s[..n] == [s[0]] + s[1..][..n - 1];
    }
  }

  lemma NoneBefore(p: string, open: string, inner: string, k: nat)
    requires Proper(open) && Clean(p, open) && k < |p|
    ensures !StartsWith((p + open + inner)[k..], open)
  {
    forall i | 0 <= i <= |p[k..]| ensures !StartsWith(p[k..][i..], open) {
      assert p[k..][i..] == p[k + i..];
    }
    NoStraddle(p[k..], open, inner);
    assert (p + open + inner)[k..] == p[k..] + open + inner;
  }

  lemma EnclosedGoesBefore(p: string, open: string, inner: string, close: string)
    requires Proper(open) && Clean(p, open) && AfterTag(inner, close).Some?
    ensures Without(p + open + inner, open, close) == p + Without(inner[AfterTag(inner, close).value..], open, close)
  {
    var s := p + open + inner;
    forall k | 0 <= k < |p| ensures !StartsWith(s[k..], open) {
      NoneBefore(p, open, inner, k);
    }
    ReadsOn(s, open, close, |p|);
    var rest := open + inner;
    assert s[..|p|] == p && s[|p|..] == rest;
    assert rest[..|open|] == open && rest[|open|..] == inner;
  }

  /** An enclosed stretch goes, with its tags; what is before it stays, and what is behind it is read on. */
  lemma EnclosedGoes(p: string, open: string, t: string, close: string, q: string)
    requires Proper(open) && Proper(close) && Clean(p, open) && Clean(t, close)
    ensures Without(p + open + t + close + q, open, close) == p + Without(q, open, close)
  {
    var inner := t + close + q;
    TagEndsThere(t, close, q);
    EnclosedGoesBefore(p, open, inner, close);
    assert inner[|t| + |close|..] == q;
    Regrouped(p, open, t, close, q, inner);
  }

  lemma CutAt(s: string, tag: string, n: nat)
    requires TagAt(s, tag, n)
    ensures s == s[..n] + tag + s[n + |tag|..]
  {
  }

  lemma Regrouped(p: string, open: string, t: string, close: string, q: string, inner: string)
    requires inner == t + close + q
    ensures p + open + inner == p + open + t + close + q
  {
  }

  lemma StartsLonger(a: string, b: string, tag: string)
    requires StartsWith(a, tag)
    ensures StartsWith(a + b, tag)
  {
  }

  lemma CleanHead(c: char, front: string, tail: string, tag: string)
    requires !StartsWith([c] + front + tail, tag) && Clean(front, tag)
    ensures Clean([c] + front, tag)
  {
    if StartsWith([c] + front, tag) {
      StartsLonger([c] + front, tail, tag);
    }
    CleanCons(c, front, tag);
  }

  /** Before the first tag there is none. */
  lemma {:induction false} FirstTag(s: string, tag: string)
    requires tag != "" && AfterTag(s, tag).Some?
    ensures TagAt(s, tag, AfterTag(s, tag).value - |tag|) && Clean(s[..AfterTag(s, tag).value - |tag|], tag)
  {
    if StartsWith(s, tag) {
      assert s[..0] == "" && TagAt(s, tag, 0);
    } else {
      FirstTag(s[1..], tag);
      var n := AfterTag(s[1..], tag).value - |tag|;
      TagOneLater(s, tag, n);
      HeadIsClean(s, tag, n + 1);
    }
  }

  lemma HeadIsClean(s: string, tag: string, n: nat)
    requires 0 < n <= |s| && !StartsWith(s, tag) && Clean(s[1..][..n - 1], tag)
    ensures Clean(s[..n], tag)
  {
    var front := s[1..][..n - 1];
    assert s == [s[0]] + front + s[n..];
    CleanHead(s[0], front, s[n..], tag);
    assert s[..n] == [s[0]] + front;
  }

  lemma {:induction false} NoTag(s: string, tag: string, k: nat)
    requires AfterTag(s, tag).None?
    ensures !TagAt(s, tag, k)
  {
    if s != "" && k > 0 {
      NoTag(s[1..], tag, k - 1);
      TagOneLater(s, tag, k - 1);
    }
  }

  lemma EnclosesLater(s: string, open: string, close: string)
    requires s != ""
    ensures Encloses(s[1..], open, close) ==> Encloses(s, open, close)
    ensures !StartsWith(s, open) && Encloses(s, open, close) ==> Encloses(s[1..], open, close)
  {
    if i: nat, j: nat :| i + |open| <= j && TagAt(s[1..], open, i) && TagAt(s[1..], close, j) {
      TagOneLater(s, open, i);
      TagOneLater(s, close, j);
    }
    if !StartsWith(s, open) {
      if i: nat, j: nat :| i + |open| <= j && TagAt(s, open, i) && TagAt(s, close, j) {
        assert i > 0;
        TagOneLater(s, open, i - 1);
        TagOneLater(s, close, j - 1);
      }
    }
  }

  /** A text that begins with an opening tag encloses something iff a closing tag follows. */
  lemma EnclosesAtOnce(s: string, open: string, close: string)
    requires StartsWith(s, open) && close != ""
    ensures AfterTag(s[|open|..], close).Some? <==> Encloses(s, open, close)
  {
    var rest := s[|open|..];
    if AfterTag(rest, close).Some? {
      FirstTag(rest, close);
      var n := AfterTag(rest, close).value - |close|;
      TagBehind(s, |open|, close, n);
      assert TagAt(s, open, 0);
    } else if i: nat, j: nat :| i + |open| <= j && TagAt(s, open, i) && TagAt(s, close, j) {
      TagBehind(s, |open|, close, j - |open|);
      NoTag(rest, close, j - |open|);
    }
  }

  /** A text in which no closing tag follows an opening one is read as it is. */
  lemma {:induction false} OpenStays(s: string, open: string, close: string)
    requires close != "" && !Encloses(s, open, close)
    ensures Without(s, open, close) == s
  {
    if s != "" {
      if StartsWith(s, open) {
        EnclosesAtOnce(s, open, close);
      }
      EnclosesLater(s, open, close);
      OpenStays(s[1..], open, close);
      assert s == [s[0]] + s[1..];
    }
  }

  lemma {:induction false} FirstOpening(s: string, open: string, close: string) returns (p: string, inner: string)
    requires open != "" && close != "" && Encloses(s, open, close)
    ensures s == p + open + inner && Clean(p, open) && AfterTag(inner, close).Some?
  {
    if StartsWith(s, open) {
      EnclosesAtOnce(s, open, close);
      p, inner := "", s[|open|..];
    } else {
      EnclosesLater(s, open, close);
      var front;
      front, inner := FirstOpening(s[1..], open, close);
      p := [s[0]] + front;
      assert s == [s[0]] + front + (open + inner);
      CleanHead(s[0], front, open + inner, open);
    }
  }

  /** A text that encloses something has a first enclosed stretch. */
  lemma FirstEnclosedExists(s: string, open: string, close: string) returns (p: string, t: string, q: string)
    requires open != "" && close != "" && Encloses(s, open, close)
    ensures FirstEnclosed(s, open, close, p, t, q)
  {
    var inner;
    p, inner := FirstOpening(s, open, close);
    FirstTag(inner, close);
    var n := AfterTag(inner, close).value - |close|;
    t, q := inner[..n], inner[n + |close|..];
    CutAt(inner, close, n);
    Regrouped(p, open, t, close, q, inner);
  }

  lemma {:induction false} WithoutIsExact(s: string, open: string, close: string, r: string)
    requires Proper(open) && Proper(close)
    ensures Without(s, open, close) == r <==> LeavesOut(s, open, close, r)
    decreases |s|
  {
    if !Encloses(s, open, close) {
      OpenStays(s, open, close);
    } else {
      if Without(s, open, close) == r {
        var p, t, q := FirstEnclosedExists(s, open, close);
        EnclosedGoes(p, open, t, close, q);
        WithoutIsExact(q, open, close, Without(q, open, close));
      }
      if LeavesOut(s, open, close, r) {
        var p, t, q, rest :|
          FirstEnclosed(s, open, close, p, t, q) && |q| < |s| && r == p + rest && LeavesOut(q, open, close, rest);
        EnclosedGoes(p, open, t, close, q);
        WithoutIsExact(q, open, close, rest);
      }
    }
  }

  // --- Thinking ----------------------------------------------------------------------------------

  lemma TagsAreProper()
    ensures Proper("<think>") && Proper("</think>")
  {
  }

  /** A thought goes, with its tags; what is before it stays, and what is behind it is read on. */
  lemma ThoughtsGo(p: string, t: string, q: string)
    requires Clean(p, "<think>") && Clean(t, "</think>")
    ensures WithoutThinking(p + "<think>" + t + "</think>" + q) == p + WithoutThinking(q)
  {
    TagsAreProper();
    EnclosedGoes(p, "<think>", t, "</think>", q);
  }

  /** Reading without thinking is exact: it leaves just what is outside the thoughts of the text. */
  lemma ThinkingIsLeftOut(s: string, r: string)
    ensures WithoutThinking(s) == r <==> LeavesOut(s, "<think>", "</think>", r)
  {
    TagsAreProper();
    WithoutIsExact(s, "<think>", "</think>", r);
  }
}
