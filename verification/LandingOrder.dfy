/**
 How the landing views depend on their rows: sequences of rows with strictly growing keys, and numbering
 that is stable when later rows only add steps at the end.
 */
module LandingOrder {
  import opened Wrappers
  import opened ControlStore
  import opened Landing
  import opened LandingViews
  import Text

  // --- Order independence ------------------------------------------------------------------------

  ghost predicate DistinctIds(rows: seq<Row>) {
    forall r, q :: r in rows && q in rows && r.id == q.id ==> r == q
  }

  ghost predicate SameRows(a: seq<Row>, b: seq<Row>) {
    forall r :: r in a <==> r in b
  }

  /** Neither row precedes the other: they tie, and carry the same id. */
  lemma TiedRowsAreEqual(rows: seq<Row>, a: Row, b: Row)
    requires DistinctIds(rows) && a in rows && b in rows && !KeyBefore(a, b) && !KeyBefore(b, a)
    ensures a == b
  {
    KeysAreOrdered(a, b);
  }

  ghost predicate Strict(s: seq<Row>) {
    forall i, j :: 0 <= i < j < |s| ==> KeyBefore(s[i], s[j])
  }

  lemma EmptyHasNone(s: seq<Row>)
    ensures s == [] <==> forall r :: r !in s
  {
    if s != [] {
      assert s[0] in s;
    }
  }

  lemma {:induction false} StrictIsUnique(a: seq<Row>, b: seq<Row>)
    requires SameRows(a, b) && Strict(a) && Strict(b)
    ensures a == b
  {
    EmptyHasNone(a);
    EmptyHasNone(b);
    if a != [] {
      var m, n := a[|a| - 1], b[|b| - 1];
      LastIsGreatest(a, b);
      KeysAreOrdered(m, n);
      assert m == n;
      var front, rest := a[..|a| - 1], b[..|b| - 1];
      forall r ensures r in front <==> r in rest {
        StrictSplits(a, r);
        StrictSplits(b, r);
      }
      StrictIsUnique(front, rest);
      assert a == front + [m] && b == rest + [n];
    }
  }

  lemma LastIsGreatest(a: seq<Row>, b: seq<Row>)
    requires a != [] && b != [] && SameRows(a, b) && Strict(a) && Strict(b)
    ensures a[|a| - 1] == b[|b| - 1]
  {
    var m, n := a[|a| - 1], b[|b| - 1];
    assert m in b && n in a;
    var i :| 0 <= i < |b| && b[i] == m;
    var j :| 0 <= j < |a| && a[j] == n;
    KeysAreOrdered(m, n);
  }

  lemma StrictSplits(a: seq<Row>, r: Row)
    requires a != [] && Strict(a)
    ensures r in a[..|a| - 1] <==> r in a && r != a[|a| - 1]
  {
    KeysAreOrdered(r, r);
  }

  /** Two rows that tie: the first one wins. */
  lemma TiedRowsDependOnOrder(a: Row, b: Row)
    requires IsTrajectoryRow(a) && b == a.(body := a.body + "!")
    ensures TrajectoryView([a, b]) == [a] && TrajectoryView([b, a]) == [b] && a != b
  {
    KeysAreOrdered(a, a);
    assert a.body != b.body by { assert |a.body| != |b.body|; }
    forall x, y | IsTrajectoryRow(x) && IsTrajectoryRow(y) && StepText(x) == StepText(y) && !KeyBefore(x, y)
      ensures TrajectoryView([x, y]) == [x]
    {
      assert [x, y][..1] == [x] && [x][..0] == [];
      assert Latest([x]) == [x];
      assert Find([x], StepText(y)) == 0;
      assert Latest([x, y]) == [x];
      assert Sort([x][..0]) == [];
    }
  }

  // --- Prefix stability --------------------------------------------------------------------------

  /** The step id is the plain decimal text of an integer. */
  predicate Canonical(r: Row) {
    StepText(r) == Text.IntText(StepNumber(r))
  }

  function Numbers(view: seq<Row>): (r: seq<int>)
    ensures |r| == |view|
    ensures forall i :: 0 <= i < |view| ==> r[i] == StepNumber(view[i])
  {
    seq(|view|, i requires 0 <= i < |view| => StepNumber(view[i]))
  }

  ghost predicate Increasing(s: seq<int>) {
    forall i, j :: 0 <= i < j < |s| ==> s[i] < s[j]
  }

  /** A new number is already listed or beyond every listed one. */
  ghost predicate Fits(x: int, s: seq<int>) {
    x in s || forall y :: y in s ==> y < x
  }

  lemma {:induction false} FittingIsPrefix(s: seq<int>, t: seq<int>, n: nat)
    requires Increasing(s) && Increasing(t) && (forall x :: x in s ==> x in t) && (forall x :: x in t ==> Fits(x, s))
    requires n <= |s|
    ensures n <= |t| && s[..n] == t[..n]
  {
    if n > 0 {
      FittingIsPrefix(s, t, n - 1);
      var i := n - 1;
      forall k | 0 <= k < i ensures s[k] == t[k] {
        assert s[k] == s[..i][k] && t[k] == t[..i][k];
      }
      assert s[i] in s && s[i] in t;
      var j :| 0 <= j < |t| && t[j] == s[i];
      assert i <= j;
      assert forall k :: 0 <= k < |s| && s[k] == t[i] ==> i <= k;
      assert t[i] in t && Fits(t[i], s);
      assert s[..n] == s[..i] + [s[i]] && t[..n] == t[..i] + [t[i]];
    }
  }

  lemma PrefixIffFitting(s: seq<int>, t: seq<int>)
    requires Increasing(s) && Increasing(t) && forall x :: x in s ==> x in t
    ensures s <= t <==> forall x :: x in t ==> Fits(x, s)
  {
    if forall x :: x in t ==> Fits(x, s) {
      FittingIsPrefix(s, t, |s|);
      assert s == s[..|s|];
    }
    if s <= t {
      forall x | x in t ensures Fits(x, s) {
        var j :| 0 <= j < |t| && t[j] == x;
        if j < |s| {
          assert s[j] == x;
        }
      }
    }
  }

  lemma NumbersIncrease(rows: seq<Row>)
    requires forall r :: r in rows && IsTrajectoryRow(r) ==> Canonical(r)
    ensures Increasing(Numbers(TrajectoryView(rows)))
    ensures forall x :: x in Numbers(TrajectoryView(rows)) <==>
                        exists r :: r in rows && IsTrajectoryRow(r) && StepNumber(r) == x
  {
    ViewIsFaithful(rows);
    var view := TrajectoryView(rows);
    forall i, j | 0 <= i < j < |view| ensures StepNumber(view[i]) < StepNumber(view[j]) {
      assert view[i] in view && view[j] in view;
      assert Canonical(view[i]) && Canonical(view[j]);
    }
    forall r | r in rows && IsTrajectoryRow(r) ensures StepNumber(r) in Numbers(view) {
      assert Covered(r, view);
      var k :| 0 <= k < |view| && StepText(view[k]) == StepText(r);
      assert view[k] in view && Canonical(view[k]) && Canonical(r);
      Text.ReadIntText(StepNumber(view[k]));
      Text.ReadIntText(StepNumber(r));
      assert Numbers(view)[k] == StepNumber(r);
    }
    forall x | x in Numbers(view) ensures exists r :: r in rows && IsTrajectoryRow(r) && StepNumber(r) == x {
      var k :| 0 <= k < |view| && Numbers(view)[k] == x;
      assert view[k] in view;
    }
  }

  /** The step of a later row is already listed, or numbered beyond every listed one. */
  ghost predicate Follows(r: Row, rows: seq<Row>) {
    || (exists o :: o in rows && IsTrajectoryRow(o) && StepNumber(o) == StepNumber(r))
    || (forall o :: o in rows && IsTrajectoryRow(o) ==> StepNumber(o) < StepNumber(r))
  }

  lemma IndexPrefix(v: seq<Row>, w: seq<Row>)
    requires forall r :: r in v || r in w ==> Canonical(r)
    ensures Index(v) <= Index(w) <==> Numbers(v) <= Numbers(w)
  {
    if Index(v) <= Index(w) {
      forall i | 0 <= i < |v| ensures Numbers(v)[i] == Numbers(w)[i] {
        assert Index(v)[i] == Index(w)[i] && v[i] in v && w[i] in w;
        Text.ReadIntText(StepNumber(v[i]));
        Text.ReadIntText(StepNumber(w[i]));
      }
    }
    if Numbers(v) <= Numbers(w) {
      forall i | 0 <= i < |v| ensures Index(v)[i] == Index(w)[i] {
        assert Numbers(v)[i] == Numbers(w)[i] && v[i] in v && w[i] in w;
      }
    }
  }

  lemma FitsIffFollows(rows: seq<Row>, r: Row)
    requires forall o :: o in rows && IsTrajectoryRow(o) ==> Canonical(o)
    ensures Fits(StepNumber(r), Numbers(TrajectoryView(rows))) <==> Follows(r, rows)
  {
    NumbersIncrease(rows);
    var s := Numbers(TrajectoryView(rows));
    if Fits(StepNumber(r), s) && StepNumber(r) !in s {
      forall o | o in rows && IsTrajectoryRow(o) ensures StepNumber(o) < StepNumber(r) {
        assert StepNumber(o) in s;
      }
    }
  }

  lemma ViewsAreCanonical(rows: seq<Row>)
    requires forall r :: r in rows && IsTrajectoryRow(r) ==> Canonical(r)
    ensures forall r :: r in TrajectoryView(rows) ==> Canonical(r)
  {
    ViewIsFaithful(rows);
  }

  lemma FittingIffFollowing(rows: seq<Row>, all: seq<Row>)
    requires forall r :: r in rows ==> r in all
    requires forall r :: r in all && IsTrajectoryRow(r) ==> Canonical(r)
    ensures (forall x :: x in Numbers(TrajectoryView(all)) ==> Fits(x, Numbers(TrajectoryView(rows)))) <==>
            (forall r :: r in all && IsTrajectoryRow(r) ==> Follows(r, rows))
  {
    NumbersIncrease(all);
    forall r ensures Fits(StepNumber(r), Numbers(TrajectoryView(rows))) <==> Follows(r, rows) {
      FitsIffFollows(rows, r);
    }
  }

  /**
   Step numbering is stable exactly when later trajectory rows repeat listed steps or go beyond
   them: then, and only then, the old numbered list is a prefix of the new one.  Rows may arrive in
   any order, and newer rows may replace the content of old steps.
   */
  lemma NumberingIsPrefixStable(rows: seq<Row>, all: seq<Row>)
    requires forall r :: r in rows ==> r in all
    requires forall r :: r in all && IsTrajectoryRow(r) ==> Canonical(r)
    ensures Index(TrajectoryView(rows)) <= Index(TrajectoryView(all)) <==>
            forall r :: r in all && IsTrajectoryRow(r) ==> Follows(r, rows)
  {
    NumbersIncrease(rows);
    NumbersIncrease(all);
    ViewsAreCanonical(rows);
    ViewsAreCanonical(all);
    IndexPrefix(TrajectoryView(rows), TrajectoryView(all));
    PrefixIffFitting(Numbers(TrajectoryView(rows)), Numbers(TrajectoryView(all)));
    FittingIffFollowing(rows, all);
  }
}
