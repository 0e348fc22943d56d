/**
 Exactly when the landing views depend on the order of their rows: when two different rows tie that
 the view could show.
 */
module LandingTies {
  import opened Landing
  import opened LandingViews
  import opened LandingOrder

  /** A trajectory row with none newer of its step. */
  ghost predicate Newest(rows: seq<Row>, r: Row) {
    && r in rows && IsTrajectoryRow(r)
    && forall q :: q in rows && IsTrajectoryRow(q) && StepText(q) == StepText(r) ==> !KeyBefore(r, q)
  }

  /** No two different rows that the view could show carry the same sort key. */
  ghost predicate NoTies(rows: seq<Row>) {
    forall r, q :: Newest(rows, r) && Newest(rows, q) && SameKey(r, q) ==> r == q
  }

  lemma ViewShowsNewest(rows: seq<Row>, r: Row)
    requires r in TrajectoryView(rows)
    ensures Newest(rows, r)
  {
    ViewIsFaithful(rows);
    var view := TrajectoryView(rows);
    var i :| 0 <= i < |view| && view[i] == r;
    forall q | q in rows && IsTrajectoryRow(q) && StepText(q) == StepText(r) ensures !KeyBefore(r, q) {
      var k := CoveringPosition(rows, view, q);
      assert k == i;
    }
  }

  lemma TiedIfNotBefore(a: Row, b: Row)
    requires !KeyBefore(a, b) && !KeyBefore(b, a)
    ensures SameKey(a, b)
  {
    KeysAreOrdered(a, b);
  }

  lemma NewestIsShown(rows: seq<Row>, r: Row)
    requires NoTies(rows) && Newest(rows, r)
    ensures r in TrajectoryView(rows)
  {
    ViewIsFaithful(rows);
    var view := TrajectoryView(rows);
    var k := CoveringPosition(rows, view, r);
    assert view[k] in view;
    ViewShowsNewest(rows, view[k]);
    TiedIfNotBefore(r, view[k]);
  }

  lemma UntiedViewIsStrict(rows: seq<Row>)
    requires NoTies(rows)
    ensures Strict(TrajectoryView(rows))
  {
    ViewIsFaithful(rows);
    var view := TrajectoryView(rows);
    forall i, j | 0 <= i < j < |view| ensures KeyBefore(view[i], view[j]) {
      assert view[i] in view && view[j] in view;
      ViewShowsNewest(rows, view[i]);
      ViewShowsNewest(rows, view[j]);
      if !KeyBefore(view[i], view[j]) {
        TiedIfNotBefore(view[i], view[j]);
      }
    }
  }

  lemma UntiedViewIgnoresOrder(a: seq<Row>, b: seq<Row>)
    requires SameRows(a, b) && NoTies(a)
    ensures TrajectoryView(b) == TrajectoryView(a)
  {
    assert forall r :: Newest(a, r) <==> Newest(b, r);
    UntiedViewIsStrict(a);
    UntiedViewIsStrict(b);
    forall r ensures r in TrajectoryView(a) <==> r in TrajectoryView(b) {
      if r in TrajectoryView(a) {
        ViewShowsNewest(a, r);
        NewestIsShown(b, r);
      }
      if r in TrajectoryView(b) {
        ViewShowsNewest(b, r);
        NewestIsShown(a, r);
      }
    }
    StrictIsUnique(TrajectoryView(a), TrajectoryView(b));
  }

  /** With distinct row ids the trajectory view does not depend on the order or repetition of rows. */
  lemma ViewIgnoresOrder(a: seq<Row>, b: seq<Row>)
    requires SameRows(a, b) && DistinctIds(a)
    ensures TrajectoryView(a) == TrajectoryView(b)
  {
    UntiedViewIgnoresOrder(a, b);
  }

  // --- Ties show ---------------------------------------------------------------------------------

  /** One row stands before the other. */
  ghost predicate InOrder(s: seq<Row>, x: Row, y: Row) {
    exists i, j :: 0 <= i < j < |s| && s[i] == x && s[j] == y
  }

  lemma InOrderPush(s: seq<Row>, x: Row, y: Row, r: Row)
    requires InOrder(s, x, y)
    ensures InOrder(s + [r], x, y)
  {
    var i, j :| 0 <= i < j < |s| && s[i] == x && s[j] == y;
    assert (s + [r])[i] == x && (s + [r])[j] == y;
  }

  lemma {:induction false} InsertKeepsPairs(s: seq<Row>, r: Row, x: Row, y: Row)
    requires InOrder(s, x, y)
    ensures InOrder(Insert(s, r), x, y)
  {
    var last := s[|s| - 1];
    if KeyBefore(r, last) {
      var front := s[..|s| - 1];
      var i, j :| 0 <= i < j < |s| && s[i] == x && s[j] == y;
      if j < |front| {
        assert front[i] == x && front[j] == y;
        InsertKeepsPairs(front, r, x, y);
        InOrderPush(Insert(front, r), x, y, last);
      } else {
        assert front[i] == x && x in multiset(front);
        InsertAdds(front, r);
        var t := Insert(front, r);
        assert x in multiset(t);
        var k :| 0 <= k < |t| && t[k] == x;
        assert (t + [last])[k] == x && (t + [last])[|t|] == y;
      }
    } else {
      InOrderPush(s, x, y, r);
    }
  }

  /** A row is inserted behind one it does not precede. */
  lemma {:induction false} InsertBehind(s: seq<Row>, r: Row, x: Row)
    requires x in s && Ordered(s) && !KeyBefore(r, x)
    ensures InOrder(Insert(s, r), x, r)
  {
    var last := s[|s| - 1];
    var i :| 0 <= i < |s| && s[i] == x;
    if KeyBefore(r, last) {
      var front := s[..|s| - 1];
      assert front[i] == x;
      InsertBehind(front, r, x);
      InOrderPush(Insert(front, r), x, r, last);
    } else {
      assert (s + [r])[i] == x && (s + [r])[|s|] == r;
    }
  }

  /** Sorting keeps the order of rows that tie. */
  lemma {:induction false} SortIsStable(s: seq<Row>, x: Row, y: Row)
    requires InOrder(s, x, y) && !KeyBefore(y, x)
    ensures InOrder(Sort(s), x, y)
  {
    var front, last := s[..|s| - 1], s[|s| - 1];
    SortSorts(front);
    var i, j :| 0 <= i < j < |s| && s[i] == x && s[j] == y;
    if j < |front| {
      assert front[i] == x && front[j] == y;
      SortIsStable(front, x, y);
      InsertKeepsPairs(Sort(front), last, x, y);
    } else {
      assert front[i] == x && x in multiset(front);
      assert x in Sort(front) by { assert x in multiset(Sort(front)); }
      InsertBehind(Sort(front), last, x);
    }
  }

  /** The first rows stay the entries of their steps when no row is newer. */
  lemma {:induction false} LeadersStay(r: Row, q: Row, rest: seq<Row>)
    requires IsTrajectoryRow(r) && IsTrajectoryRow(q) && SameKey(r, q)
    requires forall x :: x in rest && IsTrajectoryRow(x) && StepText(x) == StepText(r) ==> !KeyBefore(r, x)
    requires forall x :: x in rest && IsTrajectoryRow(x) && StepText(x) == StepText(q) ==> !KeyBefore(q, x)
    ensures var entries := Latest([r, q] + rest);
            && |entries| >= 1 && entries[0] == r
            && (StepText(q) != StepText(r) ==> |entries| >= 2 && entries[1] == q)
    decreases |rest|
  {
    var rows := [r, q] + rest;
    if rest == [] {
      assert rows == [r, q] && [r, q][..1] == [r] && [r][..0] == [];
      KeysAreOrdered(r, q);
      assert Latest([r]) == Absorb(Latest([]), r) == [r];
      assert Latest([r, q]) == Absorb([r], q);
    } else {
      var front, last := rest[..|rest| - 1], rest[|rest| - 1];
      assert rows[..|rows| - 1] == [r, q] + front && rows[|rows| - 1] == last;
      LeadersStay(r, q, front);
      assert last in rest;
    }
  }

  lemma LeadersAreShown(r: Row, q: Row, rest: seq<Row>)
    requires IsTrajectoryRow(r) && IsTrajectoryRow(q) && SameKey(r, q)
    requires forall x :: x in rest && IsTrajectoryRow(x) && StepText(x) == StepText(r) ==> !KeyBefore(r, x)
    requires forall x :: x in rest && IsTrajectoryRow(x) && StepText(x) == StepText(q) ==> !KeyBefore(q, x)
    ensures var view := TrajectoryView([r, q] + rest);
            r in view && (StepText(q) != StepText(r) ==> InOrder(view, r, q))
  {
    var rows := [r, q] + rest;
    LeadersStay(r, q, rest);
    var entries := Latest(rows);
    SortSorts(entries);
    SameElements(entries, Sort(entries));
    if StepText(q) != StepText(r) {
      KeysAreOrdered(q, r);
      assert InOrder(entries, r, q) by { assert entries[0] == r && entries[1] == q; }
      SortIsStable(entries, r, q);
    }
  }

  lemma OncePerStepOrders(view: seq<Row>, r: Row, q: Row)
    requires OncePerStep(view) && InOrder(view, r, q)
    ensures !InOrder(view, q, r)
  {
    var i, j :| 0 <= i < j < |view| && view[i] == r && view[j] == q;
  }

  lemma OncePerStepShows(view: seq<Row>, r: Row, q: Row)
    requires OncePerStep(view) && r in view && r != q && StepText(r) == StepText(q)
    ensures q !in view
  {
    var i :| 0 <= i < |view| && view[i] == r;
  }

  lemma TiesShow(rows: seq<Row>, r: Row, q: Row)
    requires Newest(rows, r) && Newest(rows, q) && SameKey(r, q) && r != q
    ensures TrajectoryView([r, q] + rows) != TrajectoryView([q, r] + rows)
  {
    var a, b := [r, q] + rows, [q, r] + rows;
    LeadersAreShown(r, q, rows);
    LeadersAreShown(q, r, rows);
    ViewIsFaithful(a);
    if StepText(q) != StepText(r) {
      OncePerStepOrders(TrajectoryView(a), r, q);
      assert InOrder(TrajectoryView(b), q, r);
    } else {
      OncePerStepShows(TrajectoryView(a), r, q);
      assert q in TrajectoryView(b);
    }
  }

  /** The trajectory view is independent of the order and repetition of its rows if and only if nothing ties. */
  lemma ViewIgnoresOrderIffNoTies(rows: seq<Row>)
    ensures NoTies(rows) <==> forall b :: SameRows(rows, b) ==> TrajectoryView(b) == TrajectoryView(rows)
  {
    if NoTies(rows) {
      forall b | SameRows(rows, b) ensures TrajectoryView(b) == TrajectoryView(rows) {
        UntiedViewIgnoresOrder(rows, b);
      }
    } else {
      var b := TiedViewDependsOnOrder(rows);
    }
  }

  lemma TiedViewDependsOnOrder(rows: seq<Row>) returns (b: seq<Row>)
    requires !NoTies(rows)
    ensures SameRows(rows, b) && TrajectoryView(b) != TrajectoryView(rows)
  {
    var r, q :| Newest(rows, r) && Newest(rows, q) && SameKey(r, q) && r != q;
    TiesShow(rows, r, q);
    RowsInFront(rows, r, q);
    RowsInFront(rows, q, r);
    b := if TrajectoryView([r, q] + rows) != TrajectoryView(rows) then [r, q] + rows else [q, r] + rows;
  }

  lemma RowsInFront(rows: seq<Row>, r: Row, q: Row)
    requires r in rows && q in rows
    ensures SameRows(rows, [r, q] + rows)
  {
  }
}
