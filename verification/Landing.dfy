/**
 Views of the landing rows of one session: rows arrive unordered and repeated, and the views
 are a numbered step index, a trajectory lookup and a session result.
 */
module Landing {
  import opened Wrappers
  import opened ControlStore
  import Text

  /**
   A stored step id: an integer, a text, another number or truth value as it reads as text and as integer, or
   nothing.
   */
  datatype RawStep = IntStep(n: int) | TextStep(s: string) | OtherStep(text: string, number: int) | NoStep

  datatype EventType = SessionClose | EpisodeSummary | EvaluationSummary | Inference | OtherEvent

  /** How a stored created_at reads as a time. */
  datatype RowTime = At(t: Time) | NoTime | Unreadable

  datatype Reward = NoReward | Score(value: real) | NotFinite

  datatype Row = Row(
    step: RawStep,
    created: string,          // created_at as sort text
    id: string,               // row id as sort text
    time: RowTime,            // created_at as a time
    event: EventType,
    syntheticStop: bool,
    statusCode: Option<int>,  // absent or not a number: None
    hasContent: bool,         // carries messages or a response
    completed: bool,
    terminal: bool,
    metaCompleted: bool,
    reward: Reward,
    body: string)             // stands for the rendered trajectory

  function StepText(r: Row): string {
    match r.step
    case IntStep(n) => Text.IntText(n)
    case TextStep(s) => s
    case OtherStep(text, _) => text
    case NoStep => "None"
  }

  function StepNumber(r: Row): int {
    match r.step
    case IntStep(n) => n
    case TextStep(s) => (match Text.ReadInt(s) case Some(n) => n case None => -1)
    case OtherStep(_, number) => number
    case NoStep => -1
  }

  /** The sort key of a row compares step number, then creation text, then row id. */
  predicate KeyBefore(a: Row, b: Row) {
    || StepNumber(a) < StepNumber(b)
    || (StepNumber(a) == StepNumber(b)
        && (Text.Before(a.created, b.created) || (a.created == b.created && Text.Before(a.id, b.id))))
  }

  predicate SameKey(a: Row, b: Row) {
    StepNumber(a) == StepNumber(b) && a.created == b.created && a.id == b.id
  }

  lemma KeysAreOrdered(a: Row, b: Row)
    ensures KeyBefore(a, b) || KeyBefore(b, a) || SameKey(a, b)
    ensures KeyBefore(a, b) ==> !KeyBefore(b, a) && !SameKey(a, b)
  {
    Text.BeforeIsStrictTotal(a.created, b.created);
    Text.BeforeIsStrictTotal(b.created, a.created);
    Text.BeforeIsStrictTotal(a.id, b.id);
    Text.BeforeIsStrictTotal(b.id, a.id);
    if Text.Before(a.created, b.created) && Text.Before(b.created, a.created) {
      Text.BeforeTransitive(a.created, b.created, a.created);
    }
    if Text.Before(a.id, b.id) && Text.Before(b.id, a.id) {
      Text.BeforeTransitive(a.id, b.id, a.id);
    }
  }

  lemma KeyBeforeTransitive(a: Row, b: Row, c: Row)
    requires !KeyBefore(b, a) && !KeyBefore(c, b)
    ensures !KeyBefore(c, a)
  {
    KeysAreOrdered(a, b);
    KeysAreOrdered(b, c);
    KeysAreOrdered(a, c);
    if KeyBefore(a, b) && KeyBefore(b, c) {
      if StepNumber(a) == StepNumber(b) == StepNumber(c) {
        if Text.Before(a.created, b.created) && Text.Before(b.created, c.created) {
          Text.BeforeTransitive(a.created, b.created, c.created);
        } else if a.created == b.created == c.created {
          Text.BeforeTransitive(a.id, b.id, c.id);
        }
      }
    }
  }

  predicate IsTrajectoryRow(r: Row) {
    if r.event == SessionClose || r.event == EpisodeSummary || r.event == EvaluationSummary || r.syntheticStop then false
    else if r.event == Inference then r.statusCode.None? || r.statusCode.value == 0 || r.statusCode.value < 400
    else r.hasContent
  }

  predicate IsSealingRow(r: Row) {
    r.completed || r.terminal || r.metaCompleted
    || r.event == SessionClose || r.event == EpisodeSummary || r.event == EvaluationSummary
  }

  // --- The newest row of every step --------------------------------------------------------------

  /** Position of the entry for a step text, or the length when there is none. */
  function Find(entries: seq<Row>, text: string): (k: nat)
    ensures k <= |entries|
    ensures k < |entries| ==> StepText(entries[k]) == text
    ensures forall j :: 0 <= j < k ==> StepText(entries[j]) != text
  {
    if entries == [] || StepText(entries[0]) == text then 0 else 1 + Find(entries[1..], text)
  }

  /** One round of the scan: a new step is appended, a greater row replaces the entry of its step. */
  function Absorb(entries: seq<Row>, r: Row): seq<Row> {
    if !IsTrajectoryRow(r) then entries
    else
      var k := Find(entries, StepText(r));
      if k == |entries| then entries + [r]
      else if KeyBefore(entries[k], r) then entries[k := r]
      else entries
  }

  function Latest(rows: seq<Row>): seq<Row> {
    if rows == [] then [] else Absorb(Latest(rows[..|rows| - 1]), rows[|rows| - 1])
  }

  ghost predicate Drawn(rows: seq<Row>, entries: seq<Row>) {
    forall e :: e in entries ==> e in rows && IsTrajectoryRow(e)
  }

  ghost predicate OncePerStep(entries: seq<Row>) {
    forall i, j :: 0 <= i < j < |entries| ==> StepText(entries[i]) != StepText(entries[j])
  }

  ghost predicate Covered(r: Row, entries: seq<Row>) {
    exists k :: 0 <= k < |entries| && StepText(entries[k]) == StepText(r) && !KeyBefore(entries[k], r)
  }

  /** Each step once, represented by a row of maximal key. */
  ghost predicate Represents(rows: seq<Row>, entries: seq<Row>) {
    && Drawn(rows, entries)
    && OncePerStep(entries)
    && (forall r :: r in rows && IsTrajectoryRow(r) ==> Covered(r, entries))
  }

  lemma AbsorbStaysDrawn(rows: seq<Row>, entries: seq<Row>, r: Row)
    requires Drawn(rows, entries)
    ensures Drawn(rows + [r], Absorb(entries, r))
  {
  }

  lemma AbsorbStaysOnce(entries: seq<Row>, r: Row)
    requires OncePerStep(entries)
    ensures OncePerStep(Absorb(entries, r))
  {
  }

  lemma AbsorbCovers(entries: seq<Row>, r: Row)
    requires IsTrajectoryRow(r)
    ensures Covered(r, Absorb(entries, r))
  {
    KeysAreOrdered(r, r);
    var k := Find(entries, StepText(r));
    assert StepText(Absorb(entries, r)[k]) == StepText(r);
  }

  lemma AbsorbKeepsCover(entries: seq<Row>, r: Row, x: Row)
    requires Covered(x, entries)
    ensures Covered(x, Absorb(entries, r))
  {
    var k :| 0 <= k < |entries| && StepText(entries[k]) == StepText(x) && !KeyBefore(entries[k], x);
    var next := Absorb(entries, r);
    if next[k] != entries[k] {
      KeysAreOrdered(entries[k], r);
      KeyBeforeTransitive(x, entries[k], r);
    }
    assert StepText(next[k]) == StepText(x) && !KeyBefore(next[k], x);
  }

  lemma {:induction false} AbsorbRepresents(rows: seq<Row>, entries: seq<Row>, r: Row)
    requires Represents(rows, entries)
    ensures Represents(rows + [r], Absorb(entries, r))
  {
    AbsorbStaysDrawn(rows, entries, r);
    AbsorbStaysOnce(entries, r);
    forall x | x in rows + [r] && IsTrajectoryRow(x) ensures Covered(x, Absorb(entries, r)) {
      if x in rows {
        AbsorbKeepsCover(entries, r, x);
      } else {
        AbsorbCovers(entries, r);
      }
    }
  }

  lemma {:induction false} LatestRepresents(rows: seq<Row>)
    ensures Represents(rows, Latest(rows))
  {
    if rows != [] {
      var front := rows[..|rows| - 1];
      LatestRepresents(front);
      AbsorbRepresents(front, Latest(front), rows[|rows| - 1]);
      assert rows == front + [rows[|rows| - 1]];
    }
  }

  // --- Sorting -----------------------------------------------------------------------------------

  ghost predicate Ordered(s: seq<Row>) {
    forall i, j :: 0 <= i < j < |s| ==> !KeyBefore(s[j], s[i])
  }

  /** Insert behind every row that is not greater. */
  function Insert(s: seq<Row>, r: Row): seq<Row> {
    if s != [] && KeyBefore(r, s[|s| - 1]) then Insert(s[..|s| - 1], r) + [s[|s| - 1]] else s + [r]
  }

  function Sort(s: seq<Row>): seq<Row> {
    if s == [] then [] else Insert(Sort(s[..|s| - 1]), s[|s| - 1])
  }

  lemma {:induction false} InsertAdds(s: seq<Row>, r: Row)
    ensures multiset(Insert(s, r)) == multiset(s) + multiset{r}
  {
    if s != [] && KeyBefore(r, s[|s| - 1]) {
      InsertAdds(s[..|s| - 1], r);
      assert s == s[..|s| - 1] + [s[|s| - 1]];
    }
  }

  lemma InsertedRows(s: seq<Row>, r: Row, x: Row)
    requires x in Insert(s, r)
    ensures x == r || x in s
  {
    InsertAdds(s, r);
    assert x in multiset(Insert(s, r));
  }

  lemma OrderedPush(s: seq<Row>, r: Row)
    requires Ordered(s) && forall i :: 0 <= i < |s| ==> !KeyBefore(r, s[i])
    ensures Ordered(s + [r])
  {
  }

  lemma {:induction false} InsertKeepsOrder(s: seq<Row>, r: Row)
    requires Ordered(s)
    ensures Ordered(Insert(s, r))
  {
    if s != [] && KeyBefore(r, s[|s| - 1]) {
      var front := s[..|s| - 1];
      var last := s[|s| - 1];
      InsertKeepsOrder(front, r);
      var t := Insert(front, r);
      forall i | 0 <= i < |t| ensures !KeyBefore(last, t[i]) {
        InsertedRows(front, r, t[i]);
        if t[i] == r {
          KeysAreOrdered(r, last);
        }
      }
      OrderedPush(t, last);
    } else {
      forall i | 0 <= i < |s| ensures !KeyBefore(r, s[i]) {
        if i < |s| - 1 {
          KeyBeforeTransitive(s[i], s[|s| - 1], r);
        }
      }
      OrderedPush(s, r);
    }
  }

  lemma {:induction false} SortSorts(s: seq<Row>)
    ensures multiset(Sort(s)) == multiset(s) && Ordered(Sort(s))
    decreases |s|
  {
    if s == [] {
      assert Sort(s) == [];
    } else {
      SortSorts(s[..|s| - 1]);
      InsertAdds(Sort(s[..|s| - 1]), s[|s| - 1]);
      InsertKeepsOrder(Sort(s[..|s| - 1]), s[|s| - 1]);
      assert s == s[..|s| - 1] + [s[|s| - 1]];
    }
  }

  // --- The view ----------------------------------------------------------------------------------

  function TrajectoryView(rows: seq<Row>): seq<Row> {
    Sort(Latest(rows))
  }

  lemma SameElements(a: seq<Row>, b: seq<Row>)
    requires multiset(a) == multiset(b)
    ensures |a| == |b| && forall r :: r in a <==> r in b
  {
    assert |multiset(a)| == |multiset(b)|;
    forall r ensures r in a <==> r in b {
      assert r in a <==> r in multiset(a);
      assert r in b <==> r in multiset(b);
    }
  }

  /** No two positions of a permutation carry the same step when none did before. */
  lemma StepsStayDistinct(a: seq<Row>, b: seq<Row>)
    requires multiset(a) == multiset(b)
    requires OncePerStep(a)
    ensures OncePerStep(b)
  {
    SameElements(a, b);
    forall i, j | 0 <= i < j < |b| ensures StepText(b[i]) != StepText(b[j]) {
      if StepText(b[i]) == StepText(b[j]) {
        assert b[i] in a && b[j] in a;
        assert b[i] == b[j];
        var r := b[i];
        assert b == b[..i] + [r] + b[i + 1..];
        assert r in b[i + 1..] by { assert b[i + 1..][j - i - 1] == r; }
        assert multiset(b)[r] >= 2;
        AtMostOnce(a, r);
      }
    }
  }

  lemma {:induction false} AtMostOnce(a: seq<Row>, r: Row)
    requires forall i, j :: 0 <= i < j < |a| ==> a[i] != a[j]
    ensures multiset(a)[r] <= 1
  {
    if a != [] {
      assert a == a[..|a| - 1] + [a[|a| - 1]];
      AtMostOnce(a[..|a| - 1], r);
      if a[|a| - 1] == r {
        assert r !in a[..|a| - 1];
      }
    }
  }

  /** The view holds, in key order and once per step, a greatest trajectory row of every step. */
  lemma {:induction false} ViewIsFaithful(rows: seq<Row>)
    ensures Represents(rows, TrajectoryView(rows)) && Ordered(TrajectoryView(rows))
  {
    LatestRepresents(rows);
    SortSorts(Latest(rows));
    var latest, view := Latest(rows), TrajectoryView(rows);
    SameElements(latest, view);
    StepsStayDistinct(latest, view);
    forall r | r in rows && IsTrajectoryRow(r) ensures Covered(r, view) {
      assert Covered(r, latest);
      var k :| 0 <= k < |latest| && StepText(latest[k]) == StepText(r) && !KeyBefore(latest[k], r);
      assert latest[k] in view;
      var i :| 0 <= i < |view| && view[i] == latest[k];
    }
  }

  // --- Newest rows -------------------------------------------------------------------------------

  /**
   Row r is not newer than row e: it has a smaller step number, or it was not created later and, if created with e,
   has no later id.
   */
  ghost predicate NotNewer(r: Row, e: Row) {
    || StepNumber(r) < StepNumber(e)
    || (&& StepNumber(r) == StepNumber(e)
        && !Text.Earlier(e.created, r.created)
        && (e.created == r.created ==> !Text.Earlier(e.id, r.id)))
  }

  /** The order of the keys, by step number, first difference of the creation texts and first difference of the ids. */
  lemma KeysTellAge(e: Row, r: Row)
    ensures !KeyBefore(e, r) <==> NotNewer(r, e)
  {
    Text.BeforeIsFirstDifference(e.created, r.created);
    Text.BeforeIsFirstDifference(e.id, r.id);
  }

  /** A trajectory row of its step that no other trajectory row of that step is newer than. */
  ghost predicate Newest(rows: seq<Row>, e: Row) {
    && e in rows && IsTrajectoryRow(e)
    && forall r :: r in rows && IsTrajectoryRow(r) && StepText(r) == StepText(e) ==> NotNewer(r, e)
  }

  lemma RepresentedByNewest(rows: seq<Row>, view: seq<Row>, e: Row)
    requires Represents(rows, view) && e in view
    ensures Newest(rows, e)
  {
    forall r | r in rows && IsTrajectoryRow(r) && StepText(r) == StepText(e) ensures NotNewer(r, e) {
      assert Covered(r, view);
      var k :| 0 <= k < |view| && StepText(view[k]) == StepText(r) && !KeyBefore(view[k], r);
      assert view[k] == e;
      KeysTellAge(e, r);
    }
  }

  /** The step of a row is the integer n, stored as a number or as its decimal text. */
  predicate Numbered(r: Row, n: int) {
    r.step == IntStep(n) || r.step == TextStep(Text.IntText(n))
  }

  /** Steps that read as integers are listed in the order of the integers. */
  lemma StepsAreListedInOrder(rows: seq<Row>, i: nat, j: nat, m: int, n: int)
    requires i < j < |TrajectoryView(rows)|
    requires Numbered(TrajectoryView(rows)[i], m) && Numbered(TrajectoryView(rows)[j], n)
    ensures m < n
  {
    ViewIsFaithful(rows);
    Text.ReadIntText(m);
    Text.ReadIntText(n);
    var view := TrajectoryView(rows);
    assert StepText(view[i]) != StepText(view[j]) && !KeyBefore(view[j], view[i]);
  }

  /** Which rows show a step: their kind, and for model calls their status, spelled out. */
  predicate ShowsWork(r: Row) {
    && r.event != SessionClose && r.event != EpisodeSummary && r.event != EvaluationSummary
    && !r.syntheticStop
    && (r.event == Inference ==> !(r.statusCode.Some? && r.statusCode.value >= 400))
    && (r.event == OtherEvent ==> r.hasContent)
  }

  /** A step is listed exactly if some row of it shows work. */
  lemma ListedIffWorked(rows: seq<Row>, text: string)
    ensures (exists e :: e in TrajectoryView(rows) && StepText(e) == text) <==>
            (exists r :: r in rows && ShowsWork(r) && StepText(r) == text)
    ensures forall e :: e in TrajectoryView(rows) ==> e in rows && ShowsWork(e)
  {
    ViewIsFaithful(rows);
    var view := TrajectoryView(rows);
    forall r ensures IsTrajectoryRow(r) <==> ShowsWork(r) {
    }
    if r :| r in rows && ShowsWork(r) && StepText(r) == text {
      assert Covered(r, view);
      var k :| 0 <= k < |view| && StepText(view[k]) == StepText(r) && !KeyBefore(view[k], r);
      assert view[k] in view;
    }
  }

  method TrajectoryRows(rows: seq<Row>) returns (view: seq<Row>)
    ensures view == TrajectoryView(rows)
    ensures Represents(rows, view) && Ordered(view)
    ensures forall e :: e in view ==> Newest(rows, e)
  {
    var latest: seq<Row> := [];
    for n := 0 to |rows|
      invariant latest == Latest(rows[..n])
    {
      var row := rows[n];
      assert rows[..n + 1][..n] == rows[..n];
      if IsTrajectoryRow(row) {
        var k := Find(latest, StepText(row));
        if k == |latest| {
          latest := latest + [row];
        } else if KeyBefore(latest[k], row) {
          latest := latest[k := row];
        }
      }
    }
    assert rows[..|rows|] == rows;
    view := Sort(latest);
    ViewIsFaithful(rows);
    forall e | e in view ensures Newest(rows, e) {
      RepresentedByNewest(rows, view, e);
    }
  }
}
