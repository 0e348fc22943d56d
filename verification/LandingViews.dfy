/**
 The three answers drawn from landing rows: the step index, the trajectory of one step, and the
 session result.
 */
module LandingViews {
  import opened Wrappers
  import opened ControlStore
  import opened Landing

  datatype StepIndex = StepIndex(stepId: string, sequenceNo: nat)

  datatype SessionSteps = SessionSteps(sealed: bool, steps: seq<StepIndex>)

  datatype StepTrajectory = StepTrajectory(stepId: string, sequenceNo: nat, at: Option<Time>, body: string)

  datatype DataError = DataPlatformError

  function Index(view: seq<Row>): (r: seq<StepIndex>)
    ensures |r| == |view|
    ensures forall i :: 0 <= i < |view| ==> r[i] == StepIndex(StepText(view[i]), i + 1)
  {
    seq(|view|, i requires 0 <= i < |view| => StepIndex(StepText(view[i]), i + 1))
  }

  predicate Sealed(rows: seq<Row>) {
    exists i :: 0 <= i < |rows| && IsSealingRow(rows[i])
  }

  function RowTimeOf(r: Row): Result<Option<Time>, DataError> {
    match r.time
    case At(t) => Ok(Some(t))
    case NoTime => Ok(None)
    case Unreadable => Err(DataPlatformError)
  }

  /** Rows that end a session: completed or terminal ones, and those the environment writes when it is over. */
  predicate EndsSession(r: Row) {
    !(r.completed || r.terminal || r.metaCompleted) ==>
      r.event in {SessionClose, EpisodeSummary, EvaluationSummary}
  }

  lemma SealedIffEnded(rows: seq<Row>)
    ensures Sealed(rows) <==> exists x :: x in rows && EndsSession(x)
  {
    if Sealed(rows) {
      var i :| 0 <= i < |rows| && IsSealingRow(rows[i]);
      assert rows[i] in rows && EndsSession(rows[i]);
    }
    if x :| x in rows && EndsSession(x) {
      var i :| 0 <= i < |rows| && rows[i] == x;
      assert IsSealingRow(rows[i]);
    }
  }

  /** No answer for a session without rows. */
  method GetSteps(rows: seq<Row>) returns (r: Option<SessionSteps>)
    ensures r == if rows == [] then None else Some(SessionSteps(Sealed(rows), Index(TrajectoryView(rows))))
    ensures r.Some? ==> (r.value.sealed <==> exists x :: x in rows && EndsSession(x))
  {
    if rows == [] {
      return None;
    }
    var steps := TrajectoryRows(rows);
    var sealed := false;
    for n := 0 to |rows|
      invariant sealed <==> exists i :: 0 <= i < n && IsSealingRow(rows[i])
    {
      if IsSealingRow(rows[n]) {
        sealed := true;
      }
    }
    SealedIffEnded(rows);
    return Some(SessionSteps(sealed, Index(steps)));
  }

  /** The trajectory of a listed step, its number included; an unreadable time is an error. */
  function Lookup(view: seq<Row>, stepId: string): Result<Option<StepTrajectory>, DataError> {
    var k := Find(view, stepId);
    if k == |view| then Ok(None)
    else
      match RowTimeOf(view[k])
      case Err(e) => Err(e)
      case Ok(at) => Ok(Some(StepTrajectory(stepId, k + 1, at, view[k].body)))
  }

  /** A row that may answer for a step: no row of that step is newer. */
  ghost predicate ShownFor(rows: seq<Row>, stepId: string, e: Row) {
    Newest(rows, e) && StepText(e) == stepId
  }

  method GetTrajectory(rows: seq<Row>, stepId: string) returns (r: Result<Option<StepTrajectory>, DataError>)
    ensures r == Lookup(TrajectoryView(rows), stepId)
    ensures r.Ok? && r.value.Some? ==> exists e :: ShownFor(rows, stepId, e) && r.value.value.body == e.body
    ensures r == Ok(None) ==> forall e :: e in rows && ShowsWork(e) ==> StepText(e) != stepId
  {
    var steps := TrajectoryRows(rows);
    for n := 0 to |steps|
      invariant forall j :: 0 <= j < n ==> StepText(steps[j]) != stepId
    {
      if StepText(steps[n]) == stepId {
        assert Find(steps, stepId) == n;
        assert ShownFor(rows, stepId, steps[n]);
        match RowTimeOf(steps[n])
        case Err(e) => return Err(e);
        case Ok(at) => return Ok(Some(StepTrajectory(stepId, n + 1, at, steps[n].body)));
      }
    }
    assert Find(steps, stepId) == |steps|;
    ListedIffWorked(rows, stepId);
    return Ok(None);
  }

  /**
   Index and lookup agree: listed step ids are distinct and numbered from one, the lookup of a
   listed id returns a newest row of that step under the same number, or fails on its unreadable time,
   and no other id is found.
   */
  lemma IndexAndLookupAgree(rows: seq<Row>, stepId: string)
    ensures var view := TrajectoryView(rows);
            var index := Index(view);
            && (forall i, j :: 0 <= i < j < |index| ==> index[i].stepId != index[j].stepId)
            && (forall i :: 0 <= i < |index| && index[i].stepId == stepId ==>
                  && index[i].sequenceNo == i + 1
                  && view[i] in rows && IsTrajectoryRow(view[i])
                  && (forall r :: r in rows && IsTrajectoryRow(r) && StepText(r) == stepId ==> !KeyBefore(view[i], r))
                  && match RowTimeOf(view[i])
                     case Err(e) => Lookup(view, stepId) == Err(e)
                     case Ok(at) => Lookup(view, stepId) == Ok(Some(StepTrajectory(stepId, i + 1, at, view[i].body))))
            && ((forall i :: 0 <= i < |index| ==> index[i].stepId != stepId) ==> Lookup(view, stepId) == Ok(None))
            && ((exists i :: 0 <= i < |index| && index[i].stepId == stepId) <==>
                exists r :: r in rows && IsTrajectoryRow(r) && StepText(r) == stepId)
  {
    ViewIsFaithful(rows);
    var view := TrajectoryView(rows);
    var index := Index(view);
    forall i | 0 <= i < |index| && index[i].stepId == stepId
      ensures Find(view, stepId) == i
      ensures view[i] in rows && IsTrajectoryRow(view[i])
      ensures forall r :: r in rows && IsTrajectoryRow(r) && StepText(r) == stepId ==> !KeyBefore(view[i], r)
    {
      ListedIsNewest(rows, view, i);
    }
    ListedOrUnknown(rows, view, stepId);
  }

  lemma ListedOrUnknown(rows: seq<Row>, view: seq<Row>, stepId: string)
    requires Represents(rows, view)
    ensures var index := Index(view);
            && ((forall i :: 0 <= i < |index| ==> index[i].stepId != stepId) ==> Lookup(view, stepId) == Ok(None))
            && ((exists i :: 0 <= i < |index| && index[i].stepId == stepId) <==>
                exists r :: r in rows && IsTrajectoryRow(r) && StepText(r) == stepId)
  {
    var index := Index(view);
    if r :| r in rows && IsTrajectoryRow(r) && StepText(r) == stepId {
      var k := CoveringPosition(rows, view, r);
      assert index[k].stepId == stepId;
    }
    if i :| 0 <= i < |index| && index[i].stepId == stepId {
      assert view[i] in view && StepText(view[i]) == stepId;
    }
    var k := Find(view, stepId);
    if k < |view| {
      assert index[k].stepId == stepId;
    }
  }

  lemma CoveringPosition(rows: seq<Row>, view: seq<Row>, r: Row) returns (k: nat)
    requires Represents(rows, view) && r in rows && IsTrajectoryRow(r)
    ensures k < |view| && StepText(view[k]) == StepText(r) && !KeyBefore(view[k], r)
  {
    assert Covered(r, view);
    k :| 0 <= k < |view| && StepText(view[k]) == StepText(r) && !KeyBefore(view[k], r);
  }

  lemma ListedIsNewest(rows: seq<Row>, view: seq<Row>, i: nat)
    requires Represents(rows, view) && i < |view|
    ensures Find(view, StepText(view[i])) == i && view[i] in rows && IsTrajectoryRow(view[i])
    ensures forall r :: r in rows && IsTrajectoryRow(r) && StepText(r) == StepText(view[i]) ==> !KeyBefore(view[i], r)
  {
    assert view[i] in view;
    forall r | r in rows && IsTrajectoryRow(r) && StepText(r) == StepText(view[i]) ensures !KeyBefore(view[i], r) {
      var k := CoveringPosition(rows, view, r);
      assert k == i;
    }
  }
}
