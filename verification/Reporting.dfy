/**
 What clients are told: the session result drawn from landing rows, merged with the status of
 the job, and the two operations by which clients create and close jobs.
 */
module Reporting {
  import opened Wrappers
  import opened ControlStore
  import opened Landing
  import opened LandingViews
  import opened LandingOrder
  import JobMachine
  import JobTheorems
  import Platform

  datatype ResultStatus = SessionPending | SessionRunning | SessionSucceeded | SessionFailed

  datatype SessionResult = SessionResult(
    status: ResultStatus,
    score: Option<real>,
    completedAt: Option<Time>,
    payload: Option<string>,
    error: Option<string>,
    retryAfter: Option<nat>)

  // --- The result in the landing rows ------------------------------------------------------------

  function Completed(rows: seq<Row>): (r: seq<Row>)
    ensures forall x :: x in r <==> x in rows && x.completed
  {
    if rows == [] then [] else (if rows[0].completed then [rows[0]] else []) + Completed(rows[1..])
  }

  function Rewarded(rows: seq<Row>): (r: seq<Row>)
    ensures forall x :: x in r <==> x in rows && !x.reward.NoReward?
  {
    if rows == [] then [] else (if rows[0].reward.NoReward? then [] else [rows[0]]) + Rewarded(rows[1..])
  }

  /** The first of the rows with the greatest key. */
  function Greatest(rows: seq<Row>): (r: Row)
    requires rows != []
    ensures r in rows
  {
    if |rows| == 1 then rows[0]
    else
      var best := Greatest(rows[..|rows| - 1]);
      if KeyBefore(best, rows[|rows| - 1]) then rows[|rows| - 1] else best
  }

  function Plain(status: ResultStatus, completedAt: Option<Time>): SessionResult {
    SessionResult(status, None, completedAt, None, None, None)
  }

  /** No rows, no session; the newest rewarded row decides, then the newest completed one. */
  function LandingResult(rows: seq<Row>): Result<Option<SessionResult>, DataError> {
    var completed := Completed(rows);
    var rewarded := Rewarded(completed);
    if rows == [] then Ok(None)
    else if rewarded != [] then
      var final := Greatest(rewarded);
      if final.reward.NotFinite? || !final.time.At? then Err(DataPlatformError)
      else Ok(Some(Plain(SessionSucceeded, Some(final.time.t)).(score := Some(final.reward.value))))
    else if completed != [] then
      match RowTimeOf(Greatest(completed))
      case Err(e) => Err(e)
      case Ok(at) => Ok(Some(Plain(SessionFailed, at)))
    else Ok(Some(Plain(SessionRunning, None)))
  }

  lemma {:induction false} GreatestIsGreatest(rows: seq<Row>, r: Row)
    requires r in rows
    ensures !KeyBefore(Greatest(rows), r)
  {
    KeysAreOrdered(r, r);
    if |rows| > 1 {
      var front, last := rows[..|rows| - 1], rows[|rows| - 1];
      KeysAreOrdered(Greatest(front), last);
      if r in front {
        GreatestIsGreatest(front, r);
        if KeyBefore(Greatest(front), last) {
          KeyBeforeTransitive(r, Greatest(front), last);
        }
      }
    }
  }

  lemma GreatestIgnoresOrder(rows: seq<Row>, a: seq<Row>, b: seq<Row>)
    requires DistinctIds(rows) && a != [] && b != [] && SameRows(a, b) && forall r :: r in a ==> r in rows
    ensures Greatest(a) == Greatest(b)
  {
    GreatestIsGreatest(a, Greatest(b));
    GreatestIsGreatest(b, Greatest(a));
    TiedRowsAreEqual(rows, Greatest(a), Greatest(b));
  }

  /** With distinct row ids the result does not depend on the order or repetition of rows. */
  lemma ResultIgnoresOrder(a: seq<Row>, b: seq<Row>)
    requires SameRows(a, b) && DistinctIds(a)
    ensures LandingResult(a) == LandingResult(b)
  {
    var ca, cb := Completed(a), Completed(b);
    var ra, rb := Rewarded(ca), Rewarded(cb);
    EmptyHasNone(a);
    EmptyHasNone(b);
    EmptyHasNone(ca);
    EmptyHasNone(cb);
    EmptyHasNone(ra);
    EmptyHasNone(rb);
    if ra != [] {
      GreatestIgnoresOrder(a, ra, rb);
    } else if ca != [] {
      GreatestIgnoresOrder(a, ca, cb);
    }
  }

  /** The rows that decide the result: the rewarded ones, or else the completed ones. */
  function Deciding(rows: seq<Row>): (d: seq<Row>)
    ensures forall r :: r in d ==> r in rows && r.completed
  {
    if Rewarded(Completed(rows)) != [] then Rewarded(Completed(rows)) else Completed(rows)
  }

  /** What a deciding row says. */
  function Verdict(r: Row): Result<Option<SessionResult>, DataError> {
    if r.reward.NoReward? then
      match RowTimeOf(r)
      case Err(e) => Err(e)
      case Ok(at) => Ok(Some(Plain(SessionFailed, at)))
    else if r.reward.NotFinite? || !r.time.At? then Err(DataPlatformError)
    else Ok(Some(Plain(SessionSucceeded, Some(r.time.t)).(score := Some(r.reward.value))))
  }

  /** A deciding row that none precedes. */
  ghost predicate Top(rows: seq<Row>, r: Row) {
    r in Deciding(rows) && forall q :: q in Deciding(rows) ==> !KeyBefore(r, q)
  }

  lemma TopDecides(rows: seq<Row>)
    requires Deciding(rows) != []
    ensures Top(rows, Greatest(Deciding(rows))) && LandingResult(rows) == Verdict(Greatest(Deciding(rows)))
  {
    var d := Deciding(rows);
    forall q | q in d ensures !KeyBefore(Greatest(d), q) {
      GreatestIsGreatest(d, q);
    }
    EmptyHasNone(Rewarded(Completed(rows)));
  }

  lemma SameDeciding(a: seq<Row>, b: seq<Row>)
    requires SameRows(a, b)
    ensures SameRows(Deciding(a), Deciding(b)) && (Deciding(a) == [] <==> Deciding(b) == [])
  {
    EmptyHasNone(Rewarded(Completed(a)));
    EmptyHasNone(Rewarded(Completed(b)));
    EmptyHasNone(Deciding(a));
    EmptyHasNone(Deciding(b));
  }

  lemma {:induction false} FirstWins(r: Row, d: seq<Row>)
    requires forall q :: q in d ==> !KeyBefore(r, q)
    ensures Greatest([r] + d) == r
    decreases |d|
  {
    if d != [] {
      var rows := [r] + d;
      assert rows[..|rows| - 1] == [r] + d[..|d| - 1] && rows[|rows| - 1] == d[|d| - 1];
      FirstWins(r, d[..|d| - 1]);
    }
  }

  lemma PutFirst(rows: seq<Row>, r: Row)
    requires Top(rows, r)
    ensures SameRows(rows, [r] + rows) && LandingResult([r] + rows) == Verdict(r)
  {
    var more := [r] + rows;
    assert more[0] == r && more[1..] == rows;
    EmptyHasNone(Rewarded(Completed(rows)));
    assert Completed(more) == [r] + Completed(rows);
    assert Completed(more)[0] == r && Completed(more)[1..] == Completed(rows);
    assert Deciding(more) == [r] + Deciding(rows);
    FirstWins(r, Deciding(rows));
    TopDecides(more);
  }

  /** The result does not depend on order and repetition of rows if and only if all top rows say the same. */
  lemma ResultIgnoresOrderIffTopsAgree(rows: seq<Row>)
    ensures TopsAgree(rows) <==> forall b :: SameRows(rows, b) ==> LandingResult(b) == LandingResult(rows)
  {
    if TopsAgree(rows) {
      forall b | SameRows(rows, b) ensures LandingResult(b) == LandingResult(rows) {
        AgreedTopsDecide(rows, b);
      }
    } else {
      var b := DisagreeingTopsShow(rows);
    }
  }

  lemma DisagreeingTopsShow(rows: seq<Row>) returns (b: seq<Row>)
    requires !TopsAgree(rows)
    ensures SameRows(rows, b) && LandingResult(b) != LandingResult(rows)
  {
    var r, q :| Top(rows, r) && Top(rows, q) && Verdict(r) != Verdict(q);
    PutFirst(rows, r);
    PutFirst(rows, q);
    b := if LandingResult(rows) == Verdict(r) then [q] + rows else [r] + rows;
  }

  ghost predicate TopsAgree(rows: seq<Row>) {
    forall r, q :: Top(rows, r) && Top(rows, q) ==> Verdict(r) == Verdict(q)
  }

  lemma AgreedTopsDecide(rows: seq<Row>, b: seq<Row>)
    requires TopsAgree(rows) && SameRows(rows, b)
    ensures LandingResult(b) == LandingResult(rows)
  {
    EmptyHasNone(rows);
    EmptyHasNone(b);
    SameDeciding(rows, b);
    if Deciding(rows) != [] {
      TopDecides(rows);
      TopDecides(b);
      assert Top(rows, Greatest(Deciding(b)));
    } else {
      NothingDecides(rows);
      NothingDecides(b);
    }
  }

  lemma NothingDecides(rows: seq<Row>)
    requires Deciding(rows) == []
    ensures LandingResult(rows) == if rows == [] then Ok(None) else Ok(Some(Plain(SessionRunning, None)))
  {
  }

  // --- Which row speaks --------------------------------------------------------------------------

  /** A completed row, rewarded if asked for, that no other such row is newer than. */
  ghost predicate NewestCompleted(rows: seq<Row>, rewarded: bool, r: Row) {
    && r in rows && r.completed && (rewarded ==> !r.reward.NoReward?)
    && forall q :: q in rows && q.completed && (rewarded ==> !q.reward.NoReward?) ==> NotNewer(q, r)
  }

  ghost predicate Rewards(r: Row, result: SessionResult) {
    r.reward.Score? && result.score == Some(r.reward.value) && r.time.At? && result.completedAt == Some(r.time.t)
  }

  /** The completed row that speaks for a session without rewards. */
  ghost predicate Ends(r: Row, result: SessionResult) {
    result.score.None? && result.completedAt == (if r.time.At? then Some(r.time.t) else None) && !r.time.Unreadable?
  }

  /** What the rows of a session let a client read off its result. */
  ghost predicate SpokenFor(rows: seq<Row>, result: SessionResult) {
    match result.status
    case SessionSucceeded => exists r :: NewestCompleted(rows, true, r) && Rewards(r, result)
    case SessionFailed =>
      && (forall q :: q in rows && q.completed ==> q.reward.NoReward?)
      && exists r :: NewestCompleted(rows, false, r) && Ends(r, result)
    case SessionRunning => forall q :: q in rows ==> !q.completed
    case SessionPending => false
  }

  lemma DeciderIsNewest(rows: seq<Row>)
    requires Completed(rows) != []
    ensures var rewarded := Rewarded(Completed(rows));
            NewestCompleted(rows, rewarded != [], Greatest(if rewarded != [] then rewarded else Completed(rows)))
  {
    var completed, rewarded := Completed(rows), Rewarded(Completed(rows));
    var d := if rewarded != [] then rewarded else completed;
    forall q | q in d ensures NotNewer(q, Greatest(d)) {
      GreatestIsGreatest(d, q);
      KeysTellAge(Greatest(d), q);
    }
  }

  /**
   The newest row speaks: a rewarded session takes score and time from a newest completed row with a reward, a session
   completed without rewards takes its time from a newest completed row, and any other session is running.
   */
  lemma TheNewestRowSpeaks(rows: seq<Row>)
    ensures var data := LandingResult(rows);
            data.Ok? ==> (data.value.None? <==> rows == []) && (data.value.Some? ==> SpokenFor(rows, data.value.value))
  {
    var completed, rewarded := Completed(rows), Rewarded(Completed(rows));
    EmptyHasNone(completed);
    EmptyHasNone(rewarded);
    var data := LandingResult(rows);
    if completed != [] && data.Ok? {
      DeciderIsNewest(rows);
      var r := Greatest(if rewarded != [] then rewarded else completed);
      if rewarded != [] {
        assert NewestCompleted(rows, true, r) && Rewards(r, data.value.value);
      } else {
        assert NewestCompleted(rows, false, r) && Ends(r, data.value.value);
      }
    }
  }

  /** A result that cannot change any more comes from a sealed session. */
  lemma FinalSessionsAreSealed(rows: seq<Row>)
    ensures var data := LandingResult(rows);
            data.Ok? && data.value.Some? && data.value.value.status != SessionRunning ==> Sealed(rows)
  {
    var completed := Completed(rows);
    if completed != [] {
      assert completed[0] in rows && IsSealingRow(completed[0]);
    }
  }

  // --- Merged with the job -----------------------------------------------------------------------

  function ReconcileWithJob(result: SessionResult, status: JobStatus): SessionResult {
    if result.status != SessionPending && result.status != SessionRunning then result
    else
      match status
      case Failed => Plain(SessionFailed, None).(error := Some("JOB_EXECUTION_FAILED"))
      case Closed => Plain(SessionFailed, None).(error := Some("SESSION_CANCELLED"))
      case Succeeded => Plain(SessionFailed, None).(error := Some("SESSION_RESULT_INCOMPLETE"))
      case Queued => Plain(SessionPending, None)
      case Preparing => Plain(SessionPending, None)
      case _ => Plain(SessionRunning, None)
  }

  datatype RangeAnswer = RangeUnreadable | NoRange | GroupCountNotOne | OneGroup(artifact: Option<string>)

  datatype ArtifactAnswer = ArtifactUnreadable | ArtifactRead(payload: Option<string>)

  datatype DomainError = DependencyUnavailable | SessionNotFound | InvalidRequest | JobNotFound | Unhandled

  /** Everything outside the control store that one answer depends on. */
  datatype Surroundings = Surroundings(range: RangeAnswer, safeName: bool, artifact: ArtifactAnswer, retryAfter: nat)

  function WithArtifact(job: ControlJob, result: SessionResult, env: Surroundings): Result<SessionResult, DomainError> {
    match env.range
    case OneGroup(None) => Ok(result)
    case OneGroup(Some(_)) =>
      if !env.safeName then Err(InvalidRequest)
      else if job.binding.Some? && env.artifact.ArtifactUnreadable? then Err(DependencyUnavailable)
      else
        var payload := if job.binding.Some? then env.artifact.payload else None;
        if payload.None? && result.status == SessionSucceeded then Err(DependencyUnavailable)
        else Ok(result.(payload := payload))
    case _ => Err(DependencyUnavailable)
  }

  function WithRetry(result: SessionResult, env: Surroundings): SessionResult {
    if result.status == SessionPending || result.status == SessionRunning then result.(retryAfter := Some(env.retryAfter))
    else result
  }

  function GetResult(job: ControlJob, rows: seq<Row>, env: Surroundings): Result<SessionResult, DomainError> {
    match LandingResult(rows)
    case Err(_) => Err(DependencyUnavailable)
    case Ok(None) => Err(SessionNotFound)
    case Ok(Some(result)) =>
      match WithArtifact(job, ReconcileWithJob(result, job.status), env)
      case Err(e) => Err(e)
      case Ok(answer) => Ok(WithRetry(answer, env))
  }

  /**
   The payload of an answer is what was read from the artifact of the only group of the range, for a bound job with
   a safe session name; no answer succeeds without the payload its group promises.
   */
  lemma PayloadsComeFromTheArtifact(job: ControlJob, rows: seq<Row>, env: Surroundings)
    ensures var r := GetResult(job, rows, env);
            r.Ok? ==>
              && env.range.OneGroup?
              && (r.value.payload.Some? ==> env.range.artifact.Some? && env.safeName && job.binding.Some?)
              && (env.range.artifact.Some? && job.binding.Some? ==> env.artifact == ArtifactRead(r.value.payload))
              && (env.range.artifact.Some? && r.value.status == SessionSucceeded ==> r.value.payload.Some?)
  {
    var data := LandingResult(rows);
    if data.Ok? && data.value.Some? {
      assert data.value.value.payload.None?;
    }
  }

  /** A session without a completed row tells how its job stands, and why it will not be completed. */
  lemma OpenSessionsTellTheJob(job: ControlJob, rows: seq<Row>, env: Surroundings)
    requires rows != [] && forall x :: x in rows ==> !x.completed
    ensures var r := GetResult(job, rows, env);
            r.Ok? ==>
              && (r.value.status == SessionPending <==> job.status == Queued || job.status == Preparing)
              && (r.value.status == SessionRunning <==> job.status == Running || job.status == Closing)
              && (r.value.error == Some("JOB_EXECUTION_FAILED") <==> job.status == Failed)
              && (r.value.error == Some("SESSION_CANCELLED") <==> job.status == Closed)
              && (r.value.error == Some("SESSION_RESULT_INCOMPLETE") <==> job.status == Succeeded)
              && r.value.score.None? && r.value.completedAt.None?
  {
    NothingCompleted(rows);
  }

  /** A completed session tells what its rows tell, whatever became of the job. */
  lemma CompletedSessionsIgnoreTheJob(job: ControlJob, other: ControlJob, rows: seq<Row>, env: Surroundings)
    requires (exists x :: x in rows && x.completed) && (job.binding.Some? <==> other.binding.Some?)
    ensures GetResult(job, rows, env) == GetResult(other, rows, env)
    ensures GetResult(job, rows, env).Ok? ==> GetResult(job, rows, env).value.error.None?
  {
    EmptyHasNone(Completed(rows));
    LandingHeight(rows);
  }

  /** An answer that says succeeded shows score and time of a newest completed row with a reward. */
  lemma ScoresAreTheNewest(job: ControlJob, rows: seq<Row>, env: Surroundings)
    ensures var r := GetResult(job, rows, env);
            r.Ok? && r.value.status == SessionSucceeded ==>
              exists x :: NewestCompleted(rows, true, x) && Rewards(x, r.value)
  {
    TheNewestRowSpeaks(rows);
    var r := GetResult(job, rows, env);
    if r.Ok? && r.value.status == SessionSucceeded {
      var result := LandingResult(rows).value.value;
      assert result.status == SessionSucceeded;
      var x :| NewestCompleted(rows, true, x) && Rewards(x, result);
      assert Rewards(x, r.value);
    }
  }

  /** Clients are asked to come back exactly while the answer may still change from open to final. */
  lemma RetryIffOpen(job: ControlJob, rows: seq<Row>, env: Surroundings)
    ensures var r := GetResult(job, rows, env);
            r.Ok? ==>
              && (r.value.retryAfter.Some? <==> r.value.status == SessionPending || r.value.status == SessionRunning)
              && (r.value.retryAfter.Some? ==> r.value.retryAfter.value == env.retryAfter)
  {
    var data := LandingResult(rows);
    if data.Ok? && data.value.Some? {
      assert data.value.value.retryAfter.None?;
    }
  }

  /** A session is unknown iff it has no landing row. */
  lemma UnknownIffNoRows(job: ControlJob, rows: seq<Row>, env: Surroundings)
    ensures GetResult(job, rows, env) == Err(SessionNotFound) <==> rows == []
  {
  }

  /** Pending, running, failed, succeeded: the direction in which answers may move. */
  function Height(s: ResultStatus): nat {
    match s
    case SessionPending => 0
    case SessionRunning => 1
    case SessionFailed => 2
    case SessionSucceeded => 3
  }

  /** What rows alone say only climbs when rows are added. */
  lemma LandingClimbs(rows: seq<Row>, more: seq<Row>)
    requires forall r :: r in rows ==> r in more
    ensures var a, b := LandingResult(rows), LandingResult(more);
            a.Ok? && a.value.Some? && b.Ok? ==>
              b.value.Some? && Height(a.value.value.status) <= Height(b.value.value.status)
  {
    if rows != [] {
      assert rows[0] in more;
    }
    LandingHeight(rows);
    LandingHeight(more);
    StageClimbs(rows, more);
  }

  function Stage(rows: seq<Row>): nat {
    if Rewarded(Completed(rows)) != [] then 3 else if Completed(rows) != [] then 2 else 1
  }

  lemma LandingHeight(rows: seq<Row>)
    ensures var a := LandingResult(rows);
            a.Ok? ==> (a.value.None? <==> rows == []) && (a.value.Some? ==> Height(a.value.value.status) == Stage(rows))
  {
  }

  lemma StageClimbs(rows: seq<Row>, more: seq<Row>)
    requires forall r :: r in rows ==> r in more
    ensures Stage(rows) <= Stage(more)
  {
    var completed, rewarded := Completed(rows), Rewarded(Completed(rows));
    if completed != [] {
      assert completed[0] in Completed(more);
    }
    if rewarded != [] {
      assert rewarded[0] in Rewarded(Completed(more));
    }
  }

  lemma AnswerHeight(job: ControlJob, rows: seq<Row>, env: Surroundings)
    ensures var r := GetResult(job, rows, env);
            var data := LandingResult(rows);
            r.Ok? ==> data.Ok? && data.value.Some?
                      && r.value.status == ReconcileWithJob(data.value.value, job.status).status
                      && data.value.value.status != SessionPending
  {
  }

  /** As the job moves on and rows are added, successful answers climb. */
  lemma {:induction false} AnswersClimb(first: ControlJob, second: ControlJob, rows: seq<Row>, more: seq<Row>,
                     env: Surroundings, env2: Surroundings)
    requires JobTheorems.Later(first.status, second.status)
    requires forall r :: r in rows ==> r in more
    ensures var a, b := GetResult(first, rows, env), GetResult(second, more, env2);
            a.Ok? && b.Ok? ==> Height(a.value.status) <= Height(b.value.status)
  {
    AnswerHeight(first, rows, env);
    AnswerHeight(second, more, env2);
    LandingClimbs(rows, more);
  }

  /**
   Over any run of a job and any growth of its rows, two successful answers never go back: not from
   running to pending, not from final to open, and not from succeeded to failed.
   */
  lemma ReportsNeverRetreat(cfg: Platform.Config, jobId: string, rangeId: string, now: Time,
                            before: seq<JobMachine.Input>, between: seq<JobMachine.Input>,
                            rows: seq<Row>, more: seq<Row>, env: Surroundings, env2: Surroundings)
    requires forall r :: r in rows ==> r in more
    ensures var first := JobMachine.Run(cfg, JobMachine.Init(jobId, rangeId, now), before);
            var second := JobMachine.Run(cfg, first, between);
            var a, b := GetResult(first.core.row, rows, env), GetResult(second.core.row, more, env2);
            a.Ok? && b.Ok? ==> Height(a.value.status) <= Height(b.value.status)
  {
    var s := JobMachine.Init(jobId, rangeId, now);
    JobTheorems.InitHoldsAll(cfg, jobId, rangeId, now);
    JobTheorems.RunKeepsAll(cfg, s, before);
    var first := JobMachine.Run(cfg, s, before);
    JobTheorems.RunKeepsAll(cfg, first, between);
    AnswersClimb(first.core.row, JobMachine.Run(cfg, first, between).core.row, rows, more, env, env2);
  }

  /** Failed is not the last word: a rewarded row that arrives later turns the answer into succeeded. */
  lemma FailureMayTurnIntoSuccess(job: ControlJob, rows: seq<Row>, late: Row, env: Surroundings)
    requires job.status == Failed && rows != [] && env.range == OneGroup(None)
    requires forall r :: r in rows ==> !r.completed
    requires late.completed && late.reward.Score? && late.time.At?
    ensures var a, b := GetResult(job, rows, env), GetResult(job, rows + [late], env);
            a.Ok? && a.value.status == SessionFailed && b.Ok? && b.value.status == SessionSucceeded
  {
    NothingCompleted(rows);
    OneRewarded(rows, late);
  }

  /** Succeeded is what clients are told exactly when a completed row carries a reward. */
  lemma SucceededIffRewarded(job: ControlJob, rows: seq<Row>, env: Surroundings)
    ensures var r := GetResult(job, rows, env);
            r.Ok? ==> (r.value.status == SessionSucceeded <==>
                       exists x :: x in rows && x.completed && !x.reward.NoReward?)
  {
    var rewarded := Rewarded(Completed(rows));
    AnswerHeight(job, rows, env);
    LandingHeight(rows);
    EmptyHasNone(rewarded);
    if rewarded != [] {
      assert rewarded[0] in rows && rewarded[0].completed && !rewarded[0].reward.NoReward?;
    }
  }

  /**
   Over any run of a job and any growth of its rows: of two successful answers, the first of them failed,
   the second is succeeded if and only if some completed row carries a reward by then; otherwise it is
   failed again.
   */
  lemma FailedTurnsExactlyWhenRewarded(cfg: Platform.Config, jobId: string, rangeId: string, now: Time,
                                       before: seq<JobMachine.Input>, between: seq<JobMachine.Input>,
                                       rows: seq<Row>, more: seq<Row>, env: Surroundings, env2: Surroundings)
    requires forall r :: r in rows ==> r in more
    ensures var first := JobMachine.Run(cfg, JobMachine.Init(jobId, rangeId, now), before);
            var second := JobMachine.Run(cfg, first, between);
            var a, b := GetResult(first.core.row, rows, env), GetResult(second.core.row, more, env2);
            a.Ok? && b.Ok? && a.value.status == SessionFailed ==>
              && (b.value.status == SessionSucceeded <==> exists x :: x in more && x.completed && !x.reward.NoReward?)
              && (b.value.status == SessionSucceeded || b.value.status == SessionFailed)
  {
    ReportsNeverRetreat(cfg, jobId, rangeId, now, before, between, rows, more, env, env2);
    var first := JobMachine.Run(cfg, JobMachine.Init(jobId, rangeId, now), before);
    var second := JobMachine.Run(cfg, first, between);
    SucceededIffRewarded(second.core.row, more, env2);
  }

  lemma NothingCompleted(rows: seq<Row>)
    requires rows != [] && forall r :: r in rows ==> !r.completed
    ensures LandingResult(rows) == Ok(Some(Plain(SessionRunning, None)))
  {
    EmptyHasNone(Completed(rows));
  }

  lemma OneRewarded(rows: seq<Row>, late: Row)
    requires forall r :: r in rows ==> !r.completed
    requires late.completed && late.reward.Score? && late.time.At?
    ensures LandingResult(rows + [late]) == Ok(Some(Plain(SessionSucceeded, Some(late.time.t)).(score := Some(late.reward.value))))
  {
    var rewarded := Rewarded(Completed(rows + [late]));
    EmptyHasNone(rewarded);
    assert late in rewarded;
    assert Greatest(rewarded) in rewarded && Greatest(rewarded) in rows + [late];
  }

  // --- Creating and closing jobs -----------------------------------------------------------------

  datatype CloseJobResult = CloseJobResult(status: JobStatus, updatedAt: Time, retryAfter: Option<nat>)

  class Repository {
    const store: Store
    const retryAfter: nat
    var woken: bool

    constructor (store: Store, retryAfter: nat)
      ensures this.store == store && this.retryAfter == retryAfter && !woken
    {
      this.store := store;
      this.retryAfter := retryAfter;
      woken := false;
    }

    /** A new job starts queued, is announced, and wakes the orchestrator; a taken id is an unhandled store error. */
    method CreateJob(jobId: string, rangeId: string, known: bool, now: Time) returns (r: Result<JobStatus, DomainError>)
      requires store.Valid()
      modifies store, this
      ensures store.Valid()
      ensures r == if !known then Err(DependencyUnavailable)
                   else if jobId in old(store.jobs) then Err(Unhandled) else Ok(Queued)
      ensures r.Err? ==> store.jobs == old(store.jobs) && store.events == old(store.events) && woken == old(woken)
      ensures r.Ok? ==> && woken
                        && store.jobs == old(store.jobs)[jobId := JobMachine.Init(jobId, rangeId, now).core.row]
                        && store.events == old(store.events) + [Event(jobId, JobCreated, ValidatingRequest, Stamp(now))]
    {
      if !known {
        return Err(DependencyUnavailable);
      }
      var job := NewControlJob(jobId, rangeId, now);
      var added := store.Add(job);
      if added.Err? {
        return Err(Unhandled);
      }
      store.AddEvent(jobId, JobCreated, job.phase, now);
      woken := true;
      return Ok(Queued);
    }

    /**
     The first close of an active job makes it closing and announces that; any other close leaves
     rows and events alone.  A closing job wakes the orchestrator and asks the client to come back.
     */
    method CloseJob(jobId: string, now: Time) returns (r: Result<CloseJobResult, DomainError>)
      requires store.Valid()
      modifies store, this
      ensures store.Valid()
      ensures jobId !in old(store.jobs) ==> r == Err(JobNotFound) && store.jobs == old(store.jobs)
                                            && store.events == old(store.events) && woken == old(woken)
      ensures jobId in old(store.jobs) ==>
                var (row, moved) := CloseRow(old(store.jobs)[jobId], now);
                && store.jobs == old(store.jobs)[jobId := row]
                && store.events == old(store.events)
                   + (if moved then [Event(jobId, JobCloseRequested, CleaningRJobs, Stamp(now))] else [])
                && woken == (old(woken) || row.status == Closing)
                && r == Ok(CloseJobResult(row.status, row.updatedAt,
                                          if row.status == Closing then Some(retryAfter) else None))
    {
      var known := store.Get(jobId);
      if known.None? {
        return Err(JobNotFound);
      }
      var closed := store.RequestClose(jobId, now);
      var (row, moved) := closed.value;
      if moved {
        store.AddEvent(jobId, JobCloseRequested, row.phase, now);
      }
      if row.status == Closing {
        woken := true;
      }
      return Ok(CloseJobResult(row.status, row.updatedAt, if row.status == Closing then Some(retryAfter) else None));
    }
  }
}
