/**
 A failed job has failed for the reason its row gives: deadlines named there have passed, and
 platform states named there were stored.
 */
module JobReasons {
  import opened Wrappers
  import opened ControlStore
  import opened Platform
  import opened JobMachine
  import opened JobInvariant
  import opened JobTraces
  import opened JobTheorems

  predicate GatewayOverdue(cfg: Config, row: ControlJob, now: Time) {
    row.createdAt + cfg.gatewayReadyTimeout * MICROS_PER_SECOND < now
  }

  predicate ControllerOverdue(cfg: Config, row: ControlJob, now: Time) {
    row.startedAt.Some? && row.startedAt.value + cfg.controllerTimeout * MICROS_PER_SECOND < now
  }

  /** What a failure reason says about the row, at this time. */
  predicate Grounds(cfg: Config, row: ControlJob, now: Time, why: FailureReason) {
    match why
    case FileBindingFailed => row.binding.None?
    case GatewayRJobFailed => row.gatewayStatus in {Some(RJobFailed), Some(RJobCancelled), Some(RJobSucceeded)}
    case GatewayLostDuringRun => row.controllerId.Some?
    case GatewayReadyTimeout => row.controllerId.None? && GatewayOverdue(cfg, row, now)
    case GatewayHealthTimeout => row.controllerId.None? && GatewayOverdue(cfg, row, now)
    case GatewayAddressChanged => row.gatewayUrl.Some?
    case EpisodeResultsIncomplete => row.controllerStatus == Some(RJobSucceeded)
    case SafactoryRJobFailed => row.controllerStatus in {Some(RJobFailed), Some(RJobCancelled)}
    case SafactoryRJobTimeout => ControllerOverdue(cfg, row, now)
    case UnavailableDependency =>
      if row.controllerId.Some? then ControllerOverdue(cfg, row, now) else GatewayOverdue(cfg, row, now)
    case InternalOrchestrationError => true
  }

  /** A failed row, to the millisecond its timestamps keep. */
  ghost predicate Grounded(cfg: Config, row: ControlJob) {
    (row.status == Failed ==>
       row.reason.Some? && row.completedAt.Some?
       && Grounds(cfg, row, row.completedAt.value + MICROS_PER_MILLI, row.reason.value)) == true
  }

  /** The failure procedure is under way for a good reason. */
  ghost predicate Failing(cfg: Config, s: Core, now: Time) {
    (&& (s.pc.FailRead? && s.row.status != Failed ==> Grounds(cfg, s.row, now, s.pc.why))
     && (s.pc.FailWrite? ==> Grounds(cfg, s.row, now, s.pc.why))
     && (s.pc.Log? ==> !After(s.pc).FailRead? && !After(s.pc).FailWrite?)) == true
  }

  ghost predicate ReasonInv(cfg: Config, s: Core, now: Time) {
    (Grounded(cfg, s.row) && Failing(cfg, s, now)) == true
  }

  /** Columns the reasons speak of. */
  ghost predicate SameGrounds(a: ControlJob, b: ControlJob) {
    && a.binding == b.binding && a.gatewayStatus == b.gatewayStatus && a.gatewayUrl == b.gatewayUrl
    && a.controllerId == b.controllerId && a.controllerStatus == b.controllerStatus
    && a.createdAt == b.createdAt && a.startedAt == b.startedAt
  }

  lemma GroundsStay(cfg: Config, a: ControlJob, b: ControlJob, now: Time, later: Time, why: FailureReason)
    requires Grounds(cfg, a, now, why) && SameGrounds(a, b) && now <= later
    ensures Grounds(cfg, b, later, why)
  {
  }

  lemma FailedRowsStay(cfg: Config, a: ControlJob, b: ControlJob)
    requires Grounded(cfg, a) && SameGrounds(a, b) && b.reason == a.reason && b.completedAt == a.completedAt
    requires b.status == Failed ==> a.status == Failed
    ensures Grounded(cfg, b)
  {
    if b.status == Failed {
      var at := a.completedAt.value + MICROS_PER_MILLI;
      GroundsStay(cfg, a, b, at, at, a.reason.value);
    }
  }

  // --- Steps -------------------------------------------------------------------------------------

  lemma MarkingIsGrounded(cfg: Config, s: Core, now: Time, a: Answer)
    requires CoreInv(cfg, s, now) && ReasonInv(cfg, s, now) && (s.pc.BumpAttempt? || s.pc.MarkPreparing?)
    ensures ReasonInv(cfg, StepCore(cfg, s, now, a), now)
  {
    var r := StepCore(cfg, s, now, a);
    assert r.pc.Log? ==> After(r.pc) == r.pc.next;
    assert r.row.status != Failed;
  }

  lemma BindingIsGrounded(cfg: Config, s: Core, now: Time, a: Answer)
    requires CoreInv(cfg, s, now) && ReasonInv(cfg, s, now) && (s.pc.BindFiles? || s.pc.SaveBinding?)
    ensures ReasonInv(cfg, StepCore(cfg, s, now, a), now)
  {
    var r := StepCore(cfg, s, now, a);
    assert r.pc.Log? ==> After(r.pc) == r.pc.next;
    assert r.row.status != Failed;
  }

  lemma AfterBindFailureIsGrounded(cfg: Config, s: Core, now: Time, a: Answer)
    requires CoreInv(cfg, s, now) && ReasonInv(cfg, s, now) && s.pc.AfterBindFailure?
    ensures ReasonInv(cfg, StepCore(cfg, s, now, a), now)
  {
    assert StepCore(cfg, s, now, a).row == s.row;
  }

  lemma ProbingIsGrounded(cfg: Config, s: Core, now: Time, a: Answer)
    requires CoreInv(cfg, s, now) && ReasonInv(cfg, s, now) && ProbingGateway(s.pc) && !s.pc.SaveUrl?
    requires !s.pc.SaveGatewayStatus? && !s.pc.SaveHealthPhase?
    ensures ReasonInv(cfg, StepCore(cfg, s, now, a), now)
  {
    assert StepCore(cfg, s, now, a).row == s.row && s.row.status != Failed;
  }

  lemma UrlIsGrounded(cfg: Config, s: Core, now: Time, a: Answer)
    requires CoreInv(cfg, s, now) && ReasonInv(cfg, s, now) && s.pc.SaveUrl?
    ensures ReasonInv(cfg, StepCore(cfg, s, now, a), now)
  {
    var r := StepCore(cfg, s, now, a);
    assert r.pc.Log? ==> r.pc.next.CheckBeforeController? && After(r.pc) == r.pc.next;
    assert r.row.status == s.row.status && s.row.status != Failed;
  }

  lemma ReportIsGrounded(cfg: Config, s: Core, now: Time, a: Answer)
    requires CoreInv(cfg, s, now) && ReasonInv(cfg, s, now) && (s.pc.SaveGatewayStatus? || s.pc.SaveHealthPhase?)
    ensures ReasonInv(cfg, StepCore(cfg, s, now, a), now)
  {
    var r := StepCore(cfg, s, now, a);
    assert !r.pc.Log? && r.row.status != Failed;
  }

  lemma CreatingIsGrounded(cfg: Config, s: Core, now: Time, a: Answer)
    requires CoreInv(cfg, s, now) && ReasonInv(cfg, s, now) && (s.pc.CreateGateway? || s.pc.CreateController?)
    ensures ReasonInv(cfg, StepCore(cfg, s, now, a), now)
  {
    assert StepCore(cfg, s, now, a).row == s.row && s.row.status != Failed;
  }

  lemma GatewayIsGrounded(cfg: Config, s: Core, now: Time, a: Answer)
    requires CoreInv(cfg, s, now) && ReasonInv(cfg, s, now) && s.pc.SaveGateway?
    ensures ReasonInv(cfg, StepCore(cfg, s, now, a), now)
  {
    var r := StepCore(cfg, s, now, a);
    assert r.pc.Log? ==> After(r.pc) == r.pc.next && !r.pc.next.FailRead?;
    assert r.row.status != Failed;
  }

  lemma RecordingIsGrounded(cfg: Config, s: Core, now: Time, a: Answer)
    requires CoreInv(cfg, s, now) && ReasonInv(cfg, s, now) && (s.pc.SaveController? || s.pc.SaveControllerWhileClosing?)
    ensures ReasonInv(cfg, StepCore(cfg, s, now, a), now)
  {
    var r := StepCore(cfg, s, now, a);
    assert r.pc.Log? ==> After(r.pc) == r.pc.next && !r.pc.next.FailRead?;
    assert r.row.status != Failed;
  }

  lemma CleaningIsGrounded(cfg: Config, s: Core, now: Time, a: Answer)
    requires CoreInv(cfg, s, now) && ReasonInv(cfg, s, now) && CleaningUp(s.pc) && !s.pc.CleanWrite? && !s.pc.CleanSkip?
    ensures ReasonInv(cfg, StepCore(cfg, s, now, a), now)
  {
    var r := StepCore(cfg, s, now, a);
    assert r.pc.Log? ==> After(r.pc) == r.pc.next;
    assert r.row == s.row;
  }

  lemma CleanSkipIsGrounded(cfg: Config, s: Core, now: Time, a: Answer)
    requires CoreInv(cfg, s, now) && ReasonInv(cfg, s, now) && s.pc.CleanSkip?
    ensures ReasonInv(cfg, StepCore(cfg, s, now, a), now)
  {
    var r := StepCore(cfg, s, now, a);
    assert r.pc.Log? ==> After(r.pc) == r.pc.next;
    FailedRowsStay(cfg, s.row, r.row);
  }

  lemma CleanWriteIsGrounded(cfg: Config, s: Core, now: Time, a: Answer)
    requires CoreInv(cfg, s, now) && ReasonInv(cfg, s, now) && s.pc.CleanWrite?
    ensures ReasonInv(cfg, StepCore(cfg, s, now, a), now)
  {
    var r := StepCore(cfg, s, now, a);
    assert r.pc == Log(CleanupCompleted, if s.pc.closing then Log(JobClosed, Return(s.pc.caller)) else Return(s.pc.caller));
    assert After(r.pc) == After(r.pc.next) == Return(s.pc.caller);
    if s.row.status == Failed {
      FailedRowsStay(cfg, s.row, r.row);
    }
  }

  lemma FailReadIsGrounded(cfg: Config, s: Core, now: Time, a: Answer)
    requires CoreInv(cfg, s, now) && ReasonInv(cfg, s, now) && s.pc.FailRead?
    ensures ReasonInv(cfg, StepCore(cfg, s, now, a), now)
  {
  }

  lemma FailedRowIsGrounded(cfg: Config, s: Core, now: Time, r: Core)
    requires s.pc.FailWrite? && Grounds(cfg, s.row, now, s.pc.why)
    requires r == s.(row := s.row.(status := Failed, phase := CleaningRJobs, reason := Some(s.pc.why), cleanup := true,
                                   completedAt := Some(Stamp(now)), updatedAt := Stamp(now), version := s.row.version + 1),
                     pc := Log(JobFailed, CleanRead(s.pc.caller)))
    ensures ReasonInv(cfg, r, now)
  {
    assert After(r.pc) == r.pc.next;
    GroundsStay(cfg, s.row, r.row, now, Stamp(now) + MICROS_PER_MILLI, s.pc.why);
  }

  lemma FailWriteIsGrounded(cfg: Config, s: Core, now: Time, a: Answer)
    requires CoreInv(cfg, s, now) && ReasonInv(cfg, s, now) && s.pc.FailWrite?
    ensures ReasonInv(cfg, StepCore(cfg, s, now, a), now)
  {
    var r := StepCore(cfg, s, now, a);
    if s.row.status == Closing {
      assert r == s.(pc := Return(s.pc.caller));
    } else {
      FailedRowIsGrounded(cfg, s, now, r);
    }
  }

  lemma OthersAreGrounded(cfg: Config, s: Core, now: Time, a: Answer)
    requires CoreInv(cfg, s, now) && ReasonInv(cfg, s, now)
    requires s.pc.CheckBeforeController? || s.pc.PollController? || s.pc.OnDependencyError?
    ensures ReasonInv(cfg, StepCore(cfg, s, now, a), now)
  {
    var r := StepCore(cfg, s, now, a);
    assert r.row == s.row && s.row.status != Failed && !r.pc.Log?;
  }

  lemma SucceedIsGrounded(cfg: Config, s: Core, now: Time, a: Answer)
    requires CoreInv(cfg, s, now) && ReasonInv(cfg, s, now) && s.pc.Succeed?
    ensures ReasonInv(cfg, StepCore(cfg, s, now, a), now)
  {
    var r := StepCore(cfg, s, now, a);
    assert r.row.status != Failed && (r.pc == Idle || r.pc == Log(JobSucceeded, Idle));
  }

  lemma StatusIsGrounded(cfg: Config, s: Core, now: Time, episodes: Episodes, g: Snapshot, c: Snapshot)
    requires CoreInv(cfg, s, now) && ReasonInv(cfg, s, now) && s.pc == SaveControllerStatus(episodes, g, c)
    ensures ReasonInv(cfg, StepSaveControllerStatus(cfg, s, now, episodes, g, c), now)
  {
    var r := StepSaveControllerStatus(cfg, s, now, episodes, g, c);
    assert r.pc.Log? ==> After(r.pc) == r.pc.next;
    assert r.row.status != Failed;
  }

  lemma JudgingIsGrounded(cfg: Config, s: Core, now: Time, a: Answer)
    requires CoreInv(cfg, s, now) && ReasonInv(cfg, s, now) && s.pc.SaveControllerStatus?
    ensures ReasonInv(cfg, StepCore(cfg, s, now, a), now)
  {
    StatusIsGrounded(cfg, s, now, s.pc.episodes, s.pc.g, s.pc.c);
  }

  lemma StepIsGrounded(cfg: Config, s: Core, now: Time, a: Answer)
    requires CoreInv(cfg, s, now) && ReasonInv(cfg, s, now)
    ensures ReasonInv(cfg, StepCore(cfg, s, now, a), now)
  {
    if s.pc.Log? {
      assert After(s.pc) == After(s.pc.next);
    } else if s.pc.AfterBindFailure? {
      AfterBindFailureIsGrounded(cfg, s, now, a);
    } else if s.pc.BumpAttempt? || s.pc.MarkPreparing? {
      MarkingIsGrounded(cfg, s, now, a);
    } else if BindingFiles(s.pc) {
      BindingIsGrounded(cfg, s, now, a);
    } else if ProbingGateway(s.pc) {
      if s.pc.SaveUrl? {
        UrlIsGrounded(cfg, s, now, a);
      } else if s.pc.SaveGatewayStatus? || s.pc.SaveHealthPhase? {
        ReportIsGrounded(cfg, s, now, a);
      } else {
        ProbingIsGrounded(cfg, s, now, a);
      }
    } else if s.pc.CreateGateway? || s.pc.CreateController? {
      CreatingIsGrounded(cfg, s, now, a);
    } else if s.pc.SaveGateway? {
      GatewayIsGrounded(cfg, s, now, a);
    } else if CreatingRJobs(s.pc) {
      RecordingIsGrounded(cfg, s, now, a);
    } else if s.pc.CleanWrite? {
      CleanWriteIsGrounded(cfg, s, now, a);
    } else if s.pc.CleanSkip? {
      CleanSkipIsGrounded(cfg, s, now, a);
    } else if CleaningUp(s.pc) {
      CleaningIsGrounded(cfg, s, now, a);
    } else if s.pc.FailRead? {
      FailReadIsGrounded(cfg, s, now, a);
    } else if s.pc.FailWrite? {
      FailWriteIsGrounded(cfg, s, now, a);
    } else if s.pc.SaveControllerStatus? {
      JudgingIsGrounded(cfg, s, now, a);
    } else if s.pc.Succeed? {
      SucceedIsGrounded(cfg, s, now, a);
    } else if !s.pc.Idle? && !s.pc.Escaped? {
      OthersAreGrounded(cfg, s, now, a);
    }
  }

  lemma TickIsGrounded(cfg: Config, s: Core, now: Time, later: Time)
    requires ReasonInv(cfg, s, now) && now <= later
    ensures ReasonInv(cfg, s, later)
  {
    if s.pc.FailRead? && s.row.status != Failed {
      GroundsStay(cfg, s.row, s.row, now, later, s.pc.why);
    }
    if s.pc.FailWrite? {
      GroundsStay(cfg, s.row, s.row, now, later, s.pc.why);
    }
  }

  lemma CloseIsGrounded(cfg: Config, s: JobState)
    requires ReasonInv(cfg, s.core, s.now)
    ensures ReasonInv(cfg, StepClose(s).core, s.now)
  {
    var row := StepClose(s).core.row;
    FailedRowsStay(cfg, s.core.row, row);
    if s.core.pc.FailRead? && s.core.row.status != Failed {
      GroundsStay(cfg, s.core.row, row, s.now, s.now, s.core.pc.why);
    }
    if s.core.pc.FailWrite? {
      GroundsStay(cfg, s.core.row, row, s.now, s.now, s.core.pc.why);
    }
  }

  lemma NextIsGrounded(cfg: Config, s: JobState, i: Input)
    requires AllInv(cfg, s) && ReasonInv(cfg, s.core, s.now)
    ensures ReasonInv(cfg, Next(cfg, s, i).core, Next(cfg, s, i).now)
  {
    assert CoreInv(cfg, s.core, s.now);
    match i
    case Advance(a) => StepIsGrounded(cfg, s.core, s.now, a);
    case CloseRequest => CloseIsGrounded(cfg, s);
    case Tick(d) => TickIsGrounded(cfg, s.core, s.now, s.now + d);
    case _ => assert Next(cfg, s, i).core.row == s.core.row && Next(cfg, s, i).now == s.now;
  }

  lemma {:induction false} RunIsGrounded(cfg: Config, s: JobState, inputs: seq<Input>)
    requires AllInv(cfg, s) && ReasonInv(cfg, s.core, s.now)
    ensures Grounded(cfg, Run(cfg, s, inputs).core.row)
    decreases |inputs|
  {
    if inputs != [] {
      NextKeepsAll(cfg, s, inputs[0]);
      NextIsGrounded(cfg, s, inputs[0]);
      RunIsGrounded(cfg, Next(cfg, s, inputs[0]), inputs[1..]);
    }
  }

  /**
   Failures are true: whatever happened, a failed row names a reason that its columns bear out.  No
   job fails for a deadline before that deadline, or for a platform state that was not stored.
   */
  lemma FailuresAreTrue(cfg: Config, jobId: string, rangeId: string, now: Time, inputs: seq<Input>)
    ensures var row := Run(cfg, Init(jobId, rangeId, now), inputs).core.row;
            row.status == Failed ==>
              row.reason.Some? && row.completedAt.Some?
              && Grounds(cfg, row, row.completedAt.value + MICROS_PER_MILLI, row.reason.value)
  {
    InitHoldsAll(cfg, jobId, rangeId, now);
    RunIsGrounded(cfg, Init(jobId, rangeId, now), inputs);
    assert Grounded(cfg, Run(cfg, Init(jobId, rangeId, now), inputs).core.row);
  }
}
