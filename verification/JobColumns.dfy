/**
 What single columns of a row tell: its phase, its attempts and its times.
 */
module JobColumns {
  import opened Wrappers
  import opened ControlStore
  import opened Platform
  import opened JobMachine
  import opened JobInvariant
  import opened JobTraces
  import opened JobTheorems

  // --- Phases ------------------------------------------------------------------------------------

  /** How far an active job has come, told by the columns that are filled. */
  predicate PhaseOk(row: ControlJob) {
    match row.status
    case Queued => row.phase == ValidatingRequest
    case Preparing =>
      if row.binding.None? then row.phase == ResolvingJobFiles
      else if row.gatewayId.None? then row.phase == SubmittingGatewayRJob
      else if row.gatewayUrl.None? then row.phase == WaitingGatewayAddress || row.phase == CheckingGatewayHealth
      else row.phase == SubmittingSafactoryRJob || row.phase == CheckingGatewayHealth
    case Running => row.phase == RunningSafactory
    case Closing => row.phase == CleaningRJobs
    case Failed => row.phase == CleaningRJobs
    case Succeeded => row.phase == Completed
    case Closed => row.phase == Completed
  }

  /** A stored time is the moment, to the millisecond. */
  predicate Stamps(stored: Option<Time>, moment: Time) {
    stored.Some? && stored.value <= moment < stored.value + 1000 && stored.value % 1000 == 0
  }

  /** What one await leaves true of the phase, and what it does to attempts and times. */
  ghost predicate Columns(s: Core, now: Time, r: Core) {
    (&& (PhaseOk(s.row) ==> PhaseOk(r.row))
     && r.row.attempt == s.row.attempt + (if s.pc.BumpAttempt? then 1 else 0)
     && (Terminal(r.row.status) && !Terminal(s.row.status) ==> Stamps(r.row.completedAt, now))
     && (r.row.gatewayUrl.Some? && s.row.gatewayUrl.None? ==> Stamps(r.row.gatewayReadyAt, now))
     && (r.row.gatewayUrl == s.row.gatewayUrl ==> r.row.gatewayReadyAt == s.row.gatewayReadyAt)) == true
  }

  lemma BindingColumns(cfg: Config, s: Core, now: Time, a: Answer)
    requires CoreInv(cfg, s, now) && BindingFiles(s.pc) && !s.pc.SaveBinding?
    ensures Columns(s, now, StepCore(cfg, s, now, a))
  {
  }

  lemma SaveBindingColumns(cfg: Config, s: Core, now: Time, a: Answer)
    requires CoreInv(cfg, s, now) && s.pc.SaveBinding?
    ensures Columns(s, now, StepCore(cfg, s, now, a))
  {
  }

  lemma ProbingColumns(cfg: Config, s: Core, now: Time, a: Answer)
    requires CoreInv(cfg, s, now) && ProbingGateway(s.pc) && !s.pc.SaveUrl? && !s.pc.SaveHealthPhase?
    ensures Columns(s, now, StepCore(cfg, s, now, a))
  {
  }

  lemma UrlStep(cfg: Config, s: Core, now: Time, g: Snapshot)
    requires s.pc == SaveUrl(g) && InTurn(s.row) && RowInv(s.row) && s.row.gatewayId.Some? && s.row.gatewayUrl.None?
    ensures Columns(s, now, StepSaveUrl(cfg, s, now, g))
  {
  }

  lemma HealthPhaseStep(cfg: Config, s: Core, now: Time)
    requires s.pc == SaveHealthPhase && InTurn(s.row) && RowInv(s.row) && s.row.gatewayId.Some?
    requires s.row.controllerId.None?
    ensures Columns(s, now, StepSaveHealthPhase(cfg, s, now))
  {
  }

  lemma UrlColumns(cfg: Config, s: Core, now: Time, a: Answer)
    requires CoreInv(cfg, s, now) && (s.pc.SaveUrl? || s.pc.SaveHealthPhase?)
    ensures Columns(s, now, StepCore(cfg, s, now, a))
  {
    if s.pc.SaveUrl? {
      UrlStep(cfg, s, now, s.pc.g);
    } else {
      HealthPhaseStep(cfg, s, now);
    }
  }

  lemma CreatingColumns(cfg: Config, s: Core, now: Time, a: Answer)
    requires CoreInv(cfg, s, now) && CreatingRJobs(s.pc)
    ensures Columns(s, now, StepCore(cfg, s, now, a))
  {
  }

  lemma CleaningColumns(cfg: Config, s: Core, now: Time, a: Answer)
    requires CoreInv(cfg, s, now) && CleaningUp(s.pc) && !s.pc.CleanWrite?
    ensures Columns(s, now, StepCore(cfg, s, now, a))
  {
  }

  lemma CleanWriteStep(s: Core, now: Time, closing: bool, caller: Caller)
    requires s.pc == CleanWrite(closing, caller) && closing == (s.row.status == Closing) && !Active(s.row.status)
    ensures Columns(s, now, StepCleanWrite(s, now, closing, caller))
  {
  }

  lemma CleanWriteColumns(cfg: Config, s: Core, now: Time, a: Answer)
    requires CoreInv(cfg, s, now) && s.pc.CleanWrite?
    ensures Columns(s, now, StepCore(cfg, s, now, a))
  {
    CleanWriteStep(s, now, s.pc.closing, s.pc.caller);
  }

  lemma StatusColumns(cfg: Config, s: Core, now: Time, a: Answer)
    requires CoreInv(cfg, s, now) && s.pc.SaveControllerStatus?
    ensures Columns(s, now, StepCore(cfg, s, now, a))
  {
  }

  lemma SuccessStep(s: Core, now: Time)
    requires s.pc.Succeed? && InTurn(s.row)
    ensures Columns(s, now, StepSucceed(s, now))
  {
  }

  lemma FailureStep(s: Core, now: Time, why: FailureReason, caller: Caller)
    requires s.pc == FailWrite(why, caller) && InTurn(s.row)
    ensures Columns(s, now, StepFailWrite(s, now, why, caller))
  {
  }

  lemma EndingColumns(cfg: Config, s: Core, now: Time, a: Answer)
    requires CoreInv(cfg, s, now) && (s.pc.Succeed? || s.pc.FailWrite?)
    ensures Columns(s, now, StepCore(cfg, s, now, a))
  {
    if s.pc.Succeed? {
      SuccessStep(s, now);
    } else {
      FailureStep(s, now, s.pc.why, s.pc.caller);
    }
  }

  lemma ReadingColumns(cfg: Config, s: Core, now: Time, a: Answer)
    requires CoreInv(cfg, s, now) && !BindingFiles(s.pc) && !ProbingGateway(s.pc) && !Dealing(s.pc) && !Judging(s.pc)
    ensures Columns(s, now, StepCore(cfg, s, now, a))
  {
    assert StepCore(cfg, s, now, a).row == s.row;
  }

  lemma AwaitColumns(cfg: Config, s: Core, now: Time, a: Answer)
    requires CoreInv(cfg, s, now)
    ensures Columns(s, now, StepCore(cfg, s, now, a))
  {
    if s.pc.SaveBinding? {
      SaveBindingColumns(cfg, s, now, a);
    } else if BindingFiles(s.pc) {
      BindingColumns(cfg, s, now, a);
    } else if s.pc.SaveUrl? || s.pc.SaveHealthPhase? {
      UrlColumns(cfg, s, now, a);
    } else if ProbingGateway(s.pc) {
      ProbingColumns(cfg, s, now, a);
    } else if CreatingRJobs(s.pc) {
      CreatingColumns(cfg, s, now, a);
    } else if s.pc.CleanWrite? {
      CleanWriteColumns(cfg, s, now, a);
    } else if CleaningUp(s.pc) {
      CleaningColumns(cfg, s, now, a);
    } else if s.pc.SaveControllerStatus? {
      StatusColumns(cfg, s, now, a);
    } else if s.pc.Succeed? || s.pc.FailWrite? {
      EndingColumns(cfg, s, now, a);
    } else {
      ReadingColumns(cfg, s, now, a);
    }
  }

  lemma NextColumns(cfg: Config, s: JobState, i: Input)
    requires AllInv(cfg, s) && PhaseOk(s.core.row)
    ensures PhaseOk(Next(cfg, s, i).core.row)
    ensures i.Advance? ==> Columns(s.core, s.now, Next(cfg, s, i).core)
    ensures !i.Advance? ==> Next(cfg, s, i).core.row.attempt == s.core.row.attempt
                            && Next(cfg, s, i).core.row.gatewayReadyAt == s.core.row.gatewayReadyAt
                            && (Terminal(Next(cfg, s, i).core.row.status) ==> Terminal(s.core.row.status))
  {
    if i.Advance? {
      assert CoreInv(cfg, s.core, s.now);
      AwaitColumns(cfg, s.core, s.now, i.a);
    } else if !i.CloseRequest? {
      assert Next(cfg, s, i).core.row == s.core.row;
    }
  }

  lemma {:induction false} RunPhases(cfg: Config, s: JobState, inputs: seq<Input>)
    requires AllInv(cfg, s) && PhaseOk(s.core.row)
    ensures PhaseOk(Run(cfg, s, inputs).core.row)
    decreases |inputs|
  {
    if inputs != [] {
      NextKeepsAll(cfg, s, inputs[0]);
      NextColumns(cfg, s, inputs[0]);
      RunPhases(cfg, Next(cfg, s, inputs[0]), inputs[1..]);
    }
  }

  /** The phase tells how far the job has come, at every moment of every run. */
  lemma PhasesTellProgress(cfg: Config, jobId: string, rangeId: string, now: Time, inputs: seq<Input>)
    ensures PhaseOk(Run(cfg, Init(jobId, rangeId, now), inputs).core.row)
  {
    InitHoldsAll(cfg, jobId, rangeId, now);
    RunPhases(cfg, Init(jobId, rangeId, now), inputs);
  }

  // --- Attempts ----------------------------------------------------------------------------------

  /** The turns whose first write was reached. */
  function Turns(cfg: Config, s: JobState, inputs: seq<Input>): nat
    decreases |inputs|
  {
    if inputs == [] then 0
    else
      (if inputs[0].Advance? && s.core.pc.BumpAttempt? then 1 else 0) + Turns(cfg, Next(cfg, s, inputs[0]), inputs[1..])
  }

  lemma {:induction false} RunCounts(cfg: Config, s: JobState, inputs: seq<Input>)
    requires AllInv(cfg, s) && PhaseOk(s.core.row)
    ensures Run(cfg, s, inputs).core.row.attempt == s.core.row.attempt + Turns(cfg, s, inputs)
    decreases |inputs|
  {
    if inputs != [] {
      NextKeepsAll(cfg, s, inputs[0]);
      NextColumns(cfg, s, inputs[0]);
      RunCounts(cfg, Next(cfg, s, inputs[0]), inputs[1..]);
    }
  }

  /** The attempts of a job count its turns, whatever became of them. */
  lemma AttemptsCountTurns(cfg: Config, jobId: string, rangeId: string, now: Time, inputs: seq<Input>)
    ensures var s := Init(jobId, rangeId, now);
            Run(cfg, s, inputs).core.row.attempt == Turns(cfg, s, inputs)
  {
    InitHoldsAll(cfg, jobId, rangeId, now);
    RunCounts(cfg, Init(jobId, rangeId, now), inputs);
  }

  // --- Times -------------------------------------------------------------------------------------

  /** Input k ended the job, at the time the row gives to the millisecond. */
  ghost predicate EndedAt(cfg: Config, s: JobState, inputs: seq<Input>, k: nat) {
    && k < |inputs|
    && var at := Run(cfg, s, inputs[..k]);
       && !Terminal(at.core.row.status) && Terminal(Run(cfg, s, inputs[..k + 1]).core.row.status)
       && Stamps(Run(cfg, s, inputs).core.row.completedAt, at.now)
  }

  lemma Cuts(front: seq<Input>, last: Input)
    ensures (front + [last])[..|front|] == front && (front + [last])[..|front| + 1] == front + [last]
  {
  }

  lemma EndBegins(cfg: Config, s: JobState, front: seq<Input>, last: Input)
    requires AllInv(cfg, s) && PhaseOk(s.core.row) && !Terminal(Run(cfg, s, front).core.row.status)
    requires Terminal(Run(cfg, s, front + [last]).core.row.status)
    ensures EndedAt(cfg, s, front + [last], |front|)
  {
    RunSplits(cfg, s, front, last);
    RunKeepsAll(cfg, s, front);
    RunPhases(cfg, s, front);
    var at, end := Run(cfg, s, front), Run(cfg, s, front + [last]);
    EndStep(cfg, at, last);
    assert Stamps(end.core.row.completedAt, at.now);
    Cuts(front, last);
    assert Run(cfg, s, (front + [last])[..|front|]) == at && Run(cfg, s, (front + [last])[..|front| + 1]) == end;
  }

  lemma EndStep(cfg: Config, s: JobState, i: Input)
    requires AllInv(cfg, s) && PhaseOk(s.core.row) && !Terminal(s.core.row.status)
    requires Terminal(Next(cfg, s, i).core.row.status)
    ensures Stamps(Next(cfg, s, i).core.row.completedAt, s.now)
  {
    NextColumns(cfg, s, i);
    assert i.Advance? && Columns(s.core, s.now, Next(cfg, s, i).core);
  }

  lemma EndStays(cfg: Config, s: JobState, front: seq<Input>, last: Input, k: nat)
    requires AllInv(cfg, s) && EndedAt(cfg, s, front, k)
    ensures EndedAt(cfg, s, front + [last], k)
  {
    RunSplits(cfg, s, front, last);
    RunKeepsAll(cfg, s, front);
    CompletionStays(cfg, Run(cfg, s, front), last);
    assert (front + [last])[..k] == front[..k] && (front + [last])[..k + 1] == front[..k + 1];
  }

  lemma CompletionStays(cfg: Config, s: JobState, i: Input)
    requires AllInv(cfg, s) && s.core.row.completedAt.Some?
    ensures Next(cfg, s, i).core.row.completedAt == s.core.row.completedAt
  {
    NextKeepsAll(cfg, s, i);
    assert WriteOnce(s.core.row, Next(cfg, s, i).core.row);
  }

  lemma {:induction false} EndHasAMoment(cfg: Config, s: JobState, inputs: seq<Input>) returns (k: nat)
    requires AllInv(cfg, s) && PhaseOk(s.core.row) && !Terminal(s.core.row.status)
    requires Terminal(Run(cfg, s, inputs).core.row.status)
    ensures EndedAt(cfg, s, inputs, k)
    decreases |inputs|
  {
    var front := inputs[..|inputs| - 1];
    var last := inputs[|inputs| - 1];
    assert inputs == front + [last];
    if Terminal(Run(cfg, s, front).core.row.status) {
      k := EndHasAMoment(cfg, s, front);
      EndStays(cfg, s, front, last, k);
    } else {
      k := |front|;
      EndBegins(cfg, s, front, last);
    }
  }

  /** A finished job gives the time at which it ended. */
  lemma EndsAreTimed(cfg: Config, jobId: string, rangeId: string, now: Time, inputs: seq<Input>)
    ensures var s := Init(jobId, rangeId, now);
            Terminal(Run(cfg, s, inputs).core.row.status) ==> exists k: nat :: EndedAt(cfg, s, inputs, k)
  {
    var s := Init(jobId, rangeId, now);
    InitHoldsAll(cfg, jobId, rangeId, now);
    if Terminal(Run(cfg, s, inputs).core.row.status) {
      var k := EndHasAMoment(cfg, s, inputs);
    }
  }

  /** The job gives the time of its creation. */
  lemma CreationIsTimed(cfg: Config, jobId: string, rangeId: string, now: Time, inputs: seq<Input>)
    ensures Stamps(Some(Run(cfg, Init(jobId, rangeId, now), inputs).core.row.createdAt), now)
  {
    InitHoldsAll(cfg, jobId, rangeId, now);
    RunKeepsAll(cfg, Init(jobId, rangeId, now), inputs);
  }

  // --- Starts ------------------------------------------------------------------------------------

  /** The times at which create calls for the controller have returned. */
  function CreateTimes(cfg: Config, s: JobState, inputs: seq<Input>): set<Time>
    decreases |inputs|
  {
    if inputs == [] then {}
    else
      (if inputs[0].Advance? && s.core.pc.CreateController? then {s.now} else {})
      + CreateTimes(cfg, Next(cfg, s, inputs[0]), inputs[1..])
  }

  predicate Saving(pc: PC) {
    pc.SaveController? || pc.SaveControllerWhileClosing?
  }

  ghost predicate StartKnown(s: Core, times: set<Time>) {
    (&& (s.row.startedAt.Some? ==> exists t :: t in times && Stamps(s.row.startedAt, t))
     && (Saving(s.pc) ==> s.pc.at in times)
     && (s.pc.Log? ==> !Saving(After(s.pc)))) == true
  }

  /** A step that neither starts the job nor is about to. */
  ghost predicate NoStart(s: Core, r: Core) {
    (r.row.startedAt == s.row.startedAt && !Saving(r.pc) && (r.pc.Log? ==> !Saving(After(r.pc)))) == true
  }

  lemma BindingStartsNothing(cfg: Config, s: Core, now: Time, a: Answer)
    requires BindingFiles(s.pc)
    ensures NoStart(s, StepCore(cfg, s, now, a))
  {
    var r := StepCore(cfg, s, now, a);
    assert r.pc.Log? ==> After(r.pc) == r.pc.next;
  }

  lemma ProbingStartsNothing(cfg: Config, s: Core, now: Time, a: Answer)
    requires ProbingGateway(s.pc)
    ensures NoStart(s, StepCore(cfg, s, now, a))
  {
    var r := StepCore(cfg, s, now, a);
    assert r.pc.Log? ==> After(r.pc) == r.pc.next;
  }

  lemma GatewayStartsNothing(cfg: Config, s: Core, now: Time, a: Answer)
    requires s.pc.CreateGateway? || s.pc.SaveGateway?
    ensures NoStart(s, StepCore(cfg, s, now, a))
  {
    var r := StepCore(cfg, s, now, a);
    assert r.pc.Log? ==> After(r.pc) == r.pc.next;
  }

  lemma CleaningStartsNothing(cfg: Config, s: Core, now: Time, a: Answer)
    requires CleaningUp(s.pc) && !s.pc.CleanWrite?
    ensures NoStart(s, StepCore(cfg, s, now, a))
  {
    var r := StepCore(cfg, s, now, a);
    assert r.pc.Log? ==> After(r.pc) == r.pc.next;
  }

  lemma CleanWriteStartsNothing(s: Core, now: Time, closing: bool, caller: Caller)
    ensures NoStart(s, StepCleanWrite(s, now, closing, caller))
  {
    var r := StepCleanWrite(s, now, closing, caller);
    assert r.pc.Log? ==> After(r.pc) == After(r.pc.next) == Return(caller);
  }

  lemma OthersStartNothing(cfg: Config, s: Core, now: Time, a: Answer)
    requires !BindingFiles(s.pc) && !ProbingGateway(s.pc) && !Dealing(s.pc) && !s.pc.Log?
    ensures NoStart(s, StepCore(cfg, s, now, a))
  {
    var r := StepCore(cfg, s, now, a);
    assert r.pc.Log? ==> After(r.pc) == r.pc.next;
  }

  lemma CreateIsTimed(cfg: Config, s: Core, now: Time, a: Answer, times: set<Time>)
    requires s.pc.CreateController? && StartKnown(s, times) && now in times
    ensures StartKnown(StepCore(cfg, s, now, a), times)
  {
  }

  /** The write that starts the job gives it the time at which the create call returned. */
  lemma SaveControllerStarts(s: Core, startedAt: Option<Time>, g: Snapshot, id: RJobId, at: Time, times: set<Time>)
    requires s.pc == SaveController(startedAt, g, id, at) && startedAt.None? && StartKnown(s, times)
    ensures StartKnown(StepSaveController(s, startedAt, g, id, at), times)
  {
    var r := StepSaveController(s, startedAt, g, id, at);
    assert r.pc.Log? ==> After(r.pc) == r.pc.next;
    assert r.row.startedAt == s.row.startedAt || Stamps(r.row.startedAt, at);
  }

  lemma SaveWhileClosingStarts(s: Core, startedAt: Option<Time>, g: Snapshot, id: RJobId, at: Time, times: set<Time>)
    requires s.pc == SaveControllerWhileClosing(startedAt, g, id, at) && startedAt.None? && StartKnown(s, times)
    ensures StartKnown(StepSaveControllerWhileClosing(s, startedAt, g, id, at), times)
  {
    var r := StepSaveControllerWhileClosing(s, startedAt, g, id, at);
    assert r.pc.Log? ==> After(r.pc) == r.pc.next;
    assert r.row.startedAt == s.row.startedAt || Stamps(r.row.startedAt, at);
  }

  lemma SaveStarts(cfg: Config, s: Core, now: Time, a: Answer, times: set<Time>)
    requires CoreInv(cfg, s, now) && Saving(s.pc) && StartKnown(s, times)
    ensures StartKnown(StepCore(cfg, s, now, a), times)
  {
    if s.pc.SaveController? {
      SaveControllerStarts(s, s.pc.startedAt, s.pc.g, s.pc.id, s.pc.at, times);
    } else {
      SaveWhileClosingStarts(s, s.pc.startedAt, s.pc.g, s.pc.id, s.pc.at, times);
    }
  }

  lemma StartStaysKnown(s: Core, r: Core, times: set<Time>)
    requires StartKnown(s, times) && NoStart(s, r)
    ensures StartKnown(r, times)
  {
  }

  lemma AwaitStarts(cfg: Config, s: Core, now: Time, a: Answer, times: set<Time>)
    requires CoreInv(cfg, s, now) && StartKnown(s, times) && (s.pc.CreateController? ==> now in times)
    ensures StartKnown(StepCore(cfg, s, now, a), times)
  {
    if s.pc.Log? {
      assert After(s.pc) == After(s.pc.next);
    } else if s.pc.CreateController? {
      CreateIsTimed(cfg, s, now, a, times);
    } else if Saving(s.pc) {
      SaveStarts(cfg, s, now, a, times);
    } else {
      if BindingFiles(s.pc) {
        BindingStartsNothing(cfg, s, now, a);
      } else if ProbingGateway(s.pc) {
        ProbingStartsNothing(cfg, s, now, a);
      } else if s.pc.CleanWrite? {
        CleanWriteStartsNothing(s, now, s.pc.closing, s.pc.caller);
      } else if CleaningUp(s.pc) {
        CleaningStartsNothing(cfg, s, now, a);
      } else if s.pc.CreateGateway? || s.pc.SaveGateway? {
        GatewayStartsNothing(cfg, s, now, a);
      } else {
        OthersStartNothing(cfg, s, now, a);
      }
      StartStaysKnown(s, StepCore(cfg, s, now, a), times);
    }
  }

  lemma NextStarts(cfg: Config, s: JobState, i: Input, times: set<Time>)
    requires CoreInv(cfg, s.core, s.now) && StartKnown(s.core, times)
    requires i.Advance? && s.core.pc.CreateController? ==> s.now in times
    ensures StartKnown(Next(cfg, s, i).core, times)
  {
    if i.Advance? {
      AwaitStarts(cfg, s.core, s.now, i.a, times);
    } else if !i.CloseRequest? {
      assert Next(cfg, s, i).core.row == s.core.row;
    }
  }

  lemma {:induction false} RunStarts(cfg: Config, s: JobState, inputs: seq<Input>, times: set<Time>)
    requires AllInv(cfg, s) && StartKnown(s.core, times) && CreateTimes(cfg, s, inputs) <= times
    ensures StartKnown(Run(cfg, s, inputs).core, times)
    decreases |inputs|
  {
    if inputs != [] {
      NextKeepsAll(cfg, s, inputs[0]);
      assert CoreInv(cfg, s.core, s.now);
      NextStarts(cfg, s, inputs[0], times);
      RunStarts(cfg, Next(cfg, s, inputs[0]), inputs[1..], times);
    }
  }

  /** A started job gives the time at which a create call for its controller has returned. */
  lemma StartsAreTimed(cfg: Config, jobId: string, rangeId: string, now: Time, inputs: seq<Input>)
    ensures var s := Init(jobId, rangeId, now);
            var row := Run(cfg, s, inputs).core.row;
            row.startedAt.Some? ==> exists t :: t in CreateTimes(cfg, s, inputs) && Stamps(row.startedAt, t)
  {
    var s := Init(jobId, rangeId, now);
    InitHoldsAll(cfg, jobId, rangeId, now);
    RunStarts(cfg, s, inputs, CreateTimes(cfg, s, inputs));
    assert StartKnown(Run(cfg, s, inputs).core, CreateTimes(cfg, s, inputs));
  }
}
