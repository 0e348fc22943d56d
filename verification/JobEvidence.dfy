/**
 What a success stands on, and which errors can only come from outside.
 */
module JobEvidence {
  import opened Wrappers
  import opened ControlStore
  import opened Platform
  import opened JobMachine
  import opened JobInvariant
  import opened JobTraces
  import opened JobTheorems
  import opened JobCleanup

  // --- Justified success -------------------------------------------------------------------------

  /** A job is successful only through the success write, which leaves the counts alone. */
  ghost predicate SuccessKept(s: Core, r: Core) {
    (r.row.status == Succeeded ==>
       (s.pc.Succeed? || s.row.status == Succeeded) && r.row.episodes == s.row.episodes) == true
  }

  lemma BindingKeepsSuccess(cfg: Config, s: Core, now: Time, a: Answer)
    requires CoreInv(cfg, s, now) && BindingFiles(s.pc)
    ensures SuccessKept(s, StepCore(cfg, s, now, a))
  {
  }

  lemma ProbingKeepsSuccess(cfg: Config, s: Core, now: Time, a: Answer)
    requires CoreInv(cfg, s, now) && ProbingGateway(s.pc)
    ensures SuccessKept(s, StepCore(cfg, s, now, a))
  {
  }

  lemma CreatingKeepsSuccess(cfg: Config, s: Core, now: Time, a: Answer)
    requires CoreInv(cfg, s, now) && CreatingRJobs(s.pc)
    ensures SuccessKept(s, StepCore(cfg, s, now, a))
  {
  }

  lemma CleaningKeepsSuccess(cfg: Config, s: Core, now: Time, a: Answer)
    requires CoreInv(cfg, s, now) && CleaningUp(s.pc)
    ensures SuccessKept(s, StepCore(cfg, s, now, a))
  {
  }

  lemma OthersKeepSuccess(cfg: Config, s: Core, now: Time, a: Answer)
    requires CoreInv(cfg, s, now) && !BindingFiles(s.pc) && !ProbingGateway(s.pc) && !Dealing(s.pc)
    ensures SuccessKept(s, StepCore(cfg, s, now, a))
  {
  }

  lemma NextKeepsSuccess(cfg: Config, s: JobState, i: Input)
    requires AllInv(cfg, s)
    ensures SuccessKept(s.core, Next(cfg, s, i).core)
    ensures Next(cfg, s, i).core.row.status == Succeeded && s.core.row.status != Succeeded ==> i.Advance?
  {
    assert CoreInv(cfg, s.core, s.now);
    if i.Advance? {
      if BindingFiles(s.core.pc) {
        BindingKeepsSuccess(cfg, s.core, s.now, i.a);
      } else if ProbingGateway(s.core.pc) {
        ProbingKeepsSuccess(cfg, s.core, s.now, i.a);
      } else if CreatingRJobs(s.core.pc) {
        CreatingKeepsSuccess(cfg, s.core, s.now, i.a);
      } else if CleaningUp(s.core.pc) {
        CleaningKeepsSuccess(cfg, s.core, s.now, i.a);
      } else {
        OthersKeepSuccess(cfg, s.core, s.now, i.a);
      }
    }
  }

  /** The moment a run declared its job successful, with the evidence of that moment. */
  ghost predicate SucceededAt(cfg: Config, s: JobState, inputs: seq<Input>, k: nat) {
    && k < |inputs| && inputs[k].Advance?
    && var at := Run(cfg, s, inputs[..k]).core;
       var end := Run(cfg, s, inputs).core;
       && at.pc.Succeed? && Justified(cfg, at, at.pc.g, at.pc.c)
       && end.row.episodes == at.row.episodes
       && end.row.binding == at.row.binding
       && end.row.gatewayUrl == at.row.gatewayUrl
  }

  lemma MomentStays(cfg: Config, s: JobState, front: seq<Input>, last: Input, k: nat)
    requires AllInv(cfg, s) && SucceededAt(cfg, s, front, k) && Run(cfg, s, front).core.row.status == Succeeded
    ensures SucceededAt(cfg, s, front + [last], k)
  {
    RunSplits(cfg, s, front, last);
    RunKeepsAll(cfg, s, front);
    var mid := Run(cfg, s, front);
    NextKeepsSuccess(cfg, mid, last);
    NextKeepsAll(cfg, mid, last);
    SucceededRows(mid.core.row, Next(cfg, mid, last).core.row, cfg, mid.core, mid.now);
    assert (front + [last])[..k] == front[..k];
  }

  lemma SucceededRows(a: ControlJob, b: ControlJob, cfg: Config, s: Core, now: Time)
    requires CoreInv(cfg, s, now) && s.row == a && a.status == Succeeded && Lawful(a, b)
    ensures b.status == Succeeded && b.binding == a.binding && b.gatewayUrl == a.gatewayUrl
  {
  }

  lemma SuccessStep(cfg: Config, s: JobState, i: Input)
    requires AllInv(cfg, s) && s.core.row.status != Succeeded && Next(cfg, s, i).core.row.status == Succeeded
    ensures i.Advance? && s.core.pc.Succeed? && Justified(cfg, s.core, s.core.pc.g, s.core.pc.c)
    ensures var row := Next(cfg, s, i).core.row;
            row.episodes == s.core.row.episodes && row.binding == s.core.row.binding
            && row.gatewayUrl == s.core.row.gatewayUrl
  {
    NextKeepsSuccess(cfg, s, i);
    assert CoreInv(cfg, s.core, s.now) && s.core.pc.Succeed?;
  }

  lemma MomentBegins(cfg: Config, s: JobState, front: seq<Input>, last: Input)
    requires AllInv(cfg, s) && Run(cfg, s, front).core.row.status != Succeeded
    requires Run(cfg, s, front + [last]).core.row.status == Succeeded
    ensures SucceededAt(cfg, s, front + [last], |front|)
  {
    RunSplits(cfg, s, front, last);
    RunKeepsAll(cfg, s, front);
    SuccessStep(cfg, Run(cfg, s, front), last);
    assert (front + [last])[..|front|] == front;
  }

  lemma {:induction false} SuccessHasAMoment(cfg: Config, s: JobState, inputs: seq<Input>) returns (k: nat)
    requires AllInv(cfg, s) && s.core.row.status != Succeeded && Run(cfg, s, inputs).core.row.status == Succeeded
    ensures SucceededAt(cfg, s, inputs, k)
    decreases |inputs|
  {
    var front := inputs[..|inputs| - 1];
    var last := inputs[|inputs| - 1];
    assert inputs == front + [last];
    if Run(cfg, s, front).core.row.status == Succeeded {
      k := SuccessHasAMoment(cfg, s, front);
      MomentStays(cfg, s, front, last, k);
    } else {
      k := |front|;
      MomentBegins(cfg, s, front, last);
    }
  }

  /**
   A job becomes successful only in a turn that saw its gateway running, ready, routable and
   healthy at exactly the stored URL and its controller succeeded; and if that controller reported
   counts, the stored ones are complete.
   */
  lemma SuccessIsJustified(cfg: Config, jobId: string, rangeId: string, now: Time, inputs: seq<Input>)
    ensures var s := Init(jobId, rangeId, now);
            Run(cfg, s, inputs).core.row.status == Succeeded ==> exists k: nat :: SucceededAt(cfg, s, inputs, k)
  {
    InitHoldsAll(cfg, jobId, rangeId, now);
    var s := Init(jobId, rangeId, now);
    if Run(cfg, s, inputs).core.row.status == Succeeded {
      var k := SuccessHasAMoment(cfg, s, inputs);
    }
  }

  /**
   The stored failure count of a successful job is zero iff the last summary names it or the
   row already said zero; a summary without that entry keeps whatever the row said.
   */
  lemma StaleFailureCount(cfg: Config, jobId: string, rangeId: string, now: Time, inputs: seq<Input>, a: Answer)
    ensures var s := Run(cfg, Init(jobId, rangeId, now), inputs);
            var r := StepAwait(cfg, s, a).core;
            s.core.pc.SaveControllerStatus? && r.pc.Succeed? ==>
              (r.row.episodes.failed == 0 <==> "failed" in s.core.pc.c.summary || s.core.row.episodes.failed == 0)
  {
    InitHoldsAll(cfg, jobId, rangeId, now);
    RunKeepsAll(cfg, Init(jobId, rangeId, now), inputs);
    var s := Run(cfg, Init(jobId, rangeId, now), inputs);
    assert CoreInv(cfg, s.core, s.now);
    if s.core.pc.SaveControllerStatus? && StepCore(cfg, s.core, s.now, a).pc.Succeed? {
      FailureCountAtSuccess(cfg, s.core, s.now, a);
    }
  }

  lemma FailureCountAtSuccess(cfg: Config, s: Core, now: Time, a: Answer)
    requires CoreInv(cfg, s, now) && s.pc.SaveControllerStatus? && StepCore(cfg, s, now, a).pc.Succeed?
    ensures StepCore(cfg, s, now, a).row.episodes.failed == 0 <==>
            "failed" in s.pc.c.summary || s.row.episodes.failed == 0
  {
    var r := StepCore(cfg, s, now, a);
    assert ResultsComplete(r.row.binding.value, s.pc.c);
    if "failed" in s.pc.c.summary {
      assert s.pc.c.summary != map[];
      assert Entry(s.pc.c.summary, "failed", 0) == 0;
    }
  }

  // --- The total of a job --------------------------------------------------------------------------

  /** The totals that controller reports of these inputs name. */
  function ReportedTotals(inputs: seq<Input>): set<int> {
    if inputs == [] then {}
    else
      var i := inputs[0];
      (if i.Advance? && i.a.poll.PollReturns? && "total" in i.a.poll.snapshot.summary
       then {i.a.poll.snapshot.summary["total"]} else {}) + ReportedTotals(inputs[1..])
  }

  /** The stored total is that of the binding or a reported one. */
  ghost predicate TotalKnown(s: Core, reported: set<int>) {
    (&& (s.row.binding.Some? ==>
           s.row.episodes.total == s.row.binding.value.totalEpisodes || s.row.episodes.total in reported)
     && (s.pc.SaveControllerStatus? && "total" in s.pc.c.summary ==> s.pc.c.summary["total"] in reported)
     && (s.pc.Log? ==> !After(s.pc).SaveControllerStatus?)) == true
  }

  /** A step that leaves binding and counts alone and is not about to store a report. */
  ghost predicate TotalUntouched(s: Core, r: Core) {
    (&& r.row.binding == s.row.binding && r.row.episodes == s.row.episodes
     && !r.pc.SaveControllerStatus?
     && (r.pc.Log? ==> !After(r.pc).SaveControllerStatus?)) == true
  }

  lemma SaveBindingSetsTotal(cfg: Config, s: Core, now: Time, a: Answer, reported: set<int>)
    requires CoreInv(cfg, s, now) && BindingFiles(s.pc)
    ensures TotalKnown(StepCore(cfg, s, now, a), reported) || TotalUntouched(s, StepCore(cfg, s, now, a))
  {
    var r := StepCore(cfg, s, now, a);
    assert r.pc.Log? ==> After(r.pc) == r.pc.next;
  }

  lemma ProbingLeavesTotal(cfg: Config, s: Core, now: Time, a: Answer)
    requires ProbingGateway(s.pc)
    ensures TotalUntouched(s, StepCore(cfg, s, now, a))
  {
    var r := StepCore(cfg, s, now, a);
    assert r.pc.Log? ==> After(r.pc) == r.pc.next;
  }

  lemma CreatingLeavesTotal(cfg: Config, s: Core, now: Time, a: Answer)
    requires CreatingRJobs(s.pc)
    ensures TotalUntouched(s, StepCore(cfg, s, now, a))
  {
    var r := StepCore(cfg, s, now, a);
    assert r.pc.Log? ==> After(r.pc) == r.pc.next;
  }

  lemma CleaningLeavesTotal(cfg: Config, s: Core, now: Time, a: Answer)
    requires CleaningUp(s.pc) && !s.pc.CleanWrite?
    ensures TotalUntouched(s, StepCore(cfg, s, now, a))
  {
    var r := StepCore(cfg, s, now, a);
    assert r.pc.Log? ==> After(r.pc) == r.pc.next;
  }

  lemma CleanWriteLeavesTotal(s: Core, now: Time, closing: bool, caller: Caller)
    ensures TotalUntouched(s, StepCleanWrite(s, now, closing, caller))
  {
    var r := StepCleanWrite(s, now, closing, caller);
    assert r.pc.Log? ==> After(r.pc) == After(r.pc.next) == Return(caller);
  }

  lemma OthersLeaveTotal(cfg: Config, s: Core, now: Time, a: Answer)
    requires !BindingFiles(s.pc) && !ProbingGateway(s.pc) && !Dealing(s.pc) && !s.pc.Log?
    requires !s.pc.PollController? && !s.pc.SaveControllerStatus?
    ensures TotalUntouched(s, StepCore(cfg, s, now, a))
  {
    var r := StepCore(cfg, s, now, a);
    assert r.pc.Log? ==> After(r.pc) == r.pc.next;
  }

  lemma ReportSetsTotal(cfg: Config, s: Core, now: Time, a: Answer, reported: set<int>)
    requires CoreInv(cfg, s, now) && s.pc.SaveControllerStatus? && TotalKnown(s, reported)
    ensures TotalKnown(StepCore(cfg, s, now, a), reported)
  {
    var r := StepCore(cfg, s, now, a);
    assert r.pc.Log? ==> After(r.pc) == r.pc.next;
  }

  lemma StepKeepsTotal(cfg: Config, s: Core, now: Time, a: Answer, reported: set<int>)
    requires CoreInv(cfg, s, now) && TotalKnown(s, reported)
    requires a.poll.PollReturns? && "total" in a.poll.snapshot.summary ==> a.poll.snapshot.summary["total"] in reported
    ensures TotalKnown(StepCore(cfg, s, now, a), reported)
  {
    if s.pc.Log? {
      assert After(s.pc) == After(s.pc.next);
    } else if BindingFiles(s.pc) {
      SaveBindingSetsTotal(cfg, s, now, a, reported);
    } else if ProbingGateway(s.pc) {
      ProbingLeavesTotal(cfg, s, now, a);
    } else if CreatingRJobs(s.pc) {
      CreatingLeavesTotal(cfg, s, now, a);
    } else if s.pc.CleanWrite? {
      CleanWriteLeavesTotal(s, now, s.pc.closing, s.pc.caller);
    } else if CleaningUp(s.pc) {
      CleaningLeavesTotal(cfg, s, now, a);
    } else if s.pc.SaveControllerStatus? {
      ReportSetsTotal(cfg, s, now, a, reported);
    } else if s.pc.PollController? {
      assert StepCore(cfg, s, now, a) == StepPollController(s, s.pc.id, s.pc.episodes, s.pc.g, a.poll);
    } else {
      OthersLeaveTotal(cfg, s, now, a);
    }
  }

  lemma NextKeepsTotal(cfg: Config, s: JobState, i: Input, reported: set<int>)
    requires CoreInv(cfg, s.core, s.now) && TotalKnown(s.core, reported) && ReportedTotals([i]) <= reported
    ensures TotalKnown(Next(cfg, s, i).core, reported)
  {
    if i.Advance? {
      StepKeepsTotal(cfg, s.core, s.now, i.a, reported);
    } else if !i.CloseRequest? {
      assert Next(cfg, s, i).core.row == s.core.row;
    }
  }

  lemma {:induction false} RunKeepsTotal(cfg: Config, s: JobState, inputs: seq<Input>, reported: set<int>)
    requires AllInv(cfg, s) && TotalKnown(s.core, reported) && ReportedTotals(inputs) <= reported
    ensures TotalKnown(Run(cfg, s, inputs).core, reported)
    decreases |inputs|
  {
    if inputs != [] {
      NextKeepsAll(cfg, s, inputs[0]);
      assert CoreInv(cfg, s.core, s.now) && ReportedTotals([inputs[0]]) <= ReportedTotals(inputs);
      NextKeepsTotal(cfg, s, inputs[0], reported);
      RunKeepsTotal(cfg, Next(cfg, s, inputs[0]), inputs[1..], reported);
    }
  }

  /** A bound job counts the episodes of its binding, until a controller report names another total. */
  lemma TotalsAreBoundOrReported(cfg: Config, jobId: string, rangeId: string, now: Time, inputs: seq<Input>)
    ensures var row := Run(cfg, Init(jobId, rangeId, now), inputs).core.row;
            row.binding.Some? ==>
              row.episodes.total == row.binding.value.totalEpisodes || row.episodes.total in ReportedTotals(inputs)
  {
    InitHoldsAll(cfg, jobId, rangeId, now);
    RunKeepsTotal(cfg, Init(jobId, rangeId, now), inputs, ReportedTotals(inputs));
    assert TotalKnown(Run(cfg, Init(jobId, rangeId, now), inputs).core, ReportedTotals(inputs));
  }

  // --- Internal errors ---------------------------------------------------------------------------

  /** The environment raised something other than a dependency error at the await in question. */
  predicate Raised(pc: PC, a: Answer) {
    || (pc.BindFiles? && a.bind == BindRaises(Unexpected))
    || ((pc.CreateGateway? || pc.CreateController?) && a.create.CreateRaises? && a.create.e == Unexpected)
    || ((pc.PollGateway? || pc.PollController?) && a.poll == PollRaises(Unexpected))
    || (pc.CheckHealth? && a.ready == ReadyRaises(Unexpected))
    || ((pc.StopController? || pc.StopGateway?) && a.stop == StopRaises(Unexpected))
  }

  predicate InternalError(pc: PC) {
    Behind(pc) == FailRead(InternalOrchestrationError, InHandler) || Behind(pc) == Escaped
  }

  /** An internal error is met exactly when the environment has raised it. */
  ghost predicate Blameless(s: Core, r: Core, a: Answer) {
    (InternalError(r.pc) <==> Raised(s.pc, a)) == true
  }

  lemma BindingErrors(cfg: Config, s: Core, now: Time, a: Answer)
    requires CoreInv(cfg, s, now) && (s.pc.BindFiles? || s.pc.AfterBindFailure?)
    ensures Blameless(s, StepCore(cfg, s, now, a), a)
  {
  }

  lemma BumpErrors(cfg: Config, s: Core, now: Time, attempt: nat, a: Answer)
    requires CoreInv(cfg, s, now) && s.pc == BumpAttempt(attempt)
    ensures Blameless(s, StepBumpAttempt(s, now, attempt), a)
  {
  }

  lemma MarkErrors(cfg: Config, s: Core, now: Time, a: Answer)
    requires CoreInv(cfg, s, now) && s.pc == MarkPreparing
    ensures Blameless(s, StepMarkPreparing(s, now), a)
  {
  }

  lemma SaveBindingErrors(cfg: Config, s: Core, now: Time, binding: Binding, a: Answer)
    requires CoreInv(cfg, s, now) && s.pc == SaveBinding(binding)
    ensures Blameless(s, StepSaveBinding(s, now, binding), a)
  {
  }

  lemma BindingWriteErrors(cfg: Config, s: Core, now: Time, a: Answer)
    requires CoreInv(cfg, s, now) && (s.pc.BumpAttempt? || s.pc.MarkPreparing? || s.pc.SaveBinding?)
    ensures Blameless(s, StepCore(cfg, s, now, a), a)
  {
    match s.pc
    case BumpAttempt(attempt) => BumpErrors(cfg, s, now, attempt, a);
    case MarkPreparing => MarkErrors(cfg, s, now, a);
    case SaveBinding(binding) => SaveBindingErrors(cfg, s, now, binding, a);
  }

  lemma PollingErrors(cfg: Config, s: Core, now: Time, a: Answer)
    requires CoreInv(cfg, s, now) && (s.pc.CheckBeforeGateway? || s.pc.PollGateway? || s.pc.SaveGatewayStatus?)
    ensures Blameless(s, StepCore(cfg, s, now, a), a)
  {
  }

  lemma HealthErrors(cfg: Config, s: Core, now: Time, a: Answer)
    requires CoreInv(cfg, s, now) && (s.pc.CheckHealth? || s.pc.CheckAfterHealth?)
    ensures Blameless(s, StepCore(cfg, s, now, a), a)
  {
  }

  lemma HealthPhaseErrors(cfg: Config, s: Core, now: Time, a: Answer)
    requires CoreInv(cfg, s, now) && s.pc.SaveHealthPhase?
    ensures Blameless(s, StepCore(cfg, s, now, a), a)
  {
  }

  lemma UrlErrors(cfg: Config, s: Core, now: Time, a: Answer)
    requires CoreInv(cfg, s, now) && s.pc.SaveUrl?
    ensures Blameless(s, StepCore(cfg, s, now, a), a)
  {
  }

  lemma CreatingErrors(cfg: Config, s: Core, now: Time, a: Answer)
    requires CoreInv(cfg, s, now) && (s.pc.CreateGateway? || s.pc.CreateController?)
    ensures Blameless(s, StepCore(cfg, s, now, a), a)
  {
  }

  lemma SavingErrors(cfg: Config, s: Core, now: Time, a: Answer)
    requires CoreInv(cfg, s, now) && CreatingRJobs(s.pc) && !s.pc.CreateGateway? && !s.pc.CreateController?
    ensures Blameless(s, StepCore(cfg, s, now, a), a)
  {
  }

  lemma StoppingErrors(cfg: Config, s: Core, now: Time, a: Answer)
    requires CoreInv(cfg, s, now) && (s.pc.StopController? || s.pc.StopGateway?)
    ensures Blameless(s, StepCore(cfg, s, now, a), a)
  {
  }

  lemma CleaningErrors(cfg: Config, s: Core, now: Time, a: Answer)
    requires CoreInv(cfg, s, now) && (s.pc.CleanRead? || s.pc.CleanSkip?)
    ensures Blameless(s, StepCore(cfg, s, now, a), a)
  {
  }

  lemma ClosingErrors(cfg: Config, s: Core, now: Time, a: Answer)
    requires CoreInv(cfg, s, now) && s.pc.CleanWrite?
    ensures Blameless(s, StepCore(cfg, s, now, a), a)
  {
  }

  lemma SupervisionErrors(cfg: Config, s: Core, now: Time, a: Answer)
    requires CoreInv(cfg, s, now) && !BindingFiles(s.pc) && !ProbingGateway(s.pc) && !Dealing(s.pc)
    requires !s.pc.Log? && !s.pc.Escaped? && !s.pc.SaveControllerStatus? && !s.pc.Succeed? && !s.pc.FailWrite?
    ensures Blameless(s, StepCore(cfg, s, now, a), a)
  {
  }

  lemma JudgingErrors(cfg: Config, s: Core, now: Time, a: Answer)
    requires CoreInv(cfg, s, now) && s.pc.SaveControllerStatus?
    ensures Blameless(s, StepCore(cfg, s, now, a), a)
  {
  }

  lemma FinishingErrors(cfg: Config, s: Core, now: Time, a: Answer)
    requires CoreInv(cfg, s, now) && (s.pc.Succeed? || s.pc.FailWrite?)
    ensures Blameless(s, StepCore(cfg, s, now, a), a)
  {
  }

  /**
   No internal error is home-made: the coroutine raises one, or ends the loop by one, if and only if the
   environment raised it at that very await.  The terminal guard of the store, the missing
   gateway URL and the vanished job are never met.
   */
  lemma InternalErrorsComeFromOutside(cfg: Config, jobId: string, rangeId: string, now: Time,
                                      inputs: seq<Input>, a: Answer)
    ensures var s := Run(cfg, Init(jobId, rangeId, now), inputs).core;
            var at := Run(cfg, Init(jobId, rangeId, now), inputs).now;
            !s.pc.Log? && !s.pc.Escaped? ==> (InternalError(StepCore(cfg, s, at, a).pc) <==> Raised(s.pc, a))
  {
    InitHoldsAll(cfg, jobId, rangeId, now);
    RunKeepsAll(cfg, Init(jobId, rangeId, now), inputs);
    var end := Run(cfg, Init(jobId, rangeId, now), inputs);
    var s := end.core;
    assert CoreInv(cfg, s, end.now);
    if !s.pc.Log? && !s.pc.Escaped? {
      if s.pc.BindFiles? || s.pc.AfterBindFailure? {
        BindingErrors(cfg, s, end.now, a);
      } else if BindingFiles(s.pc) {
        BindingWriteErrors(cfg, s, end.now, a);
      } else if s.pc.CheckBeforeGateway? || s.pc.PollGateway? || s.pc.SaveGatewayStatus? {
        PollingErrors(cfg, s, end.now, a);
      } else if s.pc.SaveHealthPhase? {
        HealthPhaseErrors(cfg, s, end.now, a);
      } else if s.pc.SaveUrl? {
        UrlErrors(cfg, s, end.now, a);
      } else if ProbingGateway(s.pc) {
        HealthErrors(cfg, s, end.now, a);
      } else if s.pc.CreateGateway? || s.pc.CreateController? {
        CreatingErrors(cfg, s, end.now, a);
      } else if CreatingRJobs(s.pc) {
        SavingErrors(cfg, s, end.now, a);
      } else if s.pc.CleanWrite? {
        ClosingErrors(cfg, s, end.now, a);
      } else if s.pc.StopController? || s.pc.StopGateway? {
        StoppingErrors(cfg, s, end.now, a);
      } else if CleaningUp(s.pc) {
        CleaningErrors(cfg, s, end.now, a);
      } else if s.pc.SaveControllerStatus? {
        JudgingErrors(cfg, s, end.now, a);
      } else if s.pc.Succeed? || s.pc.FailWrite? {
        FinishingErrors(cfg, s, end.now, a);
      } else {
        SupervisionErrors(cfg, s, end.now, a);
      }
    }
  }

  // --- The end of the loop -----------------------------------------------------------------------

  /** A stop outside the body of a reconciliation has raised something other than a dependency error. */
  predicate EndsLoop(pc: PC, a: Answer) {
    && (pc.StopController? || pc.StopGateway?)
    && (pc.caller.InHandler? || pc.caller.InSweep?)
    && a.stop == StopRaises(Unexpected)
  }

  /** Nothing escapes behind an event append. */
  ghost predicate NoHiddenEscape(s: Core) {
    (s.pc.Log? ==> !After(s.pc).Escaped?) == true
  }

  lemma EscapesAtStops(cfg: Config, s: Core, now: Time, a: Answer)
    requires CoreInv(cfg, s, now) && !s.pc.Log? && !s.pc.Escaped?
    ensures StepCore(cfg, s, now, a).pc.Escaped? <==> EndsLoop(s.pc, a)
  {
    if BindingFiles(s.pc) {
      BindingEscapes(cfg, s, now, a);
    } else if ProbingGateway(s.pc) {
      ProbingEscapes(cfg, s, now, a);
    } else if CreatingRJobs(s.pc) {
      CreatingEscapes(cfg, s, now, a);
    } else if CleaningUp(s.pc) {
      CleaningEscapes(cfg, s, now, a);
    } else {
      SupervisionEscapes(cfg, s, now, a);
    }
  }

  lemma BindingEscapes(cfg: Config, s: Core, now: Time, a: Answer)
    requires CoreInv(cfg, s, now) && BindingFiles(s.pc)
    ensures !StepCore(cfg, s, now, a).pc.Escaped?
  {
  }

  lemma ProbingEscapes(cfg: Config, s: Core, now: Time, a: Answer)
    requires CoreInv(cfg, s, now) && ProbingGateway(s.pc)
    ensures !StepCore(cfg, s, now, a).pc.Escaped?
  {
  }

  lemma CreatingEscapes(cfg: Config, s: Core, now: Time, a: Answer)
    requires CoreInv(cfg, s, now) && CreatingRJobs(s.pc)
    ensures !StepCore(cfg, s, now, a).pc.Escaped?
  {
  }

  lemma CleaningEscapes(cfg: Config, s: Core, now: Time, a: Answer)
    requires CoreInv(cfg, s, now) && CleaningUp(s.pc)
    ensures StepCore(cfg, s, now, a).pc.Escaped? <==> EndsLoop(s.pc, a)
  {
  }

  lemma SupervisionEscapes(cfg: Config, s: Core, now: Time, a: Answer)
    requires CoreInv(cfg, s, now) && !BindingFiles(s.pc) && !ProbingGateway(s.pc) && !Dealing(s.pc)
    requires !s.pc.Log? && !s.pc.Escaped?
    ensures !StepCore(cfg, s, now, a).pc.Escaped?
  {
  }

  lemma EscapesStayVisible(cfg: Config, s: JobState, i: Input)
    requires AllInv(cfg, s) && NoHiddenEscape(s.core)
    ensures NoHiddenEscape(Next(cfg, s, i).core)
  {
    if i.Advance? {
      var r := StepCore(cfg, s.core, s.now, i.a);
      if s.core.pc.Log? {
        assert After(s.core.pc) == After(s.core.pc.next);
      } else if s.core.pc.CleanWrite? {
        assert r.pc.Log? && r.pc.next.Log? ==> After(r.pc) == r.pc.next.next;
        assert r.pc.Log? && !r.pc.next.Log? ==> After(r.pc) == r.pc.next;
      } else {
        OneEventAtATime(cfg, s.core, s.now, i.a);
        LogsLeadOn(cfg, s.core, s.now, i.a);
        assert r.pc.Log? ==> After(r.pc) == r.pc.next;
      }
    }
  }

  lemma LogsLeadOn(cfg: Config, s: Core, now: Time, a: Answer)
    requires !s.pc.Log? && !s.pc.CleanWrite?
    ensures var pc := StepCore(cfg, s, now, a).pc; pc.Log? ==> !pc.next.Escaped?
  {
    if Dealing(s.pc) {
      DealingLogs(cfg, s, now, a);
    } else if !BindingFiles(s.pc) && !ProbingGateway(s.pc) {
      SupervisionLogs(cfg, s, now, a);
    }
  }

  lemma DealingLogs(cfg: Config, s: Core, now: Time, a: Answer)
    requires Dealing(s.pc) && !s.pc.CleanWrite?
    ensures var pc := StepCore(cfg, s, now, a).pc; pc.Log? ==> !pc.next.Escaped?
  {
  }

  lemma SupervisionLogs(cfg: Config, s: Core, now: Time, a: Answer)
    requires !s.pc.Log? && !BindingFiles(s.pc) && !ProbingGateway(s.pc) && !Dealing(s.pc)
    ensures var pc := StepCore(cfg, s, now, a).pc; pc.Log? ==> !pc.next.Escaped?
  {
  }

  /** At this position such a stop was answered, and the process has not died since. */
  ghost predicate LoopEndedAt(cfg: Config, s: JobState, inputs: seq<Input>, k: nat) {
    && k < |inputs| && inputs[k].Advance?
    && EndsLoop(Run(cfg, s, inputs[..k]).core.pc, inputs[k].a)
    && forall q :: k < q < |inputs| ==> !inputs[q].Crash?
  }

  lemma EscapeNext(cfg: Config, s: JobState, i: Input)
    requires AllInv(cfg, s) && NoHiddenEscape(s.core)
    ensures Next(cfg, s, i).core.pc.Escaped? <==>
            (s.core.pc.Escaped? && !i.Crash?) || (i.Advance? && EndsLoop(s.core.pc, i.a))
  {
    assert CoreInv(cfg, s.core, s.now);
    if i.Advance? {
      if s.core.pc.Log? {
        assert After(s.core.pc) == After(s.core.pc.next);
      } else if !s.core.pc.Escaped? {
        EscapesAtStops(cfg, s.core, s.now, i.a);
      }
    }
  }

  lemma {:induction false} LoopEnds(cfg: Config, s: JobState, inputs: seq<Input>)
    requires AllInv(cfg, s) && s.core.pc.Idle?
    ensures AllInv(cfg, Run(cfg, s, inputs)) && NoHiddenEscape(Run(cfg, s, inputs).core)
    ensures Run(cfg, s, inputs).core.pc.Escaped? <==> exists k: nat :: LoopEndedAt(cfg, s, inputs, k)
    decreases |inputs|
  {
    if inputs != [] {
      var front, last := inputs[..|inputs| - 1], inputs[|inputs| - 1];
      assert inputs == front + [last];
      RunSplits(cfg, s, front, last);
      LoopEnds(cfg, s, front);
      var mid := Run(cfg, s, front);
      EscapesStayVisible(cfg, mid, last);
      EscapeNext(cfg, mid, last);
      NextKeepsAll(cfg, mid, last);
      EndedOneLater(cfg, s, front, last);
    }
  }

  lemma EndedOneLater(cfg: Config, s: JobState, front: seq<Input>, last: Input)
    ensures (exists k: nat :: LoopEndedAt(cfg, s, front + [last], k)) <==>
            ((exists k: nat :: LoopEndedAt(cfg, s, front, k)) && !last.Crash?)
            || (last.Advance? && EndsLoop(Run(cfg, s, front).core.pc, last.a))
  {
    var inputs := front + [last];
    assert inputs[..|front|] == front;
    if k: nat :| LoopEndedAt(cfg, s, inputs, k) && k < |front| {
      assert inputs[..k] == front[..k] && inputs[k] == front[k];
      assert inputs[|front|] == last;
      assert forall q :: k < q < |front| ==> front[q] == inputs[q];
      assert LoopEndedAt(cfg, s, front, k);
    }
    if k: nat :| LoopEndedAt(cfg, s, front, k) {
      if !last.Crash? {
        assert inputs[..k] == front[..k];
        assert LoopEndedAt(cfg, s, inputs, k);
      }
    }
    if last.Advance? && EndsLoop(Run(cfg, s, front).core.pc, last.a) {
      assert LoopEndedAt(cfg, s, inputs, |front|);
    }
  }

  /**
   An exception ends the loop in the visit of a job if and only if a stop of that job, issued by the
   failure procedure of an exception handler or by the cleanup half of a pass, raised something other than
   a dependency error; and the loop stays ended until the process is started anew.
   */
  lemma LoopEndsExactlyAtStops(cfg: Config, jobId: string, rangeId: string, now: Time, inputs: seq<Input>)
    ensures Run(cfg, Init(jobId, rangeId, now), inputs).core.pc.Escaped? <==>
            exists k: nat :: LoopEndedAt(cfg, Init(jobId, rangeId, now), inputs, k)
  {
    InitHoldsAll(cfg, jobId, rangeId, now);
    LoopEnds(cfg, Init(jobId, rangeId, now), inputs);
  }

  /** The gateway check after controller submission never fails: the same snapshot has passed the route check. */
  lemma RecheckIsDead(cfg: Config, jobId: string, rangeId: string, now: Time, inputs: seq<Input>, a: Answer)
    ensures var s := Run(cfg, Init(jobId, rangeId, now), inputs).core;
            var at := Run(cfg, Init(jobId, rangeId, now), inputs).now;
            s.pc.CheckBeforeController? || s.pc.SaveController? || s.pc.SaveControllerWhileClosing? ==>
              !Behind(StepCore(cfg, s, at, a).pc).FailRead?
  {
    InitHoldsAll(cfg, jobId, rangeId, now);
    RunKeepsAll(cfg, Init(jobId, rangeId, now), inputs);
    var end := Run(cfg, Init(jobId, rangeId, now), inputs);
    assert CoreInv(cfg, end.core, end.now);
    if end.core.pc.CheckBeforeController? || end.core.pc.SaveController? || end.core.pc.SaveControllerWhileClosing? {
      RecheckPasses(cfg, end.core, end.now, a);
    }
  }

  lemma RecheckPasses(cfg: Config, s: Core, now: Time, a: Answer)
    requires CoreInv(cfg, s, now)
    requires s.pc.CheckBeforeController? || s.pc.SaveController? || s.pc.SaveControllerWhileClosing?
    ensures !Behind(StepCore(cfg, s, now, a).pc).FailRead?
  {
  }
}
