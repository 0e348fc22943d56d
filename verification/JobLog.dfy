/**
 The event log tells what was done on the platform: one event for every recorded id, every stop and every
 cleanup of a controller, and none without.
 */
module JobLog {
  import opened Wrappers
  import opened ControlStore
  import opened Platform
  import opened JobMachine
  import opened JobInvariant
  import opened JobTraces
  import opened JobTheorems

  /** The operation that an event of this kind announces. */
  predicate Announced(kind: EventKind, op: Op) {
    match kind
    case GatewaySubmitted => op.Recorded? && op.role == Gateway
    case ControllerSubmitted => op.Recorded? && op.role == Controller
    case GatewayDeleted => op.Stopped? && op.role == Gateway
    case ControllerDeleted => op.Stopped? && op.role == Controller
    case EpisodeCleanupRequested => op.CleanupBegan? && op.controller.Some?
    case _ => false
  }

  predicate Telling(kind: EventKind) {
    kind == GatewaySubmitted || kind == ControllerSubmitted || kind == GatewayDeleted || kind == ControllerDeleted
    || kind == EpisodeCleanupRequested
  }

  function Done(t: Trace, kind: EventKind): nat {
    match t
    case Start => 0
    case Then(b, op) => Done(b, kind) + (if Announced(kind, op) then 1 else 0)
  }

  function Logged(log: seq<EventKind>, kind: EventKind): nat {
    if log == [] then 0 else Logged(log[..|log| - 1], kind) + (if log[|log| - 1] == kind then 1 else 0)
  }

  /** Events of this kind that the coroutine is about to append. */
  function Pending(pc: PC, kind: EventKind): nat {
    if pc.Log? then (if pc.kind == kind then 1 else 0) + Pending(pc.next, kind) else 0
  }

  /** What a step does on the platform it will announce, and nothing else. */
  ghost predicate Tells(s: Core, r: Core, kind: EventKind) {
    (Done(r.ops, kind) == Done(s.ops, kind) + Pending(r.pc, kind)) == true
  }

  lemma QuietTells(s: Core, r: Core, kind: EventKind)
    requires r.ops == s.ops && Telling(kind) && Quiet(r.pc)
    requires r.pc.Log? ==> !Telling(r.pc.kind)
    ensures Tells(s, r, kind)
  {
    assert r.pc.Log? ==> Pending(r.pc.next, kind) == 0;
  }

  lemma EarlyTells(cfg: Config, s: Core, now: Time, a: Answer, kind: EventKind)
    requires Telling(kind) && (BindingFiles(s.pc) || ProbingGateway(s.pc))
    ensures Tells(s, StepCore(cfg, s, now, a), kind)
  {
    EarlySteps(cfg, s, now, a);
    QuietTells(s, StepCore(cfg, s, now, a), kind);
  }

  lemma EarlySteps(cfg: Config, s: Core, now: Time, a: Answer)
    requires BindingFiles(s.pc) || ProbingGateway(s.pc)
    ensures var r := StepCore(cfg, s, now, a);
            r.ops == s.ops && (r.pc.Log? ==> !r.pc.next.Log? && !Unique(r.pc.kind) && !Telling(r.pc.kind))
  {
  }

  lemma CreatesTell(cfg: Config, s: Core, now: Time, a: Answer, kind: EventKind)
    requires Telling(kind) && (s.pc.CreateGateway? || s.pc.CreateController?)
    ensures Tells(s, StepCore(cfg, s, now, a), kind)
  {
    var r := StepCore(cfg, s, now, a);
    var role := if s.pc.CreateGateway? then Gateway else Controller;
    var issued := Then(s.ops, CreateIssued(role));
    assert Done(issued, kind) == Done(s.ops, kind);
    assert r.ops == issued || (r.ops == Then(issued, r.ops.op) && r.ops.op.Created?);
    assert !r.pc.Log?;
  }

  lemma SaveGatewayTells(cfg: Config, s: Core, now: Time, id: RJobId, kind: EventKind)
    requires Telling(kind) && s.pc == SaveGateway(id)
    ensures Tells(s, StepSaveGateway(s, now, id), kind)
  {
    var r := StepSaveGateway(s, now, id);
    assert r.ops == Then(s.ops, Recorded(Gateway, id)) && r.pc.Log? && !r.pc.next.Log?;
  }

  lemma RecordedTells(s: Core, row: ControlJob, g: Snapshot, id: RJobId, kind: EventKind)
    requires Telling(kind)
    ensures Tells(s, AfterController(s, row, g, id), kind)
  {
    var r := AfterController(s, row, g, id);
    assert r.ops == Then(s.ops, Recorded(Controller, id)) && !r.pc.next.Log?;
  }

  lemma SaveControllerTells(cfg: Config, s: Core, now: Time, a: Answer, kind: EventKind)
    requires Telling(kind) && (s.pc.SaveController? || s.pc.SaveControllerWhileClosing?)
    ensures Tells(s, StepCore(cfg, s, now, a), kind)
  {
    var r := StepCore(cfg, s, now, a);
    if r.ops == s.ops {
      assert !r.pc.Log?;
    } else {
      assert r == AfterController(s, r.row, s.pc.g, s.pc.id);
      RecordedTells(s, r.row, s.pc.g, s.pc.id, kind);
    }
  }

  lemma CleanReadTells(cfg: Config, s: Core, caller: Caller, kind: EventKind)
    requires Telling(kind) && s.pc == CleanRead(caller)
    ensures Tells(s, StepCleanRead(cfg, s, caller), kind)
  {
    var r := StepCleanRead(cfg, s, caller);
    if r.pc.Log? {
      assert r.ops == Then(s.ops, CleanupBegan(s.row.gatewayId, s.row.controllerId)) && !r.pc.next.Log?;
    }
  }

  lemma StopsTell(cfg: Config, s: Core, now: Time, a: Answer, kind: EventKind)
    requires Telling(kind) && (s.pc.StopController? || s.pc.StopGateway?)
    ensures Tells(s, StepCore(cfg, s, now, a), kind)
  {
    var r := StepCore(cfg, s, now, a);
    var role := if s.pc.StopGateway? then Gateway else Controller;
    var issued := Then(s.ops, StopIssued(role, s.pc.id));
    assert Done(issued, kind) == Done(s.ops, kind);
    if a.stop.StopReturns? {
      assert r.ops == Then(issued, Stopped(role, s.pc.id)) && r.pc.Log? && !r.pc.next.Log?;
    } else {
      assert r.ops == Then(issued, StopRaised(role, s.pc.id)) && !r.pc.Log?;
    }
  }

  lemma CleanWritesTell(cfg: Config, s: Core, now: Time, a: Answer, kind: EventKind)
    requires Telling(kind) && (s.pc.CleanWrite? || s.pc.CleanSkip?)
    ensures Tells(s, StepCore(cfg, s, now, a), kind)
  {
    var r := StepCore(cfg, s, now, a);
    var caller := s.pc.caller;
    assert r.ops == s.ops && Pending(Return(caller), kind) == 0;
    if r.pc.Log? && r.pc.next.Log? {
      assert r.pc == Log(CleanupCompleted, Log(JobClosed, Return(caller)));
      assert Pending(r.pc.next, kind) == 0;
    } else if r.pc.Log? {
      assert r.pc.next == Return(caller) && !Telling(r.pc.kind);
    }
  }

  lemma OthersTell(cfg: Config, s: Core, now: Time, a: Answer, kind: EventKind)
    requires Telling(kind) && !BindingFiles(s.pc) && !ProbingGateway(s.pc) && !Dealing(s.pc) && !s.pc.Log?
    ensures Tells(s, StepCore(cfg, s, now, a), kind)
  {
    var r := StepCore(cfg, s, now, a);
    assert r.ops == s.ops && (r.pc.Log? ==> !r.pc.next.Log? && !Telling(r.pc.kind));
  }

  lemma StepTells(cfg: Config, s: Core, now: Time, a: Answer, kind: EventKind)
    requires Telling(kind) && !s.pc.Log?
    ensures Tells(s, StepCore(cfg, s, now, a), kind)
  {
    if BindingFiles(s.pc) || ProbingGateway(s.pc) {
      EarlyTells(cfg, s, now, a, kind);
    } else if CreatingRJobs(s.pc) {
      match s.pc
      case SaveGateway(id) => SaveGatewayTells(cfg, s, now, id, kind);
      case SaveController(_, _, _, _) => SaveControllerTells(cfg, s, now, a, kind);
      case SaveControllerWhileClosing(_, _, _, _) => SaveControllerTells(cfg, s, now, a, kind);
      case _ => CreatesTell(cfg, s, now, a, kind);
    } else if CleaningUp(s.pc) {
      match s.pc
      case CleanRead(caller) => CleanReadTells(cfg, s, caller, kind);
      case StopController(_, _, _, _) => StopsTell(cfg, s, now, a, kind);
      case StopGateway(_, _, _) => StopsTell(cfg, s, now, a, kind);
      case _ => CleanWritesTell(cfg, s, now, a, kind);
    } else {
      OthersTell(cfg, s, now, a, kind);
    }
  }

  // --- Runs --------------------------------------------------------------------------------------

  /** Operations of which nothing is logged, nor will be: their event was lost in a crash. */
  function Untold(s: JobState, kind: EventKind): int {
    Done(s.core.ops, kind) - Logged(s.log, kind) - Pending(s.core.pc, kind)
  }

  lemma LoggedOneMore(log: seq<EventKind>, last: EventKind, kind: EventKind)
    ensures Logged(log + [last], kind) == Logged(log, kind) + (if last == kind then 1 else 0)
  {
    assert (log + [last])[..|log|] == log;
  }

  lemma AwaitTells(cfg: Config, s: JobState, a: Answer, kind: EventKind)
    requires Telling(kind)
    ensures Untold(StepAwait(cfg, s, a), kind) == Untold(s, kind)
  {
    if s.core.pc.Log? {
      LoggedOneMore(s.log, s.core.pc.kind, kind);
    } else if s.core.pc.Idle? || s.core.pc.Escaped? {
      assert StepCore(cfg, s.core, s.now, a) == s.core;
    } else {
      StepTells(cfg, s.core, s.now, a, kind);
    }
  }

  lemma NextTells(cfg: Config, s: JobState, i: Input, kind: EventKind)
    requires Telling(kind)
    ensures Untold(Next(cfg, s, i), kind) >= Untold(s, kind)
    ensures !i.Crash? ==> Untold(Next(cfg, s, i), kind) == Untold(s, kind)
  {
    if i.Advance? {
      AwaitTells(cfg, s, i.a, kind);
    } else if i.CloseHandlerLogs? && s.closeLogPending {
      LoggedOneMore(s.log, JobCloseRequested, kind);
    }
  }

  lemma {:induction false} RunTells(cfg: Config, s: JobState, inputs: seq<Input>, kind: EventKind)
    requires Telling(kind)
    ensures Untold(Run(cfg, s, inputs), kind) >= Untold(s, kind)
    ensures (forall i :: i in inputs ==> !i.Crash?) ==> Untold(Run(cfg, s, inputs), kind) == Untold(s, kind)
    decreases |inputs|
  {
    if inputs != [] {
      NextTells(cfg, s, inputs[0], kind);
      RunTells(cfg, Next(cfg, s, inputs[0]), inputs[1..], kind);
    }
  }

  /**
   The log never tells of more than was done; and in a run without crashes it tells of everything, each once, or is
   about to.
   */
  lemma EventsMatchOperations(cfg: Config, jobId: string, rangeId: string, now: Time, inputs: seq<Input>,
                              kind: EventKind)
    requires Telling(kind)
    ensures var end := Run(cfg, Init(jobId, rangeId, now), inputs);
            && Logged(end.log, kind) + Pending(end.core.pc, kind) <= Done(end.core.ops, kind)
            && ((forall i :: i in inputs ==> !i.Crash?) ==>
                  Logged(end.log, kind) + Pending(end.core.pc, kind) == Done(end.core.ops, kind))
  {
    RunTells(cfg, Init(jobId, rangeId, now), inputs, kind);
  }
}
