/**
 What the traces of a job say: which platform jobs it still holds, in which order it stops
 them, how many it may still create after a close, and what a platform keyed by idempotency
 key adds.
 */
module JobTraces {
  import opened Wrappers
  import opened ControlStore
  import opened Platform
  import opened JobMachine
  import opened JobInvariant

  /** Created and not stopped since. */
  function Live(t: Trace): set<RJobId> {
    match t
    case Start => {}
    case Then(b, Created(_, id)) => Live(b) + {id}
    case Then(b, Stopped(_, id)) => Live(b) - {id}
    case Then(b, _) => Live(b)
  }

  /** Created, and neither written to the row nor stopped since. */
  function Orphans(t: Trace): set<RJobId> {
    match t
    case Start => {}
    case Then(b, Created(_, id)) => Orphans(b) + {id}
    case Then(b, Recorded(_, id)) => Orphans(b) - {id}
    case Then(b, Stopped(_, id)) => Orphans(b) - {id}
    case Then(b, _) => Orphans(b)
  }

  lemma {:induction false} OrphansAreLive(t: Trace)
    ensures Orphans(t) <= Live(t)
  {
    if t.Then? {
      OrphansAreLive(t.before);
    }
  }

  function Ids(row: ControlJob): set<RJobId> {
    (if row.gatewayId.Some? then {row.gatewayId.value} else {})
    + (if row.controllerId.Some? then {row.controllerId.value} else {})
  }

  /** Cleanup is over and, unless told to keep them, every platform job should be gone. */
  predicate Settled(cfg: Config, row: ControlJob) {
    !row.cleanup && (row.status == Closed || (Terminal(row.status) && !cfg.keepRJobs))
  }

  /** The recorded ids that may still be live at a control point. */
  function Held(cfg: Config, row: ControlJob, pc: PC): set<RJobId> {
    if pc.StopGateway? then {pc.id}
    else if pc.CleanWrite? || Settled(cfg, row) then {}
    else Ids(row)
  }

  /** The stops of the cleanup attempt under way. */
  datatype Attempt =
    | NoAttempt
    | Attempt(gateway: Option<RJobId>, controller: Option<RJobId>, controllerStopped: bool, raised: bool)

  function LastAttempt(t: Trace): Attempt {
    match t
    case Start => NoAttempt
    case Then(_, CleanupBegan(g, c)) => Attempt(g, c, false, false)
    case Then(b, Stopped(Controller, id)) =>
      var at := LastAttempt(b);
      if at.Attempt? && at.controller == Some(id) then at.(controllerStopped := true) else at
    case Then(b, StopRaised(_, _)) =>
      var at := LastAttempt(b);
      if at.Attempt? then at.(raised := true) else at
    case Then(b, _) => LastAttempt(b)
  }

  predicate ControllerOut(at: Attempt) {
    at.Attempt? && (at.controller.Some? ==> at.controllerStopped)
  }

  /** No gateway stop is issued before the controller of the same attempt is out of the way. */
  predicate Ordered(t: Trace) {
    match t
    case Start => true
    case Then(b, StopIssued(Gateway, _)) => Ordered(b) && ControllerOut(LastAttempt(b))
    case Then(b, _) => Ordered(b)
  }

  /** While stops are being issued, the attempt speaks of the ids in the row. */
  ghost predicate AttemptAt(s: Core, pc: PC) {
    var at := LastAttempt(s.ops);
    && (pc.StopController? || pc.StopGateway? || pc.CleanWrite? ==>
          at.Attempt? && at.controller == s.row.controllerId && at.gateway == s.row.gatewayId && !at.raised)
    && (pc.StopGateway? || pc.CleanWrite? ==> ControllerOut(at))
  }

  ghost predicate TraceInv(cfg: Config, s: Core) {
    (&& Live(s.ops) <= Orphans(s.ops) + Held(cfg, s.row, After(s.pc))
     && Ordered(s.ops)
     && AttemptAt(s, After(s.pc))) == true
  }

  predicate CreatingRJobs(pc: PC) {
    pc.CreateGateway? || pc.SaveGateway? || pc.CreateController? || pc.SaveController? || pc.SaveControllerWhileClosing?
  }

  predicate CleaningUp(pc: PC) {
    pc.CleanRead? || pc.CleanSkip? || pc.StopController? || pc.StopGateway? || pc.CleanWrite?
  }

  predicate Dealing(pc: PC) {
    CreatingRJobs(pc) || CleaningUp(pc)
  }

  predicate AtStops(pc: PC) {
    pc.StopController? || pc.StopGateway? || pc.CleanWrite?
  }

  /** Steps that neither touch the platform's jobs nor the ids in the row. */
  ghost predicate Untouched(cfg: Config, s: Core, r: Core) {
    (&& r.ops == s.ops
     && r.row.gatewayId == s.row.gatewayId && r.row.controllerId == s.row.controllerId
     && (Settled(cfg, r.row) ==> Settled(cfg, s.row))
     && !AtStops(After(r.pc))) == true
  }

  predicate BindingFiles(pc: PC) {
    pc.BumpAttempt? || pc.MarkPreparing? || pc.BindFiles? || pc.AfterBindFailure? || pc.SaveBinding?
  }

  predicate ProbingGateway(pc: PC) {
    pc.CheckBeforeGateway? || pc.PollGateway? || pc.SaveGatewayStatus? || pc.CheckHealth? || pc.CheckAfterHealth?
    || pc.SaveHealthPhase? || pc.SaveUrl?
  }

  lemma BindingDoesNotTouch(cfg: Config, s: Core, now: Time, a: Answer)
    requires BindingFiles(s.pc)
    ensures Untouched(cfg, s, StepCore(cfg, s, now, a))
  {
  }

  lemma ProbingDoesNotTouch(cfg: Config, s: Core, now: Time, a: Answer)
    requires ProbingGateway(s.pc)
    ensures Untouched(cfg, s, StepCore(cfg, s, now, a))
  {
  }

  /** The writes of supervision and failure. */
  predicate Judging(pc: PC) {
    pc.SaveControllerStatus? || pc.Succeed? || pc.FailWrite?
  }

  lemma StatusDoesNotTouch(cfg: Config, s: Core, now: Time, a: Answer)
    requires CoreInv(cfg, s, now) && s.pc.SaveControllerStatus?
    ensures Untouched(cfg, s, StepCore(cfg, s, now, a))
  {
  }

  lemma SuccessDoesNotTouch(cfg: Config, s: Core, now: Time, a: Answer)
    requires CoreInv(cfg, s, now) && s.pc.Succeed?
    ensures Untouched(cfg, s, StepCore(cfg, s, now, a))
  {
  }

  lemma FailureDoesNotTouch(cfg: Config, s: Core, now: Time, a: Answer)
    requires CoreInv(cfg, s, now) && s.pc.FailWrite?
    ensures Untouched(cfg, s, StepCore(cfg, s, now, a))
  {
  }

  lemma JudgingDoesNotTouch(cfg: Config, s: Core, now: Time, a: Answer)
    requires CoreInv(cfg, s, now) && Judging(s.pc)
    ensures Untouched(cfg, s, StepCore(cfg, s, now, a))
  {
    if s.pc.SaveControllerStatus? {
      StatusDoesNotTouch(cfg, s, now, a);
    } else if s.pc.Succeed? {
      SuccessDoesNotTouch(cfg, s, now, a);
    } else {
      FailureDoesNotTouch(cfg, s, now, a);
    }
  }

  lemma OtherStepsDoNotTouch(cfg: Config, s: Core, now: Time, a: Answer)
    requires CoreInv(cfg, s, now) && !Dealing(s.pc) && !BindingFiles(s.pc) && !ProbingGateway(s.pc) && !s.pc.Log?
    ensures Untouched(cfg, s, StepCore(cfg, s, now, a))
  {
    if Judging(s.pc) {
      JudgingDoesNotTouch(cfg, s, now, a);
    } else {
      ReadsDoNotTouch(cfg, s, now, a);
    }
  }

  lemma ReadsDoNotTouch(cfg: Config, s: Core, now: Time, a: Answer)
    requires CoreInv(cfg, s, now) && !Dealing(s.pc) && !BindingFiles(s.pc) && !ProbingGateway(s.pc) && !s.pc.Log?
    requires !Judging(s.pc)
    ensures Untouched(cfg, s, StepCore(cfg, s, now, a))
  {
  }

  /** What one more operation does to the views of a trace. */
  lemma OneOp(t: Trace, op: Op)
    ensures Live(Then(t, op)) ==
            if op.Created? then Live(t) + {op.id} else if op.Stopped? then Live(t) - {op.id} else Live(t)
    ensures Orphans(Then(t, op)) ==
            if op.Created? then Orphans(t) + {op.id}
            else if op.Recorded? || op.Stopped? then Orphans(t) - {op.id} else Orphans(t)
    ensures Ordered(Then(t, op)) == (Ordered(t) && (op.StopIssued? && op.role == Gateway ==> ControllerOut(LastAttempt(t))))
    ensures op.CreateIssued? || op.Created? || op.Recorded? || op.StopIssued? ==> LastAttempt(Then(t, op)) == LastAttempt(t)
    ensures op.Stopped? && op.role == Gateway ==> LastAttempt(Then(t, op)) == LastAttempt(t)
  {
  }

  lemma CreateGatewayTraces(cfg: Config, s: Core, now: Time, a: Answer)
    requires s.pc.CreateGateway? && CoreInv(cfg, s, now) && TraceInv(cfg, s)
    ensures TraceInv(cfg, StepCore(cfg, s, now, a))
  {
    var r := StepCore(cfg, s, now, a);
    var issued := Then(s.ops, CreateIssued(Gateway));
    OneOp(s.ops, CreateIssued(Gateway));
    if r.ops != issued {
      OneOp(issued, r.ops.op);
    }
    assert r.row == s.row && !AtStops(After(r.pc));
  }

  lemma SaveGatewayTraces(cfg: Config, s: Core, now: Time, a: Answer)
    requires s.pc.SaveGateway? && CoreInv(cfg, s, now) && TraceInv(cfg, s)
    ensures TraceInv(cfg, StepCore(cfg, s, now, a))
  {
  }

  lemma CreateControllerTraces(cfg: Config, s: Core, now: Time, a: Answer)
    requires s.pc.CreateController? && CoreInv(cfg, s, now) && TraceInv(cfg, s)
    ensures TraceInv(cfg, StepCore(cfg, s, now, a))
  {
    var r := StepCore(cfg, s, now, a);
    var issued := Then(s.ops, CreateIssued(Controller));
    OneOp(s.ops, CreateIssued(Controller));
    if r.ops != issued {
      OneOp(issued, r.ops.op);
    }
    assert r.row == s.row && !AtStops(After(r.pc));
  }

  lemma SaveControllerTraces(cfg: Config, s: Core, now: Time, a: Answer)
    requires s.pc.SaveController? && CoreInv(cfg, s, now) && TraceInv(cfg, s)
    ensures TraceInv(cfg, StepCore(cfg, s, now, a))
  {
  }

  lemma SaveControllerWhileClosingTraces(cfg: Config, s: Core, now: Time, a: Answer)
    requires s.pc.SaveControllerWhileClosing? && CoreInv(cfg, s, now) && TraceInv(cfg, s)
    ensures TraceInv(cfg, StepCore(cfg, s, now, a))
  {
  }

  lemma CleanReadTraces(cfg: Config, s: Core, now: Time, a: Answer)
    requires s.pc.CleanRead? && CoreInv(cfg, s, now) && TraceInv(cfg, s)
    ensures TraceInv(cfg, StepCore(cfg, s, now, a))
  {
  }

  lemma CleanSkipTraces(cfg: Config, s: Core, now: Time, a: Answer)
    requires s.pc.CleanSkip? && CoreInv(cfg, s, now) && TraceInv(cfg, s)
    ensures TraceInv(cfg, StepCore(cfg, s, now, a))
  {
  }

  lemma StopControllerTraces(cfg: Config, s: Core, now: Time, a: Answer)
    requires s.pc.StopController? && CoreInv(cfg, s, now) && TraceInv(cfg, s)
    ensures TraceInv(cfg, StepCore(cfg, s, now, a))
  {
    var r := StepCore(cfg, s, now, a);
    var issued := Then(s.ops, StopIssued(Controller, s.pc.id));
    OneOp(s.ops, StopIssued(Controller, s.pc.id));
    assert AttemptAt(s, s.pc) && LastAttempt(s.ops).controller == Some(s.pc.id);
    OneOp(issued, r.ops.op);
    if a.stop.StopReturns? {
      assert r.ops == Then(issued, Stopped(Controller, s.pc.id));
      assert After(r.pc) == r.pc.next == EnterStopGateway(s.row.gatewayId, s.pc.closing, s.pc.caller);
      assert LastAttempt(r.ops) == LastAttempt(s.ops).(controllerStopped := true);
      assert AttemptAt(r, r.pc.next);
    } else {
      assert r.ops == Then(issued, StopRaised(Controller, s.pc.id));
      assert !AtStops(After(r.pc));
    }
  }

  lemma StopGatewayTraces(cfg: Config, s: Core, now: Time, a: Answer)
    requires s.pc.StopGateway? && CoreInv(cfg, s, now) && TraceInv(cfg, s)
    ensures TraceInv(cfg, StepCore(cfg, s, now, a))
  {
    var r := StepCore(cfg, s, now, a);
    var issued := Then(s.ops, StopIssued(Gateway, s.pc.id));
    OneOp(s.ops, StopIssued(Gateway, s.pc.id));
    assert AttemptAt(s, s.pc);
    OneOp(issued, r.ops.op);
    if a.stop.StopReturns? {
      assert r.ops == Then(issued, Stopped(Gateway, s.pc.id));
      assert After(r.pc) == r.pc.next == CleanWrite(s.pc.closing, s.pc.caller);
    } else {
      assert r.ops == Then(issued, StopRaised(Gateway, s.pc.id));
      assert !AtStops(After(r.pc));
    }
  }

  lemma CleanWriteTraces(cfg: Config, s: Core, now: Time, a: Answer)
    requires s.pc.CleanWrite? && CoreInv(cfg, s, now) && TraceInv(cfg, s)
    ensures TraceInv(cfg, StepCore(cfg, s, now, a))
  {
  }

  lemma DealingTraces(cfg: Config, s: Core, now: Time, a: Answer)
    requires Dealing(s.pc) && CoreInv(cfg, s, now) && TraceInv(cfg, s)
    ensures TraceInv(cfg, StepCore(cfg, s, now, a))
  {
    match s.pc
    case CreateGateway => CreateGatewayTraces(cfg, s, now, a);
    case SaveGateway(_) => SaveGatewayTraces(cfg, s, now, a);
    case CreateController(_, _) => CreateControllerTraces(cfg, s, now, a);
    case SaveController(_, _, _, _) => SaveControllerTraces(cfg, s, now, a);
    case SaveControllerWhileClosing(_, _, _, _) => SaveControllerWhileClosingTraces(cfg, s, now, a);
    case CleanRead(_) => CleanReadTraces(cfg, s, now, a);
    case CleanSkip(_) => CleanSkipTraces(cfg, s, now, a);
    case StopController(_, _, _, _) => StopControllerTraces(cfg, s, now, a);
    case StopGateway(_, _, _) => StopGatewayTraces(cfg, s, now, a);
    case CleanWrite(_, _) => CleanWriteTraces(cfg, s, now, a);
  }

  lemma UntouchedTraces(cfg: Config, s: Core, r: Core)
    requires TraceInv(cfg, s) && Untouched(cfg, s, r) && !AtStops(After(s.pc))
    ensures TraceInv(cfg, r)
  {
  }

  lemma StepCoreTraces(cfg: Config, s: Core, now: Time, a: Answer)
    requires CoreInv(cfg, s, now) && TraceInv(cfg, s)
    ensures TraceInv(cfg, StepCore(cfg, s, now, a))
  {
    if Dealing(s.pc) {
      DealingTraces(cfg, s, now, a);
    } else if s.pc.Log? {
      assert After(s.pc) == After(StepCore(cfg, s, now, a).pc);
    } else {
      if BindingFiles(s.pc) {
        BindingDoesNotTouch(cfg, s, now, a);
      } else if ProbingGateway(s.pc) {
        ProbingDoesNotTouch(cfg, s, now, a);
      } else {
        OtherStepsDoNotTouch(cfg, s, now, a);
      }
      UntouchedTraces(cfg, s, StepCore(cfg, s, now, a));
    }
  }

  lemma CloseTraces(cfg: Config, s: Core, now: Time)
    requires CoreInv(cfg, s, now) && TraceInv(cfg, s)
    ensures TraceInv(cfg, s.(row := CloseRow(s.row, now).0))
  {
  }

  /** Every input keeps the trace invariant. */
  lemma OtherInputsTrace(cfg: Config, s: JobState, i: Input)
    requires Inv(cfg, s) && TraceInv(cfg, s.core) && !i.CloseRequest? && !i.Advance?
    ensures TraceInv(cfg, Next(cfg, s, i).core)
  {
  }

  lemma NextTraces(cfg: Config, s: JobState, i: Input)
    requires Inv(cfg, s) && TraceInv(cfg, s.core)
    ensures TraceInv(cfg, Next(cfg, s, i).core)
  {
    if i.CloseRequest? {
      CloseTraces(cfg, s.core, s.now);
    } else if i.Advance? {
      StepCoreTraces(cfg, s.core, s.now, i.a);
    } else {
      OtherInputsTrace(cfg, s, i);
    }
  }
}
