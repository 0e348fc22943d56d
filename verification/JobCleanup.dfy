/**
 Cleanup attempts: controllers are stopped before their gateway, and a closing job becomes
 closed in the first attempt whose stops all succeed.
 */
module JobCleanup {
  import opened Wrappers
  import opened ControlStore
  import opened Platform
  import opened JobMachine
  import opened JobInvariant
  import opened JobTraces
  import opened JobTheorems

  /** Position m holds the newest CleanupBegan of the trace. */
  ghost predicate AttemptBeganAt(ops: seq<Op>, m: nat, g: Option<RJobId>, c: Option<RJobId>) {
    && m < |ops| && ops[m] == CleanupBegan(g, c)
    && forall q :: m < q < |ops| ==> !ops[q].CleanupBegan?
  }

  ghost predicate ControllerStoppedAfter(ops: seq<Op>, m: nat, c: RJobId) {
    exists j :: m < j < |ops| && ops[j] == Stopped(Controller, c)
  }

  ghost predicate StopRaisedAfter(ops: seq<Op>, m: nat) {
    exists j :: m < j < |ops| && ops[j].StopRaised?
  }

  /** What the attempt summary of a trace means for its operations. */
  lemma {:induction false} LastAttemptByPosition(t: Trace) returns (m: nat)
    requires LastAttempt(t).Attempt?
    ensures var at := LastAttempt(t);
            AttemptBeganAt(Ops(t), m, at.gateway, at.controller)
            && (at.controllerStopped ==> at.controller.Some? && ControllerStoppedAfter(Ops(t), m, at.controller.value))
            && (at.raised <==> StopRaisedAfter(Ops(t), m))
  {
    var b := Ops(t.before);
    assert Ops(t) == b + [t.op];
    if t.op.CleanupBegan? {
      m := |b|;
    } else {
      m := LastAttemptByPosition(t.before);
      var at := LastAttempt(t);
      var before := LastAttempt(t.before);
      if at.controllerStopped {
        if before.controllerStopped {
          var j :| m < j < |b| && b[j] == Stopped(Controller, at.controller.value);
          assert Ops(t)[j] == Stopped(Controller, at.controller.value);
        } else {
          assert Ops(t)[|b|] == Stopped(Controller, at.controller.value);
        }
      }
      if before.raised {
        var j :| m < j < |b| && b[j].StopRaised?;
        assert Ops(t)[j].StopRaised?;
      } else if t.op.StopRaised? {
        assert Ops(t)[|b|].StopRaised?;
      } else {
        assert forall j :: m < j < |b| ==> b[j] == Ops(t)[j];
      }
    }
  }

  function GatewayStops(t: Trace): nat {
    match t
    case Start => 0
    case Then(b, StopIssued(Gateway, _)) => GatewayStops(b) + 1
    case Then(b, _) => GatewayStops(b)
  }

  /** Gateway stops are issued at one control point only. */
  lemma {:induction false} GatewayStopsAreIssuedAtStopGateway(cfg: Config, s: JobState, i: Input)
    ensures GatewayStops(Next(cfg, s, i).core.ops) ==
            GatewayStops(s.core.ops) + (if i.Advance? && s.core.pc.StopGateway? then 1 else 0)
  {
    if i.Advance? {
      StepStops(cfg, s.core, s.now, i.a);
    }
  }

  lemma StepStops(cfg: Config, s: Core, now: Time, a: Answer)
    ensures GatewayStops(StepCore(cfg, s, now, a).ops) == GatewayStops(s.ops) + (if s.pc.StopGateway? then 1 else 0)
  {
    var r := StepCore(cfg, s, now, a);
    if s.pc.StopGateway? {
      assert r.ops.before == Then(s.ops, StopIssued(Gateway, s.pc.id)) && !r.ops.op.StopIssued?;
      assert GatewayStops(r.ops) == GatewayStops(r.ops.before) == GatewayStops(s.ops) + 1;
    } else if s.pc.StopController? {
      assert r.ops.before == Then(s.ops, StopIssued(Controller, s.pc.id)) && !r.ops.op.StopIssued?;
      assert GatewayStops(r.ops) == GatewayStops(r.ops.before) == GatewayStops(s.ops);
    } else {
      OtherStepsStopNothing(cfg, s, now, a);
    }
  }

  lemma OtherStepsStopNothing(cfg: Config, s: Core, now: Time, a: Answer)
    requires !s.pc.StopGateway? && !s.pc.StopController?
    ensures GatewayStops(StepCore(cfg, s, now, a).ops) == GatewayStops(s.ops)
  {
    var r := StepCore(cfg, s, now, a);
    if s.pc.CreateGateway? || s.pc.CreateController? {
      var issued := Then(s.ops, CreateIssued(if s.pc.CreateGateway? then Gateway else Controller));
      assert GatewayStops(issued) == GatewayStops(s.ops);
      assert r.ops == issued || (r.ops == Then(issued, r.ops.op) && r.ops.op.Created?);
    } else {
      assert r.ops == s.ops || (r.ops == Then(s.ops, r.ops.op) && !r.ops.op.StopIssued?);
    }
  }

  /**
   Whenever a run stands at a gateway stop of a job with a recorded controller, a stop of that
   controller has succeeded earlier in the same cleanup attempt.
   */
  lemma ControllerStopsFirst(cfg: Config, jobId: string, rangeId: string, now: Time, inputs: seq<Input>)
    ensures var s := Run(cfg, Init(jobId, rangeId, now), inputs).core;
            s.pc.StopGateway? && s.row.controllerId.Some? ==>
              exists m: nat :: AttemptBeganAt(Ops(s.ops), m, s.row.gatewayId, s.row.controllerId)
                               && ControllerStoppedAfter(Ops(s.ops), m, s.row.controllerId.value)
  {
    InitHoldsAll(cfg, jobId, rangeId, now);
    RunKeepsAll(cfg, Init(jobId, rangeId, now), inputs);
    var s := Run(cfg, Init(jobId, rangeId, now), inputs).core;
    if s.pc.StopGateway? && s.row.controllerId.Some? {
      assert AttemptAt(s, After(s.pc));
      var m := LastAttemptByPosition(s.ops);
    }
  }

  // --- Attempts on a closing job ---------------------------------------------------------------

  predicate Over(pc: PC) {
    After(pc).Idle? || After(pc).Escaped?
  }

  /** The last attempt of a trace has met no raising stop. */
  predicate CleanSoFar(t: Trace) {
    LastAttempt(t).Attempt? && !LastAttempt(t).raised
  }

  /** From the start of an attempt on a closing job to its end. */
  ghost predicate ClosingAttempt(s: Core) {
    (if s.pc.CleanRead? then s.row.status == Closing && s.pc.caller.InSweep?
     else if AtStops(After(s.pc)) then
       s.row.status == Closing && After(s.pc).closing && After(s.pc).caller.InSweep? && CleanSoFar(s.ops)
     else
       Over(s.pc) && (s.row.status == Closed <==> CleanSoFar(s.ops))) == true
  }

  lemma AttemptBegins(cfg: Config, s: Core, now: Time, a: Answer)
    requires CoreInv(cfg, s, now) && ClosingAttempt(s) && s.pc.CleanRead?
    ensures ClosingAttempt(StepCore(cfg, s, now, a))
  {
    var r := StepCore(cfg, s, now, a);
    assert After(r.pc) == Behind(r.pc);
  }

  lemma AttemptStopsController(cfg: Config, s: Core, now: Time, a: Answer)
    requires CoreInv(cfg, s, now) && TraceInv(cfg, s) && ClosingAttempt(s) && s.pc.StopController?
    ensures ClosingAttempt(StepCore(cfg, s, now, a))
  {
    var r := StepCore(cfg, s, now, a);
    assert After(r.pc) == Behind(r.pc);
    assert AttemptAt(s, s.pc);
    assert LastAttempt(r.ops.before) == LastAttempt(s.ops);
  }

  lemma AttemptStopsGateway(cfg: Config, s: Core, now: Time, a: Answer)
    requires CoreInv(cfg, s, now) && TraceInv(cfg, s) && ClosingAttempt(s) && s.pc.StopGateway?
    ensures ClosingAttempt(StepCore(cfg, s, now, a))
  {
    var r := StepCore(cfg, s, now, a);
    assert After(r.pc) == Behind(r.pc);
    assert AttemptAt(s, s.pc);
    assert LastAttempt(r.ops.before) == LastAttempt(s.ops);
  }

  lemma AttemptCloses(cfg: Config, s: Core, now: Time, a: Answer)
    requires CoreInv(cfg, s, now) && TraceInv(cfg, s) && ClosingAttempt(s) && s.pc.CleanWrite?
    ensures ClosingAttempt(StepCore(cfg, s, now, a))
  {
    var r := StepCore(cfg, s, now, a);
    assert AttemptAt(s, s.pc);
    assert r.pc == Log(CleanupCompleted, Log(JobClosed, Idle));
    assert After(r.pc) == After(r.pc.next) == Idle;
  }

  lemma AttemptGoesOn(cfg: Config, s: JobState, i: Input)
    requires AllInv(cfg, s) && ClosingAttempt(s.core) && Uninterrupted(i)
    ensures ClosingAttempt(Next(cfg, s, i).core)
  {
    if i.Advance? {
      match s.core.pc
      case CleanRead(_) => AttemptBegins(cfg, s.core, s.now, i.a);
      case StopController(_, _, _, _) => AttemptStopsController(cfg, s.core, s.now, i.a);
      case StopGateway(_, _, _) => AttemptStopsGateway(cfg, s.core, s.now, i.a);
      case CleanWrite(_, _) => AttemptCloses(cfg, s.core, s.now, i.a);
      case Log(_, next) => assert After(s.core.pc) == After(next);
      case _ =>
    }
  }

  lemma {:induction false} AttemptRuns(cfg: Config, s: JobState, inputs: seq<Input>)
    requires AllInv(cfg, s) && ClosingAttempt(s.core) && forall i :: i in inputs ==> Uninterrupted(i)
    ensures ClosingAttempt(Run(cfg, s, inputs).core)
    decreases |inputs|
  {
    if inputs != [] {
      NextKeepsAll(cfg, s, inputs[0]);
      AttemptGoesOn(cfg, s, inputs[0]);
      AttemptRuns(cfg, Next(cfg, s, inputs[0]), inputs[1..]);
    }
  }

  /**
   An attempt on a closing job that runs to its end closes the job iff no stop it issued raised,
   whether or not finished jobs keep their rjobs.
   */
  lemma ClosedByFirstCleanAttempt(cfg: Config, jobId: string, rangeId: string, now: Time,
                                  before: seq<Input>, attempt: seq<Input>)
    requires forall i :: i in attempt ==> Uninterrupted(i)
    ensures var s := Run(cfg, Init(jobId, rangeId, now), before);
            var end := Run(cfg, s, attempt).core;
            s.core.pc == CleanRead(InSweep) && s.core.row.status == Closing && Over(end.pc) ==>
              (end.row.status == Closed <==> CleanSoFar(end.ops))
  {
    InitHoldsAll(cfg, jobId, rangeId, now);
    RunKeepsAll(cfg, Init(jobId, rangeId, now), before);
    var s := Run(cfg, Init(jobId, rangeId, now), before);
    if s.core.pc == CleanRead(InSweep) && s.core.row.status == Closing {
      AttemptRuns(cfg, s, attempt);
      assert ClosingAttempt(Run(cfg, s, attempt).core);
    }
  }
}
