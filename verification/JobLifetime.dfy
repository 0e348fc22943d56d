/**
 Turns end, and late jobs do not stay active.
 */
module JobLifetime {
  import opened Wrappers
  import opened ControlStore
  import opened Platform
  import opened JobMachine
  import opened JobInvariant
  import opened JobTraces
  import opened JobTheorems
  import opened JobCleanup

  // --- Turns end -------------------------------------------------------------------------------

  function Nested(caller: Caller): nat {
    if caller.InBody? || caller.InBinding? then 20 else 0
  }

  /** A bound on the awaits left before the coroutine returns. */
  function Rank(pc: PC): nat {
    match pc
    case Idle => 0
    case Escaped => 0
    case Log(_, next) => 1 + Rank(next)
    case CleanSkip(caller) => 2 + Nested(caller)
    case CleanWrite(_, caller) => 3 + Nested(caller)
    case StopGateway(_, _, caller) => 5 + Nested(caller)
    case StopController(_, _, _, caller) => 7 + Nested(caller)
    case CleanRead(caller) => 9 + Nested(caller)
    case FailWrite(_, caller) => 11 + Nested(caller)
    case FailRead(_, caller) => 12 + Nested(caller)
    case OnDependencyError => 13
    case AfterBindFailure => 14
    case SaveHealthPhase => 33
    case Succeed(_, _) => 33
    case SaveControllerStatus(_, _, _) => 34
    case PollController(_, _, _) => 35
    case SaveControllerWhileClosing(_, _, _, _) => 37
    case SaveController(_, _, _, _) => 38
    case CreateController(_, _) => 39
    case CheckBeforeController(_) => 40
    case SaveUrl(_) => 42
    case CheckAfterHealth(_, _) => 43
    case CheckHealth(_) => 44
    case SaveGatewayStatus(_) => 45
    case PollGateway(_) => 46
    case SaveGateway(_) => 48
    case CreateGateway => 49
    case CheckBeforeGateway => 50
    case SaveBinding(_) => 52
    case BindFiles => 53
    case MarkPreparing => 54
    case BumpAttempt(_) => 56
  }

  const LONGEST_TURN: nat := 56

  lemma BindingRanks(cfg: Config, s: Core, now: Time, a: Answer)
    requires BindingFiles(s.pc)
    ensures Rank(StepCore(cfg, s, now, a).pc) < Rank(s.pc)
  {
  }

  lemma ProbingRanks(cfg: Config, s: Core, now: Time, a: Answer)
    requires ProbingGateway(s.pc) && !CheckingHealth(s.pc)
    ensures Rank(StepCore(cfg, s, now, a).pc) < Rank(s.pc)
  {
  }

  predicate CheckingHealth(pc: PC) {
    pc.CheckHealth? || pc.CheckAfterHealth? || pc.SaveHealthPhase? || pc.SaveUrl?
  }

  lemma HealthRanks(cfg: Config, s: Core, now: Time, a: Answer)
    requires CheckingHealth(s.pc)
    ensures Rank(StepCore(cfg, s, now, a).pc) < Rank(s.pc)
  {
  }

  lemma CreatingRanks(cfg: Config, s: Core, now: Time, a: Answer)
    requires CreatingRJobs(s.pc) && !s.pc.SaveController? && !s.pc.SaveControllerWhileClosing?
    ensures Rank(StepCore(cfg, s, now, a).pc) < Rank(s.pc)
  {
  }

  lemma SaveControllerRanks(cfg: Config, s: Core, now: Time, a: Answer)
    requires s.pc.SaveController? || s.pc.SaveControllerWhileClosing?
    ensures Rank(StepCore(cfg, s, now, a).pc) < Rank(s.pc)
  {
    var r := StepCore(cfg, s, now, a);
    assert r.pc.Log? ==> Rank(r.pc) == 1 + Rank(r.pc.next);
  }

  lemma CleaningRanks(cfg: Config, s: Core, now: Time, a: Answer)
    requires s.pc.CleanRead? || s.pc.CleanSkip?
    ensures Rank(StepCore(cfg, s, now, a).pc) < Rank(s.pc)
  {
    var r := StepCore(cfg, s, now, a);
    assert r.pc.Log? ==> Rank(r.pc) == 1 + Rank(r.pc.next);
  }

  lemma StoppingRanks(cfg: Config, s: Core, now: Time, a: Answer)
    requires s.pc.StopController? || s.pc.StopGateway?
    ensures Rank(StepCore(cfg, s, now, a).pc) < Rank(s.pc)
  {
    var r := StepCore(cfg, s, now, a);
    assert r.pc.Log? ==> Rank(r.pc) == 1 + Rank(r.pc.next);
  }

  lemma CleanWriteRanks(cfg: Config, s: Core, now: Time, a: Answer)
    requires s.pc.CleanWrite?
    ensures Rank(StepCore(cfg, s, now, a).pc) < Rank(s.pc)
  {
    var r := StepCore(cfg, s, now, a);
    assert r.pc.Log? && r.pc.next.Log? ==> Rank(r.pc) == 2 + Rank(r.pc.next.next);
    assert r.pc.Log? && !r.pc.next.Log? ==> Rank(r.pc) == 1 + Rank(r.pc.next);
    assert Rank(Return(s.pc.caller)) == if s.pc.caller.InBinding? then 14 else 0;
  }

  lemma SupervisionRanks(cfg: Config, s: Core, now: Time, a: Answer)
    requires s.pc.CheckBeforeController? || s.pc.PollController? || s.pc.SaveControllerStatus?
    ensures Rank(StepCore(cfg, s, now, a).pc) < Rank(s.pc)
  {
  }

  lemma OtherRanks(cfg: Config, s: Core, now: Time, a: Answer)
    requires !BindingFiles(s.pc) && !ProbingGateway(s.pc) && !Dealing(s.pc) && !s.pc.Idle? && !s.pc.Escaped?
    requires !s.pc.CheckBeforeController? && !s.pc.PollController? && !s.pc.SaveControllerStatus?
    ensures Rank(StepCore(cfg, s, now, a).pc) < Rank(s.pc)
  {
  }

  // --- Late jobs do not stay active -------------------------------------------------------------

  /** A turn that ends here leaves the job inactive, or with a controller to supervise. */
  ghost predicate MovedOn(r: Core) {
    (Over(r.pc) ==> !Active(r.row.status) || r.row.controllerId.Some?) == true
  }

  lemma LateBinding(cfg: Config, s: Core, now: Time, a: Answer)
    requires CoreInv(cfg, s, now) && BindingFiles(s.pc)
    ensures MovedOn(StepCore(cfg, s, now, a))
  {
  }

  lemma LateStatus(cfg: Config, s: Core, now: Time, a: Answer)
    requires CoreInv(cfg, s, now) && s.pc.SaveGatewayStatus? && TimedOut(cfg, s.row, now)
    ensures MovedOn(StepCore(cfg, s, now, a))
  {
  }

  lemma LateCheck(cfg: Config, s: Core, now: Time, a: Answer)
    requires CoreInv(cfg, s, now) && (s.pc.CheckBeforeGateway? || s.pc.PollGateway?)
    ensures MovedOn(StepCore(cfg, s, now, a))
  {
  }

  lemma LateHealth(cfg: Config, s: Core, now: Time, a: Answer)
    requires CoreInv(cfg, s, now) && (s.pc.CheckHealth? || s.pc.CheckAfterHealth?)
    ensures MovedOn(StepCore(cfg, s, now, a))
  {
  }

  lemma LateHealthPhase(cfg: Config, s: Core, now: Time, a: Answer)
    requires CoreInv(cfg, s, now) && s.pc.SaveHealthPhase? && TimedOut(cfg, s.row, now)
    ensures MovedOn(StepCore(cfg, s, now, a))
  {
  }

  lemma LateUrl(cfg: Config, s: Core, now: Time, a: Answer)
    requires CoreInv(cfg, s, now) && s.pc.SaveUrl?
    ensures MovedOn(StepCore(cfg, s, now, a))
  {
    var r := StepCore(cfg, s, now, a);
    if s.row.status == Closing {
      assert r.row.status == Closing;
    } else {
      assert r.pc == Log(GatewayReady, CheckBeforeController(s.pc.g));
      assert After(r.pc) == r.pc.next;
    }
  }

  lemma LateCreateGateway(cfg: Config, s: Core, now: Time, a: Answer)
    requires CoreInv(cfg, s, now) && s.pc.CreateGateway?
    ensures MovedOn(StepCore(cfg, s, now, a))
  {
  }

  lemma LateSaveGateway(cfg: Config, s: Core, now: Time, a: Answer)
    requires CoreInv(cfg, s, now) && s.pc.SaveGateway?
    ensures MovedOn(StepCore(cfg, s, now, a))
  {
    var r := StepCore(cfg, s, now, a);
    assert r.pc.Log? ==> After(r.pc) == r.pc.next;
  }

  lemma LateCreateController(cfg: Config, s: Core, now: Time, a: Answer)
    requires CoreInv(cfg, s, now) && s.pc.CreateController?
    ensures MovedOn(StepCore(cfg, s, now, a))
  {
  }

  lemma LateSaveController(cfg: Config, s: Core, now: Time, a: Answer)
    requires CoreInv(cfg, s, now) && (s.pc.SaveController? || s.pc.SaveControllerWhileClosing?)
    ensures MovedOn(StepCore(cfg, s, now, a))
  {
  }

  lemma LateCleaning(cfg: Config, s: Core, now: Time, a: Answer)
    requires CoreInv(cfg, s, now) && CleaningUp(s.pc)
    ensures MovedOn(StepCore(cfg, s, now, a))
  {
  }

  lemma LateRest(cfg: Config, s: Core, now: Time, a: Answer)
    requires CoreInv(cfg, s, now) && !BindingFiles(s.pc) && !ProbingGateway(s.pc) && !Dealing(s.pc) && !s.pc.Log?
    requires !Over(s.pc) && TimedOut(cfg, s.row, now)
    ensures MovedOn(StepCore(cfg, s, now, a))
  {
  }

  /** A turn that ends here leaves the job inactive. */
  ghost predicate Finished(r: Core) {
    (Over(r.pc) ==> !Active(r.row.status)) == true
  }

  lemma OverdueBinding(cfg: Config, s: Core, now: Time, a: Answer)
    requires CoreInv(cfg, s, now) && BindingFiles(s.pc)
    ensures Finished(StepCore(cfg, s, now, a))
  {
  }

  lemma OverdueProbing(cfg: Config, s: Core, now: Time, a: Answer)
    requires CoreInv(cfg, s, now) && ProbingGateway(s.pc) && ControllerTimedOut(cfg, s.row, now)
    ensures Finished(StepCore(cfg, s, now, a))
  {
  }

  lemma OverdueDealing(cfg: Config, s: Core, now: Time, a: Answer)
    requires CoreInv(cfg, s, now) && Dealing(s.pc) && ControllerTimedOut(cfg, s.row, now)
    ensures Finished(StepCore(cfg, s, now, a))
  {
  }

  lemma OverdueRest(cfg: Config, s: Core, now: Time, a: Answer)
    requires CoreInv(cfg, s, now) && !BindingFiles(s.pc) && !ProbingGateway(s.pc) && !Dealing(s.pc) && !s.pc.Log?
    requires !Over(s.pc) && ControllerTimedOut(cfg, s.row, now)
    ensures Finished(StepCore(cfg, s, now, a))
  {
  }

  // --- Whole turns ------------------------------------------------------------------------------

  lemma StepRanks(cfg: Config, s: Core, now: Time, a: Answer)
    ensures var r := StepCore(cfg, s, now, a);
            if s.pc.Idle? || s.pc.Escaped? then r.pc == s.pc else Rank(r.pc) < Rank(s.pc)
  {
    if s.pc.Log? || s.pc.Idle? || s.pc.Escaped? {
    } else if BindingFiles(s.pc) {
      BindingRanks(cfg, s, now, a);
    } else if ProbingGateway(s.pc) {
      if CheckingHealth(s.pc) {
        HealthRanks(cfg, s, now, a);
      } else {
        ProbingRanks(cfg, s, now, a);
      }
    } else if s.pc.SaveController? || s.pc.SaveControllerWhileClosing? {
      SaveControllerRanks(cfg, s, now, a);
    } else if CreatingRJobs(s.pc) {
      CreatingRanks(cfg, s, now, a);
    } else if s.pc.CleanWrite? {
      CleanWriteRanks(cfg, s, now, a);
    } else if s.pc.CleanRead? || s.pc.CleanSkip? {
      CleaningRanks(cfg, s, now, a);
    } else if CleaningUp(s.pc) {
      StoppingRanks(cfg, s, now, a);
    } else if s.pc.CheckBeforeController? || s.pc.PollController? || s.pc.SaveControllerStatus? {
      SupervisionRanks(cfg, s, now, a);
    } else {
      OtherRanks(cfg, s, now, a);
    }
  }

  function Awaits(inputs: seq<Input>): nat {
    if inputs == [] then 0 else (if inputs[0].Advance? then 1 else 0) + Awaits(inputs[1..])
  }

  lemma {:induction false} TurnRuns(cfg: Config, s: JobState, turn: seq<Input>)
    requires forall i :: i in turn ==> Uninterrupted(i)
    ensures var end := Run(cfg, s, turn).core.pc; Rank(end) + Awaits(turn) <= Rank(s.core.pc) || end.Idle? || end.Escaped?
    decreases |turn|
  {
    if turn == [] {
      assert Awaits(turn) == 0;
    } else {
      var r := Next(cfg, s, turn[0]);
      if turn[0].Advance? {
        StepRanks(cfg, s.core, s.now, turn[0].a);
      } else {
        assert Uninterrupted(turn[0]);
      }
      TurnRuns(cfg, r, turn[1..]);
      var end := Run(cfg, r, turn[1..]).core.pc;
      assert Rank(end) > 0 || end.Idle? || end.Escaped?;
    }
  }

  /** However the environment answers, a turn returns within a fixed number of awaits. */
  lemma TurnsEnd(cfg: Config, s: JobState, turn: seq<Input>)
    requires s.core.pc.BumpAttempt? && Awaits(turn) >= LONGEST_TURN && forall i :: i in turn ==> Uninterrupted(i)
    ensures var end := Run(cfg, s, turn).core.pc; end.Idle? || end.Escaped?
  {
    TurnRuns(cfg, s, turn);
  }

  lemma LateStep(cfg: Config, s: Core, now: Time, a: Answer)
    requires CoreInv(cfg, s, now) && TimedOut(cfg, s.row, now) && MovedOn(s)
    ensures MovedOn(StepCore(cfg, s, now, a))
  {
    if s.pc.Log? || s.pc.Idle? || s.pc.Escaped? {
      assert s.pc.Log? ==> After(s.pc) == After(s.pc.next);
    } else if BindingFiles(s.pc) {
      LateBinding(cfg, s, now, a);
    } else if ProbingGateway(s.pc) {
      match s.pc
      case SaveGatewayStatus(_) => LateStatus(cfg, s, now, a);
      case SaveHealthPhase => LateHealthPhase(cfg, s, now, a);
      case SaveUrl(_) => LateUrl(cfg, s, now, a);
      case CheckBeforeGateway => LateCheck(cfg, s, now, a);
      case PollGateway(_) => LateCheck(cfg, s, now, a);
      case _ => LateHealth(cfg, s, now, a);
    } else if CreatingRJobs(s.pc) {
      match s.pc
      case CreateGateway => LateCreateGateway(cfg, s, now, a);
      case SaveGateway(_) => LateSaveGateway(cfg, s, now, a);
      case CreateController(_, _) => LateCreateController(cfg, s, now, a);
      case _ => LateSaveController(cfg, s, now, a);
    } else if CleaningUp(s.pc) {
      LateCleaning(cfg, s, now, a);
    } else {
      LateRest(cfg, s, now, a);
    }
  }

  lemma OverdueStep(cfg: Config, s: Core, now: Time, a: Answer)
    requires CoreInv(cfg, s, now) && ControllerTimedOut(cfg, s.row, now) && Finished(s)
    ensures Finished(StepCore(cfg, s, now, a))
  {
    if s.pc.Log? || s.pc.Idle? || s.pc.Escaped? {
      assert s.pc.Log? ==> After(s.pc) == After(s.pc.next);
    } else if BindingFiles(s.pc) {
      OverdueBinding(cfg, s, now, a);
    } else if ProbingGateway(s.pc) {
      OverdueProbing(cfg, s, now, a);
    } else if Dealing(s.pc) {
      OverdueDealing(cfg, s, now, a);
    } else {
      OverdueRest(cfg, s, now, a);
    }
  }

  lemma DeadlinesStay(cfg: Config, s: JobState, i: Input)
    requires AllInv(cfg, s) && Uninterrupted(i)
    ensures AllInv(cfg, Next(cfg, s, i))
    ensures TimedOut(cfg, s.core.row, s.now) ==> TimedOut(cfg, Next(cfg, s, i).core.row, Next(cfg, s, i).now)
    ensures ControllerTimedOut(cfg, s.core.row, s.now) ==>
              ControllerTimedOut(cfg, Next(cfg, s, i).core.row, Next(cfg, s, i).now)
  {
    NextKeepsAll(cfg, s, i);
    assert WriteOnce(s.core.row, Next(cfg, s, i).core.row);
  }

  lemma LateNext(cfg: Config, s: JobState, i: Input)
    requires CoreInv(cfg, s.core, s.now) && TimedOut(cfg, s.core.row, s.now) && MovedOn(s.core) && Uninterrupted(i)
    ensures MovedOn(Next(cfg, s, i).core)
  {
    if i.Advance? {
      LateStep(cfg, s.core, s.now, i.a);
    }
  }

  lemma OverdueNext(cfg: Config, s: JobState, i: Input)
    requires CoreInv(cfg, s.core, s.now) && ControllerTimedOut(cfg, s.core.row, s.now) && Finished(s.core)
    requires Uninterrupted(i)
    ensures Finished(Next(cfg, s, i).core)
  {
    if i.Advance? {
      OverdueStep(cfg, s.core, s.now, i.a);
    }
  }

  lemma {:induction false} LateRun(cfg: Config, s: JobState, turn: seq<Input>)
    requires AllInv(cfg, s) && TimedOut(cfg, s.core.row, s.now) && MovedOn(s.core)
    requires forall i :: i in turn ==> Uninterrupted(i)
    ensures MovedOn(Run(cfg, s, turn).core)
    decreases |turn|
  {
    if turn != [] {
      DeadlinesStay(cfg, s, turn[0]);
      LateNext(cfg, s, turn[0]);
      LateRun(cfg, Next(cfg, s, turn[0]), turn[1..]);
    }
  }

  lemma {:induction false} OverdueRun(cfg: Config, s: JobState, turn: seq<Input>)
    requires AllInv(cfg, s) && ControllerTimedOut(cfg, s.core.row, s.now) && Finished(s.core)
    requires forall i :: i in turn ==> Uninterrupted(i)
    ensures Finished(Run(cfg, s, turn).core)
    decreases |turn|
  {
    if turn != [] {
      DeadlinesStay(cfg, s, turn[0]);
      OverdueNext(cfg, s, turn[0]);
      OverdueRun(cfg, Next(cfg, s, turn[0]), turn[1..]);
    }
  }

  /** A whole, uninterrupted turn. */
  ghost predicate FullTurn(s: JobState, turn: seq<Input>) {
    s.core.pc.BumpAttempt? && Awaits(turn) >= LONGEST_TURN && forall i :: i in turn ==> Uninterrupted(i)
  }

  /** A turn that starts after the gateway deadline ends with the job inactive, or with a controller recorded. */
  lemma {:induction false} LateTurnsMoveOn(cfg: Config, s: JobState, turn: seq<Input>)
    requires AllInv(cfg, s) && FullTurn(s, turn) && TimedOut(cfg, s.core.row, s.now)
    ensures var row := Run(cfg, s, turn).core.row; !Active(row.status) || row.controllerId.Some?
  {
    TurnsEnd(cfg, s, turn);
    LateRun(cfg, s, turn);
    assert MovedOn(Run(cfg, s, turn).core);
  }

  /** A turn that starts after the controller deadline ends with the job inactive. */
  lemma {:induction false} OverdueTurnsFinish(cfg: Config, s: JobState, turn: seq<Input>)
    requires AllInv(cfg, s) && FullTurn(s, turn) && ControllerTimedOut(cfg, s.core.row, s.now)
    ensures !Active(Run(cfg, s, turn).core.row.status)
  {
    TurnsEnd(cfg, s, turn);
    OverdueRun(cfg, s, turn);
    assert Finished(Run(cfg, s, turn).core);
  }

  /**
   No job stays active: one full turn after the gateway deadline and one after the controller
   deadline are enough, whatever the platform answers or raises in them and whatever happens before,
   between and after.
   */
  lemma NoJobStaysActive(cfg: Config, jobId: string, rangeId: string, now: Time,
                         before: seq<Input>, first: seq<Input>, between: seq<Input>, second: seq<Input>,
                         after: seq<Input>)
    ensures var s := Run(cfg, Init(jobId, rangeId, now), before);
            var mid := Run(cfg, Run(cfg, s, first), between);
            FullTurn(s, first) && TimedOut(cfg, s.core.row, s.now)
            && FullTurn(mid, second) && (mid.core.row.startedAt.Some? ==> ControllerTimedOut(cfg, mid.core.row, mid.now))
            ==> !Active(Run(cfg, Run(cfg, mid, second), after).core.row.status)
  {
    InitHoldsAll(cfg, jobId, rangeId, now);
    RunKeepsAll(cfg, Init(jobId, rangeId, now), before);
    var s := Run(cfg, Init(jobId, rangeId, now), before);
    RunKeepsAll(cfg, s, first);
    RunKeepsAll(cfg, Run(cfg, s, first), between);
    var mid := Run(cfg, Run(cfg, s, first), between);
    RunKeepsAll(cfg, mid, second);
    RunKeepsAll(cfg, Run(cfg, mid, second), after);
    if FullTurn(s, first) && TimedOut(cfg, s.core.row, s.now) && FullTurn(mid, second)
       && (mid.core.row.startedAt.Some? ==> ControllerTimedOut(cfg, mid.core.row, mid.now)) {
      LateTurnsMoveOn(cfg, s, first);
      assert CoreInv(cfg, mid.core, mid.now);
      if mid.core.row.controllerId.Some? {
        OverdueTurnsFinish(cfg, mid, second);
      }
    }
  }
}
