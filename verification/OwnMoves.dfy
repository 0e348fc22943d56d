/**
 The moves of the reconciliation loop itself, one for each await: what the await does to the
 table, and at which control point the coroutine stands afterwards.
 */
module OwnMoves {
  import opened Wrappers
  import opened ControlStore
  import opened Platform
  import opened JobMachine
  import opened BindHistory
  import opened World
  import FileManager

  /** The coroutine of this job, and no other, stands at this control point. */
  ghost predicate Stands(cfg: Config, mc: Machine, w: World, id: string, pc: PC) {
    Agree(cfg, mc, w) && id in w.m && w.m[id].core.pc == pc && OthersIdle(w.m, id)
  }

  const NOTHING := Answer(CannotBind, CreateRaises(Dependency, None), PollRaises(Dependency), ReadyRaises(Dependency),
                          StopRaises(Dependency))

  /** The world after the job's machine has taken one step, and the table has become this. */
  function After(mc: Machine, w: World, id: string, a: Answer, jobs: map<string, ControlJob>): World
    requires id in w.m
  {
    w.(m := Moved(mc, w.m, id, Advance(a)), jobs := jobs)
  }

  /** The table after an update section on one job. */
  function Updated(jobs: map<string, ControlJob>, id: string, r: Result<ControlJob,
                   StoreError>): map<string, ControlJob> {
    match r
    case Ok(row) => jobs[id := row]
    case Err(_) => jobs
  }

  lemma CoreMoves(mc: Machine, w: World, v: World, id: string, s: JobState)
    requires Coherent(mc, w) && id in w.m && OthersIdle(w.m, id)
    requires v == w.(m := w.m[id := s], jobs := w.jobs[id := s.core.row])
    requires s.now == w.now && s.log == w.m[id].log && s.closeLogPending == w.m[id].closeLogPending
    requires s.core.disk == w.m[id].core.disk && mc.lived(id, Known(w.past, id), Known(w.begun, id), s)
    ensures Coherent(mc, v) && OthersIdle(v.m, id)
  {
    assert Tracks(mc, w, id);
    OneJobMoves(mc, w, v, id, s, s.core.row);
  }

  /** An await that is an update section. */
  lemma UpdateMoves(cfg: Config, mc: Machine, w: World, id: string, a: Answer, r: Result<ControlJob, StoreError>,
                    next: Core)
    requires Agree(cfg, mc, w) && id in w.m && OthersIdle(w.m, id) && !w.m[id].core.pc.Log?
    requires next == StepCore(cfg, w.m[id].core, w.now, a) && next.disk == w.m[id].core.disk
    requires next.row == (if r.Ok? then r.value else w.m[id].core.row)
    ensures Stands(cfg, mc, After(mc, w, id, a, Updated(w.jobs, id, r)), id, next.pc)
  {
    var s := Next(cfg, w.m[id], Advance(a));
    assert Tracks(mc, w, id);
    assert w.jobs[id := w.jobs[id]] == w.jobs;
    CoreMoves(mc, w, After(mc, w, id, a, Updated(w.jobs, id, r)), id, s);
  }

  /** An await that leaves the table alone. */
  lemma QuietMoves(cfg: Config, mc: Machine, w: World, id: string, a: Answer, next: Core)
    requires Agree(cfg, mc, w) && id in w.m && OthersIdle(w.m, id) && !w.m[id].core.pc.Log?
    requires next == StepCore(cfg, w.m[id].core, w.now, a) && next.disk == w.m[id].core.disk
    requires next.row == w.m[id].core.row
    ensures Stands(cfg, mc, After(mc, w, id, a, w.jobs), id, next.pc)
  {
    UpdateMoves(cfg, mc, w, id, a, Err(NoSuchJob), next);
  }

  lemma LoggedStep(cfg: Config, s: JobState, kind: EventKind, next: PC)
    requires s.core.pc == Log(kind, next)
    ensures Next(cfg, s, Advance(NOTHING)) == s.(core := s.core.(pc := next), log := s.log + [kind])
  {
  }

  lemma EventAppended(cfg: Config, mc: Machine, w: World, id: string, kind: EventKind, next: PC, phase: Phase)
    requires Stands(cfg, mc, w, id, Log(kind, next)) && kind != JobCreated
    ensures var v := w.(m := Moved(mc, w.m, id, Advance(NOTHING)), events := w.events + [Event(id, kind, phase, Stamp(w.now))]);
            Stands(cfg, mc, v, id, next)
  {
    var v := w.(m := Moved(mc, w.m, id, Advance(NOTHING)), events := w.events + [Event(id, kind, phase, Stamp(w.now))]);
    var s := Next(cfg, w.m[id], Advance(NOTHING));
    assert Tracks(mc, w, id);
    LoggedStep(cfg, w.m[id], kind, next);
    EventMoves(mc, w, v, Event(id, kind, phase, Stamp(w.now)), s);
    StandsAfter(cfg, mc, w, v, id, s);
  }

  lemma StandsAfter(cfg: Config, mc: Machine, w: World, v: World, id: string, s: JobState)
    requires Genuine(cfg, mc) && id in w.m && OthersIdle(w.m, id) && Coherent(mc, v) && v.m == w.m[id := s]
    ensures Stands(cfg, mc, v, id, s.core.pc)
  {
  }

  // --- Rules -------------------------------------------------------------------------------------

  type Written = Result<ControlJob, StoreError>

  /** The time an update carries: the clock's, unless the code has read the clock before. */
  function Clock(read: Option<Time>, now: Time): Time {
    if read.Some? then read.value else now
  }

  function Write(w: World, id: string, read: Option<Time>, changes: (ControlJob, Time) -> Changes): Written
    requires id in w.jobs
  {
    UpdateRow(w.jobs[id], Clock(read, w.now), changes(w.jobs[id], w.now))
  }

  /** An update section with these changes takes the coroutine from one control point to the next. */
  ghost predicate UpdateRule(cfg: Config, mc: Machine, id: string, pc: PC, read: Option<Time>,
                             changes: (ControlJob, Time) -> Changes, next: (Written, Time) -> PC) {
    forall w :: Stands(cfg, mc, w, id, pc) ==>
      Stands(cfg, mc, After(mc, w, id, NOTHING, Updated(w.jobs, id, Write(w, id, read, changes))), id,
             next(Write(w, id, read, changes), w.now))
  }

  /** Reading the row takes the coroutine to the next control point. */
  ghost predicate ReadRule(cfg: Config, mc: Machine, id: string, pc: PC, next: (ControlJob, Time) -> PC) {
    forall w :: Stands(cfg, mc, w, id, pc) ==>
      Stands(cfg, mc, After(mc, w, id, NOTHING, w.jobs), id, next(w.jobs[id], w.now))
  }

  /** The answer to a platform call does. */
  ghost predicate CallRule(cfg: Config, mc: Machine, id: string, pc: PC, next: (Answer, Time) -> PC) {
    forall w, a :: Stands(cfg, mc, w, id, pc) ==> Stands(cfg, mc, After(mc, w, id, a, w.jobs), id, next(a, w.now))
  }

  /** The machine's step at this control point, seen as an update section. */
  ghost predicate UpdatesAt(s: Core, now: Time, n: Core, read: Option<Time>, changes: (ControlJob, Time) -> Changes,
                            next: (Written, Time) -> PC) {
    var r := UpdateRow(s.row, Clock(read, now), changes(s.row, now));
    n.row == (if r.Ok? then r.value else s.row) && n.disk == s.disk && n.pc == next(r, now)
  }

  ghost predicate StepsByUpdate(cfg: Config, pc: PC, read: Option<Time>, changes: (ControlJob, Time) -> Changes,
                                next: (Written, Time) -> PC) {
    !pc.Log? && forall s: Core, now: Time :: s.pc == pc ==> UpdatesAt(s, now, StepCore(cfg, s, now, NOTHING), read, changes, next)
  }

  lemma UpdateRuleHolds(cfg: Config, mc: Machine, id: string, pc: PC, read: Option<Time>,
                        changes: (ControlJob, Time) -> Changes, next: (Written, Time) -> PC)
    requires StepsByUpdate(cfg, pc, read, changes, next)
    ensures UpdateRule(cfg, mc, id, pc, read, changes, next)
  {
    forall w | Stands(cfg, mc, w, id, pc)
      ensures Stands(cfg, mc, After(mc, w, id, NOTHING, Updated(w.jobs, id, Write(w, id, read, changes))), id,
                     next(Write(w, id, read, changes), w.now)) {
      assert Tracks(mc, w, id);
      UpdateMoves(cfg, mc, w, id, NOTHING, Write(w, id, read, changes), StepCore(cfg, w.m[id].core, w.now, NOTHING));
    }
  }

  ghost predicate StepsByRead(cfg: Config, pc: PC, next: (ControlJob, Time) -> PC) {
    !pc.Log? && forall s: Core, now: Time :: s.pc == pc ==>
      var n := StepCore(cfg, s, now, NOTHING);
      n.row == s.row && n.disk == s.disk && n.pc == next(s.row, now)
  }

  lemma ReadRuleHolds(cfg: Config, mc: Machine, id: string, pc: PC, next: (ControlJob, Time) -> PC)
    requires StepsByRead(cfg, pc, next)
    ensures ReadRule(cfg, mc, id, pc, next)
  {
    forall w | Stands(cfg, mc, w, id, pc)
      ensures Stands(cfg, mc, After(mc, w, id, NOTHING, w.jobs), id, next(w.jobs[id], w.now)) {
      assert Tracks(mc, w, id);
      QuietMoves(cfg, mc, w, id, NOTHING, StepCore(cfg, w.m[id].core, w.now, NOTHING));
    }
  }

  ghost predicate StepsByCall(cfg: Config, pc: PC, next: (Answer, Time) -> PC) {
    !pc.Log? && forall s: Core, now: Time, a: Answer :: s.pc == pc ==>
      var n := StepCore(cfg, s, now, a);
      n.row == s.row && n.disk == s.disk && n.pc == next(a, now)
  }

  lemma CallRuleHolds(cfg: Config, mc: Machine, id: string, pc: PC, next: (Answer, Time) -> PC)
    requires StepsByCall(cfg, pc, next)
    ensures CallRule(cfg, mc, id, pc, next)
  {
    forall w, a | Stands(cfg, mc, w, id, pc) ensures Stands(cfg, mc, After(mc, w, id, a, w.jobs), id, next(a, w.now)) {
      QuietMoves(cfg, mc, w, id, a, StepCore(cfg, w.m[id].core, w.now, a));
    }
  }

  // --- Update sections ---------------------------------------------------------------------------

  function BumpChanges(attempt: nat): (ControlJob, Time) -> Changes {
    (row: ControlJob, now: Time) => Changes(attempt := Some(attempt + 1))
  }

  function AfterBump(attempt: nat): (Written, Time) -> PC {
    (r: Written, now: Time) => match r
      case Err(e) => RaiseStoreError(e)
      case Ok(job) => if job.status == Closing then Idle
        else Log(ReconciliationStarted, if job.binding.None? then MarkPreparing else CheckBeforeGateway)
  }

  lemma BumpRule(cfg: Config, attempt: nat)
    ensures StepsByUpdate(cfg, BumpAttempt(attempt), None, BumpChanges(attempt), AfterBump(attempt))
  {
    forall s: Core, now: Time | s.pc == BumpAttempt(attempt)
      ensures UpdatesAt(s, now, StepCore(cfg, s, now, NOTHING), None, BumpChanges(attempt),
                        AfterBump(attempt)) {
      assert StepCore(cfg, s, now, NOTHING) == StepBumpAttempt(s, now, attempt);
    }
  }

  function MarkChanges(): (ControlJob, Time) -> Changes {
    (row: ControlJob, now: Time) => Changes(status := Some(Preparing), phase := Some(ResolvingJobFiles))
  }

  function AfterMark(): (Written, Time) -> PC {
    (r: Written, now: Time) => match r
      case Err(e) => RaiseStoreError(e)
      case Ok(job) => BindFiles
  }

  lemma MarkRule(cfg: Config)
    ensures StepsByUpdate(cfg, MarkPreparing, None, MarkChanges(), AfterMark())
  {
  }

  function SaveBindingChanges(binding: Binding): (ControlJob, Time) -> Changes {
    (row: ControlJob, now: Time) => Changes(binding := Some(binding), episodes := Some(row.episodes.(total := binding.totalEpisodes)),
                                             phase := Some(SubmittingGatewayRJob))
  }

  function AfterSaveBinding(binding: Binding): (Written, Time) -> PC {
    (r: Written, now: Time) => match r
      case Err(e) => RaiseStoreError(e)
      case Ok(job) => Log(JobFilesBound, if Halted(job) then Idle else CheckBeforeGateway)
  }

  lemma SaveBindingRule(cfg: Config, binding: Binding)
    ensures StepsByUpdate(cfg, SaveBinding(binding), None, SaveBindingChanges(binding), AfterSaveBinding(binding))
  {
    forall s: Core, now: Time | s.pc == SaveBinding(binding)
      ensures UpdatesAt(s, now, StepCore(cfg, s, now, NOTHING), None, SaveBindingChanges(binding), AfterSaveBinding(binding)) {
      assert StepCore(cfg, s, now, NOTHING) == StepSaveBinding(s, now, binding);
    }
  }

  function SaveGatewayChanges(gateway: RJobId): (ControlJob, Time) -> Changes {
    (row: ControlJob, now: Time) => Changes(gatewayId := Some(gateway), gatewayStatus := Some(RJobPending),
                                             phase := Some(WaitingGatewayAddress))
  }

  function AfterSaveGateway(gateway: RJobId): (Written, Time) -> PC {
    (r: Written, now: Time) => match r
      case Err(e) => RaiseStoreError(e)
      case Ok(job) => Log(GatewaySubmitted, if Halted(job) || job.gatewayId.None? then Idle else PollGateway(job.gatewayId.value))
  }

  lemma SaveGatewayRule(cfg: Config, gateway: RJobId)
    ensures StepsByUpdate(cfg, SaveGateway(gateway), None, SaveGatewayChanges(gateway), AfterSaveGateway(gateway))
  {
  }

  function SaveGatewayStatusChanges(g: Snapshot): (ControlJob, Time) -> Changes {
    (row: ControlJob, now: Time) => Changes(gatewayStatus := Some(g.state))
  }

  function AfterSaveGatewayStatus(cfg: Config, g: Snapshot): (Written, Time) -> PC {
    (r: Written, now: Time) => match r
      case Err(e) => RaiseStoreError(e)
      case Ok(job) => AfterGatewayStatus(cfg, job, now, g)
  }

  lemma SaveGatewayStatusRule(cfg: Config, g: Snapshot)
    ensures StepsByUpdate(cfg, SaveGatewayStatus(g), None, SaveGatewayStatusChanges(g),
                       AfterSaveGatewayStatus(cfg, g))
  {
  }

  function SaveHealthPhaseChanges(): (ControlJob, Time) -> Changes {
    (row: ControlJob, now: Time) => Changes(phase := Some(CheckingGatewayHealth))
  }

  function AfterSaveHealthPhase(cfg: Config): (Written, Time) -> PC {
    (r: Written, now: Time) => match r
      case Err(e) => RaiseStoreError(e)
      case Ok(job) => if TimedOut(cfg, job, now) then FailRead(GatewayHealthTimeout, InBody) else Idle
  }

  lemma SaveHealthPhaseRule(cfg: Config)
    ensures StepsByUpdate(cfg, SaveHealthPhase, None, SaveHealthPhaseChanges(), AfterSaveHealthPhase(cfg))
  {
  }

  function SaveUrlChanges(cfg: Config, g: Snapshot): (ControlJob, Time) -> Changes {
    (row: ControlJob, now: Time) => Changes(gatewayUrl := Some(UrlOf(cfg, g)), gatewayReadyAt := Some(Stamp(now)),
                                             phase := Some(SubmittingSafactoryRJob))
  }

  function AfterSaveUrl(g: Snapshot): (Written, Time) -> PC {
    (r: Written, now: Time) => match r
      case Err(e) => RaiseStoreError(e)
      case Ok(job) => if job.status == Closing then Idle else Log(GatewayReady, CheckBeforeController(g))
  }

  lemma SaveUrlRule(cfg: Config, g: Snapshot)
    ensures StepsByUpdate(cfg, SaveUrl(g), None, SaveUrlChanges(cfg, g), AfterSaveUrl(g))
  {
  }

  function SaveControllerChanges(startedAt: Option<Time>, g: Snapshot, controller: RJobId, at: Time): (ControlJob,
                                 Time) -> Changes {
    (row: ControlJob, now: Time) => Changes(controllerId := Some(controller), controllerStatus := Some(RJobPending),
                                             status := Some(Running), phase := Some(RunningSafactory),
                                             startedAt := FirstStart(startedAt, at))
  }

  function AfterSaveController(startedAt: Option<Time>, g: Snapshot, controller: RJobId, at: Time): (Written,
                               Time) -> PC {
    (r: Written, now: Time) => match r
      case Err(e) => if e == JobStateConflict then SaveControllerWhileClosing(startedAt, g, controller, at) else RaiseStoreError(e)
      case Ok(job) => Log(ControllerSubmitted, if job.status == Closing then Idle else EnterController(job, g))
  }

  lemma SaveControllerRule(cfg: Config, startedAt: Option<Time>, g: Snapshot,
                           controller: RJobId, at: Time)
    ensures StepsByUpdate(cfg, SaveController(startedAt, g, controller, at), Some(at),
                       SaveControllerChanges(startedAt, g, controller, at),
                       AfterSaveController(startedAt, g, controller, at))
  {
    forall s: Core, now: Time | s.pc == SaveController(startedAt, g, controller, at)
      ensures UpdatesAt(s, now, StepCore(cfg, s, now, NOTHING), Some(at), SaveControllerChanges(startedAt, g, controller, at),
                        AfterSaveController(startedAt, g, controller, at)) {
      assert StepCore(cfg, s, now, NOTHING) == StepSaveController(s, startedAt, g, controller, at);
    }
  }

  function SaveWhileClosingChanges(startedAt: Option<Time>, g: Snapshot, controller: RJobId, at: Time): (ControlJob,
                                   Time) -> Changes {
    (row: ControlJob, now: Time) => Changes(controllerId := Some(controller), controllerStatus := Some(RJobPending),
                                             startedAt := FirstStart(startedAt, at))
  }

  function AfterSaveWhileClosing(startedAt: Option<Time>, g: Snapshot, controller: RJobId, at: Time): (Written,
                                 Time) -> PC {
    (r: Written, now: Time) => match r
      case Err(e) => RaiseStoreError(e)
      case Ok(job) => Log(ControllerSubmitted, if job.status == Closing then Idle else EnterController(job, g))
  }

  lemma SaveWhileClosingRule(cfg: Config, startedAt: Option<Time>, g: Snapshot,
                             controller: RJobId, at: Time)
    ensures StepsByUpdate(cfg, SaveControllerWhileClosing(startedAt, g, controller, at), Some(at),
                       SaveWhileClosingChanges(startedAt, g, controller, at),
                       AfterSaveWhileClosing(startedAt, g, controller, at))
  {
    forall s: Core, now: Time | s.pc == SaveControllerWhileClosing(startedAt, g, controller, at)
      ensures UpdatesAt(s, now, StepCore(cfg, s, now, NOTHING), Some(at), SaveWhileClosingChanges(startedAt, g, controller, at),
                        AfterSaveWhileClosing(startedAt, g, controller, at)) {
      assert StepCore(cfg, s, now, NOTHING) == StepSaveControllerWhileClosing(s, startedAt, g, controller, at);
    }
  }

  function SaveControllerStatusChanges(episodes: Episodes, g: Snapshot, c: Snapshot): (ControlJob, Time) -> Changes {
    (row: ControlJob, now: Time) => Changes(controllerStatus := Some(c.state), episodes := Some(MergeCounts(episodes, c.summary)))
  }

  function AfterSaveControllerStatus(cfg: Config, episodes: Episodes, g: Snapshot, c: Snapshot): (Written, Time) -> PC {
    (r: Written, now: Time) => match r
      case Err(e) => RaiseStoreError(e)
      case Ok(job) => AfterControllerStatus(cfg, job, now, g, c)
  }

  lemma SaveControllerStatusRule(cfg: Config, episodes: Episodes, g: Snapshot, c: Snapshot)
    ensures StepsByUpdate(cfg, SaveControllerStatus(episodes, g, c), None,
                       SaveControllerStatusChanges(episodes, g, c), AfterSaveControllerStatus(cfg, episodes, g, c))
  {
  }

  function SucceedChanges(g: Snapshot, c: Snapshot): (ControlJob, Time) -> Changes {
    (row: ControlJob, now: Time) => Changes(status := Some(Succeeded), phase := Some(Completed),
                                             completedAt := Some(Stamp(now)), cleanup := Some(true))
  }

  function AfterSucceed(g: Snapshot, c: Snapshot): (Written, Time) -> PC {
    (r: Written, now: Time) => match r
      case Err(e) => RaiseStoreError(e)
      case Ok(job) => Log(JobSucceeded, Idle)
  }

  lemma SucceedRule(cfg: Config, g: Snapshot, c: Snapshot)
    ensures StepsByUpdate(cfg, Succeed(g, c), None, SucceedChanges(g, c), AfterSucceed(g, c))
  {
  }

  function FailWriteChanges(why: FailureReason, caller: Caller): (ControlJob, Time) -> Changes {
    (row: ControlJob, now: Time) => Changes(status := Some(Failed), phase := Some(CleaningRJobs), reason := Some(Some(why)),
                                             completedAt := Some(Stamp(now)), cleanup := Some(true))
  }

  function AfterFailWrite(why: FailureReason, caller: Caller): (Written, Time) -> PC {
    (r: Written, now: Time) => match r
      case Err(e) => if e == JobStateConflict then Return(caller) else RaiseFrom(caller)
      case Ok(job) => Log(JobFailed, CleanRead(caller))
  }

  lemma FailWriteRule(cfg: Config, why: FailureReason, caller: Caller)
    ensures StepsByUpdate(cfg, FailWrite(why, caller), None, FailWriteChanges(why, caller),
                       AfterFailWrite(why, caller))
  {
  }

  function CleanSkipChanges(caller: Caller): (ControlJob, Time) -> Changes {
    (row: ControlJob, now: Time) => Changes(cleanup := Some(false))
  }

  function AfterCleanSkip(caller: Caller): (Written, Time) -> PC {
    (r: Written, now: Time) => match r
      case Err(e) => RaiseStoreErrorFrom(e, caller)
      case Ok(job) => Log(CleanupSkipped, Return(caller))
  }

  lemma CleanSkipRule(cfg: Config, caller: Caller)
    ensures StepsByUpdate(cfg, CleanSkip(caller), None, CleanSkipChanges(caller), AfterCleanSkip(caller))
  {
  }

  function CleanWriteChanges(closing: bool, caller: Caller): (ControlJob, Time) -> Changes {
    (row: ControlJob, now: Time) => CleanChanges(closing, now)
  }

  function AfterCleanWrite(closing: bool, caller: Caller): (Written, Time) -> PC {
    (r: Written, now: Time) => match r
      case Err(e) => RaiseStoreErrorFrom(e, caller)
      case Ok(job) => Log(CleanupCompleted, if closing then Log(JobClosed, Return(caller)) else Return(caller))
  }

  lemma CleanWriteRule(cfg: Config, closing: bool, caller: Caller)
    ensures StepsByUpdate(cfg, CleanWrite(closing, caller), None, CleanWriteChanges(closing, caller),
                       AfterCleanWrite(closing, caller))
  {
    forall s: Core, now: Time | s.pc == CleanWrite(closing, caller)
      ensures UpdatesAt(s, now, StepCore(cfg, s, now, NOTHING), None, CleanWriteChanges(closing, caller),
                        AfterCleanWrite(closing, caller)) {
      assert StepCore(cfg, s, now, NOTHING) == StepCleanWrite(s, now, closing, caller);
    }
  }

  // --- Reads -------------------------------------------------------------------------------------

  function AfterUnbound(): (ControlJob, Time) -> PC {
    (job: ControlJob, now: Time) => if Halted(job) then Idle else Raise(Unexpected)
  }

  lemma UnboundRule(cfg: Config)
    ensures StepsByRead(cfg, AfterBindFailure, AfterUnbound())
  {
  }

  function AfterCheckBeforeGateway(): (ControlJob, Time) -> PC {
    (job: ControlJob, now: Time) => if job.status == Closing then Idle
      else if job.gatewayId.None? then CreateGateway else PollGateway(job.gatewayId.value)
  }

  lemma CheckBeforeGatewayRule(cfg: Config)
    ensures StepsByRead(cfg, CheckBeforeGateway, AfterCheckBeforeGateway())
  {
  }

  function AfterCheckAfterHealth(cfg: Config, g: Snapshot, ok: bool): (ControlJob, Time) -> PC {
    (job: ControlJob, now: Time) => if job.status == Closing then Idle
      else if !ok then
        if job.controllerId.Some? then FailRead(GatewayLostDuringRun, InBody) else SaveHealthPhase
      else if job.gatewayUrl.Some? && job.gatewayUrl.value != UrlOf(cfg, g) then FailRead(GatewayAddressChanged, InBody)
      else if job.gatewayUrl.None? then SaveUrl(g)
      else CheckBeforeController(g)
  }

  lemma CheckAfterHealthRule(cfg: Config, g: Snapshot, ok: bool)
    ensures StepsByRead(cfg, CheckAfterHealth(g, ok), AfterCheckAfterHealth(cfg, g, ok))
  {
  }

  function AfterCheckBeforeController(g: Snapshot): (ControlJob, Time) -> PC {
    (job: ControlJob, now: Time) => if job.status == Closing then Idle
      else if job.controllerId.Some? then EnterController(job, g)
      else if job.gatewayUrl.None? then Raise(Unexpected)
      else CreateController(job.startedAt, g)
  }

  lemma CheckBeforeControllerRule(cfg: Config, g: Snapshot)
    ensures StepsByRead(cfg, CheckBeforeController(g), AfterCheckBeforeController(g))
  {
  }

  function AfterDependencyError(cfg: Config): (ControlJob, Time) -> PC {
    (job: ControlJob, now: Time) =>
      if (job.controllerId.Some? && ControllerTimedOut(cfg, job, now)) || (job.controllerId.None? && TimedOut(cfg, job, now))
      then FailRead(UnavailableDependency, InHandler) else Idle
  }

  lemma DependencyErrorRule(cfg: Config)
    ensures StepsByRead(cfg, OnDependencyError, AfterDependencyError(cfg))
  {
  }

  function AfterFailRead(why: FailureReason, caller: Caller): (ControlJob, Time) -> PC {
    (job: ControlJob, now: Time) => if job.status == Succeeded || job.status == Closing || job.status == Closed then Return(caller)
      else if job.status != Failed then FailWrite(why, caller) else CleanRead(caller)
  }

  lemma FailReadRule(cfg: Config, why: FailureReason, caller: Caller)
    ensures StepsByRead(cfg, FailRead(why, caller), AfterFailRead(why, caller))
  {
  }

  function AfterCleanRead(cfg: Config, caller: Caller): (ControlJob, Time) -> PC {
    (job: ControlJob, now: Time) => var closing := job.status == Closing;
      if cfg.keepRJobs && !closing then CleanSkip(caller)
      else if job.controllerId.Some?
      then Log(EpisodeCleanupRequested, StopController(job.controllerId.value, job.gatewayId, closing, caller))
      else EnterStopGateway(job.gatewayId, closing, caller)
  }

  lemma CleanReadRule(cfg: Config, caller: Caller)
    ensures StepsByRead(cfg, CleanRead(caller), AfterCleanRead(cfg, caller))
  {
  }

  // --- Platform calls ----------------------------------------------------------------------------

  function AfterCreateGateway(): (Answer, Time) -> PC {
    (a: Answer, now: Time) => match a.create
      case CreateRaises(e, _) => Raise(e)
      case CreateReturns(gateway) => SaveGateway(gateway)
  }

  lemma CreateGatewayRule(cfg: Config)
    ensures StepsByCall(cfg, CreateGateway, AfterCreateGateway())
  {
  }

  function AfterPollGateway(gateway: RJobId): (Answer, Time) -> PC {
    (a: Answer, now: Time) => match a.poll
      case PollRaises(e) => Raise(e)
      case PollReturns(g) => SaveGatewayStatus(g)
  }

  lemma PollGatewayRule(cfg: Config, gateway: RJobId)
    ensures StepsByCall(cfg, PollGateway(gateway), AfterPollGateway(gateway))
  {
  }

  function AfterCheckHealth(g: Snapshot): (Answer, Time) -> PC {
    (a: Answer, now: Time) => match a.ready
      case ReadyRaises(e) => Raise(e)
      case ReadyReturns(ok) => CheckAfterHealth(g, ok)
  }

  lemma CheckHealthRule(cfg: Config, g: Snapshot)
    ensures StepsByCall(cfg, CheckHealth(g), AfterCheckHealth(g))
  {
  }

  function AfterCreateController(startedAt: Option<Time>, g: Snapshot): (Answer, Time) -> PC {
    (a: Answer, now: Time) => match a.create
      case CreateRaises(e, _) => Raise(e)
      case CreateReturns(controller) => SaveController(startedAt, g, controller, now)
  }

  lemma CreateControllerRule(cfg: Config, startedAt: Option<Time>, g: Snapshot)
    ensures StepsByCall(cfg, CreateController(startedAt, g), AfterCreateController(startedAt, g))
  {
  }

  function AfterPollController(controller: RJobId, episodes: Episodes, g: Snapshot): (Answer, Time) -> PC {
    (a: Answer, now: Time) => match a.poll
      case PollRaises(e) => Raise(e)
      case PollReturns(c) => SaveControllerStatus(episodes, g, c)
  }

  lemma PollControllerRule(cfg: Config, controller: RJobId, episodes: Episodes, g: Snapshot)
    ensures StepsByCall(cfg, PollController(controller, episodes, g), AfterPollController(controller, episodes, g))
  {
  }

  function AfterStopController(controller: RJobId, gateway: Option<RJobId>, closing: bool, caller: Caller): (Answer,
                               Time) -> PC {
    (a: Answer, now: Time) => match a.stop
      case StopRaises(e) => AfterRaisingStop(e, caller)
      case StopReturns => Log(ControllerDeleted, EnterStopGateway(gateway, closing, caller))
  }

  lemma StopControllerRule(cfg: Config, controller: RJobId, gateway: Option<RJobId>,
                           closing: bool, caller: Caller)
    ensures StepsByCall(cfg, StopController(controller, gateway, closing, caller),
                     AfterStopController(controller, gateway, closing, caller))
  {
  }

  function AfterStopGateway(gateway: RJobId, closing: bool, caller: Caller): (Answer, Time) -> PC {
    (a: Answer, now: Time) => match a.stop
      case StopRaises(e) => AfterRaisingStop(e, caller)
      case StopReturns => Log(GatewayDeleted, CleanWrite(closing, caller))
  }

  lemma StopGatewayRule(cfg: Config, gateway: RJobId, closing: bool, caller: Caller)
    ensures StepsByCall(cfg, StopGateway(gateway, closing, caller), AfterStopGateway(gateway, closing, caller))
  {
  }

  // --- Binding files -----------------------------------------------------------------------------

  /** Where the coroutine stands after a bind call that ended this way. */
  function AfterBind(o: FileManager.Outcome): PC
    requires !o.Died?
  {
    match o
    case Bound(b) => SaveBinding(Summary(b))
    case Failed(_) => FailRead(FileBindingFailed, InBinding)
    case Untrusted => Raise(Dependency)
    case OsError => Raise(Unexpected)
  }

  function WithFiles(mc: Machine, w: World, id: string, i: Input, files: map<string, FileManager.JobFileBinding>): World
    requires id in w.m
  {
    w.(m := Moved(mc, w.m, id, i), files := files)
  }

  lemma OthersFilesStay(before: map<string, FileManager.JobFileBinding>, id: string, rangeId: string,
                        catalog: FileManager.CatalogAnswer, o: FileManager.Outcome,
                        after: map<string, FileManager.JobFileBinding>)
    requires FileManager.BindStep(before, id, rangeId, catalog, o, after)
    ensures forall j :: j != id ==> DiskOf(after, j) == DiskOf(before, j)
  {
  }

  lemma FilesMove(mc: Machine, w: World, id: string, i: Input, s: JobState, files: map<string,
                  FileManager.JobFileBinding>)
    requires Coherent(mc, w) && id in w.m && OthersIdle(w.m, id) && mc.next(w.m[id], i) == s
    requires s.core.row == w.m[id].core.row && s.now == w.now && s.log == w.m[id].log
    requires s.closeLogPending == w.m[id].closeLogPending && s.core.disk == DiskOf(files, id)
    requires mc.lived(id, Known(w.past, id), Known(w.begun, id), s)
    requires forall j :: j != id ==> DiskOf(files, j) == DiskOf(w.files, j)
    ensures Coherent(mc, WithFiles(mc, w, id, i, files)) && OthersIdle(WithFiles(mc, w, id, i, files).m, id)
  {
    assert Tracks(mc, w, id);
    FilesAlone(w, WithFiles(mc, w, id, i, files), id, s, files);
    OneJobMoves(mc, w, WithFiles(mc, w, id, i, files), id, s, w.jobs[id]);
  }

  lemma FilesAlone(w: World, v: World, id: string, s: JobState, files: map<string, FileManager.JobFileBinding>)
    requires id in w.jobs && v == w.(m := w.m[id := s], files := files)
    requires forall j :: j != id ==> DiskOf(files, j) == DiskOf(w.files, j)
    ensures Only(w, v, id, s, w.jobs[id])
  {
    assert w.jobs[id := w.jobs[id]] == w.jobs;
  }

  lemma NextAtBind(cfg: Config, s: JobState, a: Answer)
    requires s.core.pc.BindFiles?
    ensures var n := Next(cfg, s, Advance(a));
            n == s.(core := n.core, hist := n.hist) && n.core == StepBindFiles(s.core, a.bind) && n.core.row == s.core.row
  {
  }

  /** A bind call for the job, with this catalogue answer, has ended this way and left these files. */
  ghost predicate Called(w: World, id: string, catalog: FileManager.CatalogAnswer, o: FileManager.Outcome,
                         files: map<string, FileManager.JobFileBinding>)
    requires id in w.jobs
  {
    && w.jobs[id].jobId == id && (id in w.files ==> w.files[id].jobId == id)
    && (catalog.Found? ==> catalog.range.rangeId == w.jobs[id].rangeId)
    && FileManager.BindStep(w.files, id, w.jobs[id].rangeId, catalog, o, files)
  }

  lemma BindMoves(cfg: Config, mc: Machine, w: World, id: string, catalog: FileManager.CatalogAnswer,
                  o: FileManager.Outcome, files: map<string, FileManager.JobFileBinding>) returns (a: Answer)
    requires Stands(cfg, mc, w, id, BindFiles) && Called(w, id, catalog, o, files) && !o.Died?
    ensures Stands(cfg, mc, WithFiles(mc, w, id, Advance(a), files), id, AfterBind(o))
  {
    assert Tracks(mc, w, id);
    a := BindAnswered(w, id, w.m[id].core, catalog, o, files);
    NextAtBind(cfg, w.m[id], a);
    var s := Next(cfg, w.m[id], Advance(a));
    FilesMove(mc, w, id, Advance(a), s, files);
    StandsAfter(cfg, mc, w, WithFiles(mc, w, id, Advance(a), files), id, s);
  }

  /** The answer of the environment that such a bind call is. */
  lemma BindAnswered(w: World, id: string, core: Core, catalog: FileManager.CatalogAnswer, o: FileManager.Outcome,
                     files: map<string, FileManager.JobFileBinding>) returns (a: Answer)
    requires id in w.jobs && core.row == w.jobs[id] && core.disk == DiskOf(w.files, id)
    requires Called(w, id, catalog, o, files) && !o.Died?
    ensures var n := StepBindFiles(core, a.bind);
            n.pc == AfterBind(o) && n.row == core.row && n.disk == DiskOf(files, id)
    ensures forall j :: j != id ==> DiskOf(files, j) == DiskOf(w.files, j)
  {
    var b := BindRefinesMachine(core, w.files, catalog, o, files);
    a := NOTHING.(bind := b);
    OthersFilesStay(w.files, id, w.jobs[id].rangeId, catalog, o, files);
    BoundSteps(core, b, o);
  }

  lemma BoundSteps(s: Core, b: BindAnswer, o: FileManager.Outcome)
    requires Agrees(s, o, b) && !o.Died?
    ensures var n := StepBindFiles(s, b);
            n.pc == AfterBind(o) && n.row == s.row && (n.disk == Published(s.row, s.disk, b) || n.disk == s.disk)
  {
  }

  // --- The loop itself ---------------------------------------------------------------------------

  ghost predicate AllIdle(m: map<string, JobState>) {
    forall j :: j in m ==> m[j].core.pc.Idle?
  }

  /** Jobs listed, or listed for cleanup, and not yet visited. */
  ghost predicate Waiting(m: map<string, JobState>, listed: map<string, ControlJob>, sweeping: set<string>) {
    && (forall j :: j in listed ==> j in m && m[j].listed == Some(listed[j]))
    && (forall j :: j in sweeping ==> j in m && m[j].swept)
  }

  lemma WaitingStays(a: map<string, JobState>, b: map<string, JobState>, listed: map<string, ControlJob>,
                     sweeping: set<string>)
    requires Waiting(a, listed, sweeping) && OnlyNudged(a, b)
    ensures Waiting(b, listed, sweeping)
  {
    forall j | j in a ensures j in b && b[j].listed == a[j].listed && b[j].swept == a[j].swept {
      assert Nudged(a[j], b[j]);
    }
  }

  /** The queue, seen by the job whose turn it is: it is not in it. */
  ghost predicate Rest(m: map<string, JobState>, listed: map<string, ControlJob>, sweeping: set<string>, id: string) {
    (Waiting(m, listed, sweeping) && id !in listed && id !in sweeping) == true
  }

  lemma RestStays(a: map<string, JobState>, b: map<string, JobState>, listed: map<string, ControlJob>,
                  sweeping: set<string>,
                  id: string)
    requires Rest(a, listed, sweeping, id) && OnlyNudged(a, b)
    ensures Rest(b, listed, sweeping, id)
  {
    WaitingStays(a, b, listed, sweeping);
  }

  lemma RestMoves(mc: Machine, m: map<string, JobState>, id: string, i: Input, listed: map<string, ControlJob>,
                  sweeping: set<string>)
    requires Rest(m, listed, sweeping, id) && id in m
    ensures Rest(Moved(mc, m, id, i), listed, sweeping, id)
  {
  }

  /**
   A moment: the world, the jobs still in the queue, and where the coroutine of which job stands; or a
   quiet moment, when no visit is under way.
   */
  datatype Spot =
    | Spot(w: World, listed: map<string, ControlJob>, sweeping: set<string>, id: string, pc: PC)
    | Quiet(w: World, listed: map<string, ControlJob>, sweeping: set<string>)

  ghost predicate Here(cfg: Config, mc: Machine, x: Spot) {
    (match x
     case Spot(w, listed, sweeping, id, pc) => Stands(cfg, mc, w, id, pc) && Rest(w.m, listed, sweeping, id)
     case Quiet(w, listed, sweeping) => Agree(cfg, mc, w) && AllIdle(w.m) && Waiting(w.m, listed, sweeping) && w.begun == map[]
    ) == true
  }

  /** The predicate as a value; it opens up only where Here is mentioned. */
  ghost predicate Means(cfg: Config, mc: Machine, here: Spot -> bool) {
    forall x {:trigger Here(cfg, mc, x)} :: here(x) == Here(cfg, mc, x)
  }

  lemma UpdateHere(cfg: Config, mc: Machine, here: Spot -> bool, x: Spot, read: Option<Time>,
                   changes: (ControlJob, Time) -> Changes,
                   next: (Written, Time) -> PC)
    requires x.Spot? && Means(cfg, mc, here) && here(x) && StepsByUpdate(cfg, x.pc, read, changes, next)
    ensures x.id in x.w.m && x.id in x.w.jobs
    ensures var r := Write(x.w, x.id, read, changes);
            here(x.(w := After(mc, x.w, x.id, NOTHING, Updated(x.w.jobs, x.id, r)), pc := next(r, x.w.now)))
  {
    assert Here(cfg, mc, x) && Stands(cfg, mc, x.w, x.id, x.pc);
    UpdateRuleHolds(cfg, mc, x.id, x.pc, read, changes, next);
    RestMoves(mc, x.w.m, x.id, Advance(NOTHING), x.listed, x.sweeping);
    var r := Write(x.w, x.id, read, changes);
    assert Here(cfg, mc, x.(w := After(mc, x.w, x.id, NOTHING, Updated(x.w.jobs, x.id, r)), pc := next(r, x.w.now)));
  }

  lemma ReadHere(cfg: Config, mc: Machine, here: Spot -> bool, x: Spot, next: (ControlJob, Time) -> PC)
    requires x.Spot? && Means(cfg, mc, here) && here(x) && StepsByRead(cfg, x.pc, next)
    ensures x.id in x.w.m && x.id in x.w.jobs
    ensures here(x.(w := After(mc, x.w, x.id, NOTHING, x.w.jobs), pc := next(x.w.jobs[x.id], x.w.now)))
  {
    assert Here(cfg, mc, x) && Stands(cfg, mc, x.w, x.id, x.pc);
    ReadRuleHolds(cfg, mc, x.id, x.pc, next);
    RestMoves(mc, x.w.m, x.id, Advance(NOTHING), x.listed, x.sweeping);
    assert Here(cfg, mc, x.(w := After(mc, x.w, x.id, NOTHING, x.w.jobs), pc := next(x.w.jobs[x.id], x.w.now)));
  }

  lemma CallHere(cfg: Config, mc: Machine, here: Spot -> bool, x: Spot, a: Answer, next: (Answer, Time) -> PC)
    requires x.Spot? && Means(cfg, mc, here) && here(x) && StepsByCall(cfg, x.pc, next)
    ensures x.id in x.w.m && here(x.(w := After(mc, x.w, x.id, a, x.w.jobs), pc := next(a, x.w.now)))
  {
    assert Here(cfg, mc, x) && Stands(cfg, mc, x.w, x.id, x.pc);
    CallRuleHolds(cfg, mc, x.id, x.pc, next);
    RestMoves(mc, x.w.m, x.id, Advance(a), x.listed, x.sweeping);
    assert Here(cfg, mc, x.(w := After(mc, x.w, x.id, a, x.w.jobs), pc := next(a, x.w.now)));
  }

  lemma EventHere(cfg: Config, mc: Machine, here: Spot -> bool, x: Spot, kind: EventKind, phase: Phase, next: PC)
    requires x.Spot? && Means(cfg, mc, here) && here(x) && x.pc == Log(kind, next) && kind != JobCreated
    ensures x.id in x.w.m
    ensures var v := x.w.(m := Moved(mc, x.w.m, x.id, Advance(NOTHING)),
                          events := x.w.events + [Event(x.id, kind, phase, Stamp(x.w.now))]);
            here(x.(w := v, pc := next))
  {
    assert Here(cfg, mc, x);
    EventAppended(cfg, mc, x.w, x.id, kind, next, phase);
    RestMoves(mc, x.w.m, x.id, Advance(NOTHING), x.listed, x.sweeping);
    var v := x.w.(m := Moved(mc, x.w.m, x.id, Advance(NOTHING)),
                  events := x.w.events + [Event(x.id, kind, phase, Stamp(x.w.now))]);
    assert Here(cfg, mc, x.(w := v, pc := next));
  }

  /** What other requests did has left the coroutine where it was. */
  lemma StillHere(cfg: Config, mc: Machine, here: Spot -> bool, x: Spot, v: World)
    requires x.Spot? && Means(cfg, mc, here) && here(x) && Agree(cfg, mc, v) && OnlyNudged(x.w.m, v.m)
    ensures here(x.(w := v))
  {
    assert Here(cfg, mc, x);
    OthersStayIdle(x.w.m, v.m, x.id);
    RestStays(x.w.m, v.m, x.listed, x.sweeping, x.id);
    assert Nudged(x.w.m[x.id], v.m[x.id]);
    assert Here(cfg, mc, x.(w := v));
  }

  /** A bind call that ended this way, in which the process has not died. */
  lemma BindHere(cfg: Config, mc: Machine, here: Spot -> bool, x: Spot, catalog: FileManager.CatalogAnswer,
                 o: FileManager.Outcome, files: map<string, FileManager.JobFileBinding>) returns (v: World)
    requires x.Spot? && Means(cfg, mc, here) && here(x) && x.pc == BindFiles && x.id in x.w.jobs && !o.Died?
    requires Called(x.w, x.id, catalog, o, files)
    ensures v == x.w.(m := v.m, files := files) && here(x.(w := v, pc := AfterBind(o)))
  {
    assert Here(cfg, mc, x);
    var a := BindMoves(cfg, mc, x.w, x.id, catalog, o, files);
    v := WithFiles(mc, x.w, x.id, Advance(a), files);
    RestMoves(mc, x.w.m, x.id, Advance(a), x.listed, x.sweeping);
    assert Here(cfg, mc, x.(w := v, pc := AfterBind(o)));
  }

  /** All machines are idle: the loop is at rest, with an empty queue. */
  lemma RestHere(cfg: Config, mc: Machine, here: Spot -> bool, w: World)
    requires Means(cfg, mc, here) && Agree(cfg, mc, w) && AllIdle(w.m) && w.begun == map[]
    ensures here(Quiet(w, map[], {}))
  {
    assert Here(cfg, mc, Quiet(w, map[], {}));
  }

  lemma CrashHere(cfg: Config, mc: Machine, here: Spot -> bool, w: World, id: Option<string>, a: BindAnswer,
                  files: map<string, FileManager.JobFileBinding>)
    requires Means(cfg, mc, here) && Agree(cfg, mc, w) && LeftByCrash(w, id, a, files)
    ensures here(Quiet(WithCrash(mc, w, id, a, files), map[], {}))
  {
    CrashAgrees(cfg, mc, w, id, a, files);
    RestHere(cfg, mc, here, WithCrash(mc, w, id, a, files));
  }

  /** A bind call in which the process dies. */
  lemma DeathHere(cfg: Config, mc: Machine, here: Spot -> bool, x: Spot, catalog: FileManager.CatalogAnswer,
                  files: map<string, FileManager.JobFileBinding>) returns (v: World)
    requires x.Spot? && Means(cfg, mc, here) && here(x) && x.pc == BindFiles && x.id in x.w.jobs
    requires Called(x.w, x.id, catalog, FileManager.Died, files)
    ensures v == x.w.(m := v.m, files := files, owed := {}, begun := map[]) && here(Quiet(v, map[], {}))
  {
    assert Here(cfg, mc, x);
    var a := DeathLeaves(cfg, mc, x.w, x.id, catalog, files);
    CrashHere(cfg, mc, here, x.w, Some(x.id), a, files);
    v := WithCrash(mc, x.w, Some(x.id), a, files);
  }

  /** The process dies while no bind call is under way, or is started anew. */
  lemma RestartHere(cfg: Config, mc: Machine, here: Spot -> bool, w: World) returns (v: World)
    requires Means(cfg, mc, here) && Agree(cfg, mc, w)
    ensures v == w.(m := v.m, owed := {}, begun := map[]) && here(Quiet(v, map[], {}))
  {
    NoCallLeaves(w);
    CrashHere(cfg, mc, here, w, None, CannotBind, w.files);
    v := WithCrash(mc, w, None, CannotBind, w.files);
  }

  /** The turn, or the sweep, of a listed job begins, and its beginning is noted. */
  function WithBegin(mc: Machine, w: World, id: string, i: Input): World
    requires id in w.m
  {
    w.(m := Moved(mc, w.m, id, i), begun := map[id := mc.next(w.m[id], i)])
  }

  lemma BeginIsNoted(cfg: Config, mc: Machine, w: World, id: string)
    requires Agree(cfg, mc, w) && id in w.m && w.begun == map[]
    ensures Agree(cfg, mc, w.(begun := map[id := w.m[id]]))
  {
    var v := w.(begun := map[id := w.m[id]]);
    forall j | j in v.m ensures Tracks(mc, v, j) {
      assert Tracks(mc, w, j);
    }
  }

  lemma BeginHere(cfg: Config, mc: Machine, here: Spot -> bool, x: Spot, id: string, i: Input, pc: PC)
    requires x.Quiet? && Means(cfg, mc, here) && Here(cfg, mc, x)
    requires id in x.w.m && ((i.BeginTurn? && x.w.m[id].listed.Some?) || (i.BeginSweep? && x.w.m[id].swept))
    requires pc == if i.BeginTurn? then BumpAttempt(x.w.m[id].listed.value.attempt) else CleanRead(InSweep)
    ensures here(Spot(WithBegin(mc, x.w, id, i), x.listed - {id}, x.sweeping - {id}, id, pc))
  {
    BeginAgrees(cfg, mc, x.w, id, i);
    var w := x.w.(m := Moved(mc, x.w.m, id, i));
    BeginIsNoted(cfg, mc, w, id);
    Unqueued(x.w.m, x.listed, x.sweeping, id);
    RestMoves(mc, x.w.m, id, i, x.listed - {id}, x.sweeping - {id});
    assert WithBegin(mc, x.w, id, i) == w.(begun := map[id := w.m[id]]);
    assert Here(cfg, mc, Spot(WithBegin(mc, x.w, id, i), x.listed - {id}, x.sweeping - {id}, id, pc));
  }

  /** The next listed job takes its turn. */
  lemma TurnHere(cfg: Config, mc: Machine, here: Spot -> bool, x: Spot, row: ControlJob)
    requires x.Quiet? && Means(cfg, mc, here) && here(x) && row.jobId in x.listed && x.listed[row.jobId] == row
    ensures var id := row.jobId;
            id in x.w.m && here(Spot(WithBegin(mc, x.w, id, BeginTurn), x.listed - {id}, x.sweeping - {id}, id,
                                     BumpAttempt(row.attempt)))
  {
    assert Here(cfg, mc, x);
    BeginHere(cfg, mc, here, x, row.jobId, BeginTurn, BumpAttempt(row.attempt));
  }

  lemma SweepHere(cfg: Config, mc: Machine, here: Spot -> bool, x: Spot, id: string)
    requires x.Quiet? && Means(cfg, mc, here) && here(x) && id in x.sweeping
    ensures id in x.w.m && here(Spot(WithBegin(mc, x.w, id, BeginSweep), x.listed - {id}, x.sweeping - {id}, id,
                                     CleanRead(InSweep)))
  {
    assert Here(cfg, mc, x);
    BeginHere(cfg, mc, here, x, id, BeginSweep, CleanRead(InSweep));
  }

  /** What other requests did has left the loop at rest. */
  lemma StillQuiet(cfg: Config, mc: Machine, here: Spot -> bool, x: Spot, v: World)
    requires x.Quiet? && Means(cfg, mc, here) && here(x)
    requires Agree(cfg, mc, v) && OnlyNudged(x.w.m, v.m) && v.begun == x.w.begun
    ensures here(Quiet(v, x.listed, x.sweeping))
  {
    assert Here(cfg, mc, x);
    IdleStays(x.w.m, v.m);
    WaitingStays(x.w.m, v.m, x.listed, x.sweeping);
    assert Here(cfg, mc, Quiet(v, x.listed, x.sweeping));
  }

  /** The queue may be forgotten. */
  lemma QueueIsForgotten(cfg: Config, mc: Machine, here: Spot -> bool, x: Spot)
    requires x.Quiet? && Means(cfg, mc, here) && here(x)
    ensures here(Quiet(x.w, map[], {})) && Agree(cfg, mc, x.w) && AllIdle(x.w.m)
  {
    assert Here(cfg, mc, x) && Here(cfg, mc, Quiet(x.w, map[], {}));
  }

  function WithAll(mc: Machine, w: World, i: Input): World {
    w.(m := map j | j in w.m :: mc.next(w.m[j], i))
  }

  /** What a listing makes of one machine. */
  ghost predicate Marked(s: JobState, row: ControlJob, i: Input, t: JobState) {
    && t.core == s.core
    && (i.ListActive? ==> t.listed == if Active(row.status) then Some(row) else None)
    && (i.ListCleanup? ==> t.swept == row.cleanup)
  }

  lemma ListingTracks(cfg: Config, mc: Machine, w: World, v: World, j: string, i: Input)
    requires Agree(cfg, mc, w) && j in w.m && w.m[j].core.pc.Idle? && (i.ListActive? || i.ListCleanup?) && w.begun == map[]
    requires v == w.(m := v.m) && j in v.m && v.m[j] == mc.next(w.m[j], i)
    ensures Tracks(mc, v, j) && Marked(w.m[j], w.jobs[j], i, v.m[j])
  {
    assert Tracks(mc, w, j);
    assert v.m[j] == Next(cfg, w.m[j], i);
  }

  /** A listing marks the selected jobs, and only them. */
  lemma ListingAgrees(cfg: Config, mc: Machine, w: World, i: Input)
    requires Agree(cfg, mc, w) && AllIdle(w.m) && (i.ListActive? || i.ListCleanup?) && w.begun == map[]
    ensures var v := WithAll(mc, w, i);
            && Agree(cfg, mc, v) && AllIdle(v.m)
            && forall j :: j in v.m ==> Marked(w.m[j], w.jobs[j], i, v.m[j])
  {
    AllMarked(cfg, mc, w, i);
    ListingCoheres(mc, w, i);
    AllTracked(cfg, mc, WithAll(mc, w, i));
  }

  ghost predicate MarkedIn(mc: Machine, w: World, v: World, j: string, i: Input)
    requires j in w.m
  {
    j in w.jobs && j in v.m && j in v.jobs && Tracks(mc, v, j) && Marked(w.m[j], w.jobs[j], i, v.m[j])
  }

  lemma AllMarked(cfg: Config, mc: Machine, w: World, i: Input)
    requires Agree(cfg, mc, w) && AllIdle(w.m) && (i.ListActive? || i.ListCleanup?) && w.begun == map[]
    ensures forall j :: j in w.m ==> MarkedIn(mc, w, WithAll(mc, w, i), j, i)
  {
    forall j | j in w.m ensures MarkedIn(mc, w, WithAll(mc, w, i), j, i) {
      assert Tracks(mc, w, j);
      ListingTracks(cfg, mc, w, WithAll(mc, w, i), j, i);
    }
  }

  lemma ListingCoheres(mc: Machine, w: World, i: Input)
    requires SameJobs(w) && AllIdle(w.m) && forall j :: j in w.m ==> MarkedIn(mc, w, WithAll(mc, w, i), j, i)
    ensures var v := WithAll(mc, w, i);
            SameJobs(v) && AllIdle(v.m) && forall j :: j in v.m ==> Tracks(mc, v, j) && Marked(w.m[j], w.jobs[j], i, v.m[j])
  {
    var v := WithAll(mc, w, i);
    forall j | j in v.m ensures Tracks(mc, v, j) && Marked(w.m[j], w.jobs[j], i, v.m[j]) {
      assert MarkedIn(mc, w, v, j, i);
    }
  }

  lemma BeginAgrees(cfg: Config, mc: Machine, w: World, id: string, i: Input)
    requires Agree(cfg, mc, w) && AllIdle(w.m) && id in w.m && w.begun == map[]
    requires (i.BeginTurn? && w.m[id].listed.Some?) || (i.BeginSweep? && w.m[id].swept)
    ensures Stands(cfg, mc, w.(m := Moved(mc, w.m, id, i)), id,
                   if i.BeginTurn? then BumpAttempt(w.m[id].listed.value.attempt) else CleanRead(InSweep))
  {
    var s := Next(cfg, w.m[id], i);
    assert Tracks(mc, w, id);
    assert w.jobs[id := s.core.row] == w.jobs;
    CoreMoves(mc, w, w.(m := Moved(mc, w.m, id, i)), id, s);
  }

  /** The call that was binding files when the process died may have published them; no other call has. */
  function LastAnswer(id: Option<string>, a: BindAnswer, j: string): BindAnswer {
    if id == Some(j) then a else CannotBind
  }

  /** The process dies and starts again. */
  function WithCrash(mc: Machine, w: World, id: Option<string>, a: BindAnswer,
                     files: map<string, FileManager.JobFileBinding>): World {
    w.(m := map j | j in w.m :: mc.next(w.m[j], Crash(LastAnswer(id, a, j))), files := files, owed := {}, begun := map[])
  }

  /** What is published for a job when the process dies with this answer under way. */
  function DiskLeft(w: World, j: string, a: BindAnswer): Option<Binding>
    requires j in w.m && j in w.jobs
  {
    if w.m[j].core.pc.BindFiles? then Published(w.jobs[j], DiskOf(w.files, j), a) else DiskOf(w.files, j)
  }

  /** The crash leaves these files: those of before, but for the call that was binding. */
  ghost predicate LeftByCrash(w: World, id: Option<string>, a: BindAnswer,
                              files: map<string, FileManager.JobFileBinding>) {
    forall j :: j in w.m && j in w.jobs ==> DiskOf(files, j) == DiskLeft(w, j, LastAnswer(id, a, j))
  }

  lemma CrashTracks(cfg: Config, mc: Machine, w: World, id: Option<string>, a: BindAnswer,
                    files: map<string, FileManager.JobFileBinding>, j: string)
    requires Agree(cfg, mc, w) && j in w.m && LeftByCrash(w, id, a, files)
    ensures j in w.jobs
    ensures Tracks(mc, WithCrash(mc, w, id, a, files), j) && WithCrash(mc, w, id, a, files).m[j].core.pc.Idle?
  {
    assert Tracks(mc, w, j);
    assert mc.lived(j, Known(w.past, j), None, w.m[j]);
    CrashStep(cfg, w.m[j], LastAnswer(id, a, j));
  }

  lemma CrashStep(cfg: Config, s: JobState, a: BindAnswer)
    ensures Next(cfg, s, Crash(a)) == StepCrash(s, a)
    ensures var t := Next(cfg, s, Crash(a));
            && t.core.row == s.core.row && t.core.pc.Idle? && t.now == s.now && t.log == s.log && !t.closeLogPending
            && t.core.disk == if s.core.pc.BindFiles? then Published(s.core.row, s.core.disk, a) else s.core.disk
  {
  }

  lemma CrashAgrees(cfg: Config, mc: Machine, w: World, id: Option<string>, a: BindAnswer,
                    files: map<string, FileManager.JobFileBinding>)
    requires Agree(cfg, mc, w) && LeftByCrash(w, id, a, files)
    ensures Agree(cfg, mc, WithCrash(mc, w, id, a, files)) && AllIdle(WithCrash(mc, w, id, a, files).m)
  {
    AllCrashed(cfg, mc, w, id, a, files);
    CrashCoheres(mc, w, id, a, files);
    AllTracked(cfg, mc, WithCrash(mc, w, id, a, files));
  }

  ghost predicate CrashedIn(mc: Machine, v: World, j: string) {
    j in v.m && j in v.jobs && Tracks(mc, v, j) && v.m[j].core.pc.Idle?
  }

  lemma AllCrashed(cfg: Config, mc: Machine, w: World, id: Option<string>, a: BindAnswer,
                   files: map<string, FileManager.JobFileBinding>)
    requires Agree(cfg, mc, w) && LeftByCrash(w, id, a, files)
    ensures forall j :: j in w.m ==> CrashedIn(mc, WithCrash(mc, w, id, a, files), j)
  {
    forall j | j in w.m ensures CrashedIn(mc, WithCrash(mc, w, id, a, files), j) {
      CrashTracks(cfg, mc, w, id, a, files, j);
    }
  }

  lemma CrashCoheres(mc: Machine, w: World, id: Option<string>, a: BindAnswer,
                     files: map<string, FileManager.JobFileBinding>)
    requires SameJobs(w) && forall j :: j in w.m ==> CrashedIn(mc, WithCrash(mc, w, id, a, files), j)
    ensures var v := WithCrash(mc, w, id, a, files);
            SameJobs(v) && AllIdle(v.m) && forall j :: j in v.m ==> Tracks(mc, v, j)
  {
    var v := WithCrash(mc, w, id, a, files);
    forall j | j in v.m ensures Tracks(mc, v, j) && v.m[j].core.pc.Idle? {
      assert CrashedIn(mc, v, j);
    }
  }

  lemma NoCallLeaves(w: World)
    ensures LeftByCrash(w, None, CannotBind, w.files)
  {
  }

  /** What a bind call leaves in which the process dies. */
  lemma DeathLeaves(cfg: Config, mc: Machine, w: World, id: string, catalog: FileManager.CatalogAnswer,
                    files: map<string, FileManager.JobFileBinding>) returns (a: BindAnswer)
    requires Stands(cfg, mc, w, id, BindFiles) && id in w.jobs && Called(w, id, catalog, FileManager.Died, files)
    ensures LeftByCrash(w, Some(id), a, files)
  {
    assert Tracks(mc, w, id);
    a := BindRefinesMachine(w.m[id].core, w.files, catalog, FileManager.Died, files);
    OthersFilesStay(w.files, id, w.jobs[id].rangeId, catalog, FileManager.Died, files);
  }

  lemma IdleStays(a: map<string, JobState>, b: map<string, JobState>)
    requires AllIdle(a) && OnlyNudged(a, b)
    ensures AllIdle(b)
  {
    forall j | j in b ensures b[j].core.pc.Idle? {
      assert j in a ==> Nudged(a[j], b[j]);
      assert j !in a ==> Fresh(b[j]);
    }
  }

  /** When a turn has returned, no turn is under way. */
  lemma TurnIsOver(m: map<string, JobState>, id: string, listed: map<string, ControlJob>, sweeping: set<string>)
    requires OthersIdle(m, id) && id in m && m[id].core.pc.Idle? && Rest(m, listed, sweeping, id)
    ensures AllIdle(m) && Waiting(m, listed, sweeping)
  {
  }

  lemma Unqueued(m: map<string, JobState>, listed: map<string, ControlJob>, sweeping: set<string>, id: string)
    requires Waiting(m, listed, sweeping)
    ensures Rest(m, listed - {id}, sweeping - {id}, id)
  {
  }

  function ListedIn(m: map<string, JobState>): map<string, ControlJob> {
    map j | j in m && m[j].listed.Some? :: m[j].listed.value
  }

  function SweptIn(m: map<string, JobState>): set<string> {
    set j | j in m && m[j].swept
  }

  lemma ListingWaits(m: map<string, JobState>)
    ensures Waiting(m, ListedIn(m), {}) && Waiting(m, map[], SweptIn(m))
  {
  }

  ghost predicate Apiece(rows: seq<ControlJob>) {
    forall i, j :: 0 <= i < j < |rows| ==> rows[i].jobId != rows[j].jobId
  }

  /** From here on the rows are listed and wait for their turn. */
  ghost predicate QueuedTurns(listed: map<string, ControlJob>, rows: seq<ControlJob>, n: nat) {
    Apiece(rows) && forall i :: n <= i < |rows| ==> rows[i].jobId in listed && listed[rows[i].jobId] == rows[i]
  }

  ghost predicate QueuedSweeps(sweeping: set<string>, rows: seq<ControlJob>, n: nat) {
    Apiece(rows) && forall i :: n <= i < |rows| ==> rows[i].jobId in sweeping
  }

  lemma ListingQueues(cfg: Config, mc: Machine, w: World, i: Input, rows: seq<ControlJob>)
    requires Agree(cfg, mc, w) && AllIdle(w.m) && (i.ListActive? || i.ListCleanup?) && Apiece(rows) && w.begun == map[]
    requires forall r :: r in rows ==>
               r.jobId in w.jobs && w.jobs[r.jobId] == r && (if i.ListActive? then Active(r.status) else r.cleanup)
    ensures var v := WithAll(mc, w, i);
            && Agree(cfg, mc, v) && AllIdle(v.m)
            && (i.ListActive? ==> QueuedTurns(ListedIn(v.m), rows, 0))
            && (i.ListCleanup? ==> QueuedSweeps(SweptIn(v.m), rows, 0))
  {
    ListingAgrees(cfg, mc, w, i);
    var v := WithAll(mc, w, i);
    forall k | 0 <= k < |rows|
      ensures i.ListActive? ==> rows[k].jobId in ListedIn(v.m) && ListedIn(v.m)[rows[k].jobId] == rows[k]
      ensures i.ListCleanup? ==> rows[k].jobId in SweptIn(v.m) {
      assert rows[k] in rows;
    }
  }

  lemma TurnTaken(listed: map<string, ControlJob>, rows: seq<ControlJob>, n: nat)
    requires QueuedTurns(listed, rows, n) && n < |rows|
    ensures QueuedTurns(listed - {rows[n].jobId}, rows, n + 1)
  {
  }

  lemma SweepTaken(sweeping: set<string>, rows: seq<ControlJob>, n: nat)
    requires QueuedSweeps(sweeping, rows, n) && n < |rows|
    ensures QueuedSweeps(sweeping - {rows[n].jobId}, rows, n + 1)
  {
  }
}
