/**
 The reconciliation of one job as a small-step machine.

 The orchestrator is a coroutine: it runs undisturbed between two awaits, and at an await
 anything else may happen.  A control point (PC) names the await the coroutine stands at,
 together with the local values it still needs; StepAwait performs that await and the
 straight code up to the next one.  Close requests, clock ticks, crashes and the answers of
 the platform arrive as inputs, in any order.
 */
module JobMachine {
  import opened Wrappers
  import opened ControlStore
  import opened Platform

  /** The two kinds of exception the orchestrator's handlers tell apart. */
  datatype Exn = Dependency | Unexpected

  datatype Role = Gateway | Controller

  /** Where a call of the failure or cleanup procedure returns to. */
  datatype Caller = InBody | InBinding | InHandler | InSweep

  datatype PC =
    | Idle
    | Escaped
    | Log(kind: EventKind, next: PC)
    // one reconciliation turn
    | BumpAttempt(attempt: nat)
    | MarkPreparing
    | BindFiles
    | AfterBindFailure
    | SaveBinding(binding: Binding)
    | CheckBeforeGateway
    | CreateGateway
    | SaveGateway(id: RJobId)
    | PollGateway(id: RJobId)
    | SaveGatewayStatus(g: Snapshot)
    | CheckHealth(g: Snapshot)
    | CheckAfterHealth(g: Snapshot, ok: bool)
    | SaveHealthPhase
    | SaveUrl(g: Snapshot)
    | CheckBeforeController(g: Snapshot)
    | CreateController(startedAt: Option<Time>, g: Snapshot)
    | SaveController(startedAt: Option<Time>, g: Snapshot, id: RJobId, at: Time)
    | SaveControllerWhileClosing(startedAt: Option<Time>, g: Snapshot, id: RJobId, at: Time)
    | PollController(id: RJobId, episodes: Episodes, g: Snapshot)
    | SaveControllerStatus(episodes: Episodes, g: Snapshot, c: Snapshot)
    | Succeed(g: Snapshot, c: Snapshot)
    // exception handler, failure, cleanup
    | OnDependencyError
    | FailRead(why: FailureReason, caller: Caller)
    | FailWrite(why: FailureReason, caller: Caller)
    | CleanRead(caller: Caller)
    | CleanSkip(caller: Caller)
    | StopController(id: RJobId, gateway: Option<RJobId>, closing: bool, caller: Caller)
    | StopGateway(id: RJobId, closing: bool, caller: Caller)
    | CleanWrite(closing: bool, caller: Caller)

  /** What the job does to the platform, and when an id reaches the row. */
  datatype Op =
    | CreateIssued(role: Role)
    | Created(role: Role, id: RJobId)
    | Recorded(role: Role, id: RJobId)
    | CleanupBegan(gateway: Option<RJobId>, controller: Option<RJobId>)
    | StopIssued(role: Role, id: RJobId)
    | Stopped(role: Role, id: RJobId)
    | StopRaised(role: Role, id: RJobId)

  /** A trace, newest operation outermost. */
  datatype Trace = Start | Then(before: Trace, op: Op)

  datatype Observation =
    | SawGateway(id: RJobId, g: Snapshot)
    | SawHealth(url: string, ok: bool)
    | SawController(id: RJobId, c: Snapshot)

  datatype BindAnswer = Rendered(episodes: nat, contentDigest: string) | CannotBind | BindRaises(e: Exn)
  datatype CreateAnswer = CreateReturns(id: RJobId) | CreateRaises(e: Exn, effect: Option<RJobId>)
  datatype PollAnswer = PollReturns(snapshot: Snapshot) | PollRaises(e: Exn)
  datatype ReadyAnswer = ReadyReturns(ok: bool) | ReadyRaises(e: Exn)
  datatype StopAnswer = StopReturns | StopRaises(e: Exn)

  /** The environment's answer to whichever await the machine stands at. */
  datatype Answer = Answer(bind: BindAnswer, create: CreateAnswer, poll: PollAnswer, ready: ReadyAnswer, stop: StopAnswer)

  datatype Input =
    | Tick(d: nat)
    | CloseRequest
    | CloseHandlerLogs
    | ListActive
    | ListCleanup
    | BeginTurn
    | BeginSweep
    | Advance(a: Answer)
    | Crash(published: BindAnswer)

  /** What the coroutine reads and writes. */
  datatype Core = Core(
    row: ControlJob,
    pc: PC,
    disk: Option<Binding>,        // the published binding directory
    seen: seq<Observation>,       // observations of the current turn
    ops: Trace)

  datatype JobState = JobState(
    core: Core,
    now: Time,
    listed: Option<ControlJob>,   // snapshot taken by the pass, not yet reconciled
    swept: bool,                  // listed for cleanup by the pass, not yet visited
    closeLogPending: bool,        // the close handler still owes its event
    log: seq<EventKind>,
    hist: seq<JobStatus>)         // committed statuses, changes only

  function Init(jobId: string, rangeId: string, now: Time): JobState {
    JobState(Core(NewControlJob(jobId, rangeId, now), Idle, None, [], Start), now, None, false, false, [], [Queued])
  }

  // --- Elementary effects ----------------------------------------------------------------

  /** The control point after an exception has left the body of the reconciliation. */
  function Raise(e: Exn): PC {
    match e
    case Dependency => OnDependencyError
    case Unexpected => FailRead(InternalOrchestrationError, InHandler)
  }

  function RaiseStoreError(e: StoreError): PC {
    if e == JobStateConflict then Idle else Raise(Unexpected)
  }

  /** The failure or cleanup procedure returns. */
  function Return(caller: Caller): PC {
    if caller.InBinding? then AfterBindFailure else Idle
  }

  /** An exception other than a dependency error leaves the failure or cleanup procedure. */
  function RaiseFrom(caller: Caller): PC {
    if caller.InBody? || caller.InBinding? then Raise(Unexpected) else Escaped
  }

  function RaiseStoreErrorFrom(e: StoreError, caller: Caller): PC {
    if e == JobStateConflict && (caller.InBody? || caller.InBinding?) then Idle else RaiseFrom(caller)
  }

  predicate Halted(job: ControlJob) {
    Terminal(job.status) || job.status == Closing
  }

  /** What a bind call leaves in the shared directory (module FileManager shows why). */
  function Published(row: ControlJob, disk: Option<Binding>, a: BindAnswer): Option<Binding> {
    if disk.Some? || !a.Rendered? then disk
    else Some(Binding(row.jobId, row.rangeId, a.episodes, a.contentDigest))
  }

  // --- One await -------------------------------------------------------------------------

  function StepBumpAttempt(s: Core, now: Time, attempt: nat): Core {
    match UpdateRow(s.row, now, Changes(attempt := Some(attempt + 1)))
    case Err(e) => s.(pc := RaiseStoreError(e))
    case Ok(row) =>
      s.(row := row,
         pc := if row.status == Closing then Idle
               else Log(ReconciliationStarted, if row.binding.None? then MarkPreparing else CheckBeforeGateway))
  }

  function StepMarkPreparing(s: Core, now: Time): Core {
    match UpdateRow(s.row, now, Changes(status := Some(Preparing), phase := Some(ResolvingJobFiles)))
    case Err(e) => s.(pc := RaiseStoreError(e))
    case Ok(row) => s.(row := row, pc := BindFiles)
  }

  function StepBindFiles(s: Core, a: BindAnswer): Core {
    match a
    case BindRaises(e) => s.(pc := Raise(e))
    case CannotBind => s.(pc := FailRead(FileBindingFailed, InBinding))
    case Rendered(_, _) =>
      var d := Published(s.row, s.disk, a);
      if d.value.jobId != s.row.jobId || d.value.rangeId != s.row.rangeId
      then s.(pc := FailRead(FileBindingFailed, InBinding))
      else s.(disk := d, pc := SaveBinding(d.value))
  }

  function StepAfterBindFailure(s: Core): Core {
    s.(pc := if Halted(s.row) then Idle else Raise(Unexpected))
  }

  function StepSaveBinding(s: Core, now: Time, binding: Binding): Core {
    match UpdateRow(s.row, now, Changes(binding := Some(binding),
                                        episodes := Some(s.row.episodes.(total := binding.totalEpisodes)),
                                        phase := Some(SubmittingGatewayRJob)))
    case Err(e) => s.(pc := RaiseStoreError(e))
    case Ok(row) => s.(row := row, pc := Log(JobFilesBound, if Halted(row) then Idle else CheckBeforeGateway))
  }

  function StepCheckBeforeGateway(s: Core): Core {
    s.(pc := if s.row.status == Closing then Idle
             else if s.row.gatewayId.None? then CreateGateway
             else PollGateway(s.row.gatewayId.value))
  }

  function StepCreateGateway(s: Core, a: CreateAnswer): Core {
    var issued := Then(s.ops, CreateIssued(Gateway));
    match a
    case CreateRaises(e, None) => s.(ops := issued, pc := Raise(e))
    case CreateRaises(e, Some(id)) => s.(ops := Then(issued, Created(Gateway, id)), pc := Raise(e))
    case CreateReturns(id) => s.(ops := Then(issued, Created(Gateway, id)), pc := SaveGateway(id))
  }

  function StepSaveGateway(s: Core, now: Time, id: RJobId): Core {
    match UpdateRow(s.row, now, Changes(gatewayId := Some(id), gatewayStatus := Some(RJobPending),
                                        phase := Some(WaitingGatewayAddress)))
    case Err(e) => s.(pc := RaiseStoreError(e))
    case Ok(row) =>
      s.(row := row, ops := Then(s.ops, Recorded(Gateway, id)),
         pc := Log(GatewaySubmitted,
                   if Halted(row) || row.gatewayId.None? then Idle else PollGateway(row.gatewayId.value)))
  }

  function StepPollGateway(s: Core, id: RJobId, a: PollAnswer): Core {
    match a
    case PollRaises(e) => s.(pc := Raise(e))
    case PollReturns(g) => s.(seen := s.seen + [SawGateway(id, g)], pc := SaveGatewayStatus(g))
  }

  function AfterGatewayStatus(cfg: Config, row: ControlJob, now: Time, g: Snapshot): PC {
    if row.status == Closing then Idle
    else if g.state == RJobFailed || g.state == RJobCancelled || g.state == RJobSucceeded
    then FailRead(GatewayRJobFailed, InBody)
    else if !GatewayHasRoute(cfg, g) then
      if row.controllerId.Some? then FailRead(GatewayLostDuringRun, InBody)
      else if TimedOut(cfg, row, now) then FailRead(GatewayReadyTimeout, InBody)
      else Idle
    else CheckHealth(g)
  }

  function StepSaveGatewayStatus(cfg: Config, s: Core, now: Time, g: Snapshot): Core {
    match UpdateRow(s.row, now, Changes(gatewayStatus := Some(g.state)))
    case Err(e) => s.(pc := RaiseStoreError(e))
    case Ok(row) => s.(row := row, pc := AfterGatewayStatus(cfg, row, now, g))
  }

  function StepCheckHealth(cfg: Config, s: Core, g: Snapshot, a: ReadyAnswer): Core {
    match a
    case ReadyRaises(e) => s.(pc := Raise(e))
    case ReadyReturns(ok) => s.(seen := s.seen + [SawHealth(UrlOf(cfg, g), ok)], pc := CheckAfterHealth(g, ok))
  }

  function StepCheckAfterHealth(cfg: Config, s: Core, g: Snapshot, ok: bool): Core {
    s.(pc := if s.row.status == Closing then Idle
             else if !ok then
               if s.row.controllerId.Some? then FailRead(GatewayLostDuringRun, InBody) else SaveHealthPhase
             else if s.row.gatewayUrl.Some? && s.row.gatewayUrl.value != UrlOf(cfg, g)
             then FailRead(GatewayAddressChanged, InBody)
             else if s.row.gatewayUrl.None? then SaveUrl(g)
             else CheckBeforeController(g))
  }

  function StepSaveHealthPhase(cfg: Config, s: Core, now: Time): Core {
    match UpdateRow(s.row, now, Changes(phase := Some(CheckingGatewayHealth)))
    case Err(e) => s.(pc := RaiseStoreError(e))
    case Ok(row) =>
      s.(row := row, pc := if TimedOut(cfg, row, now) then FailRead(GatewayHealthTimeout, InBody) else Idle)
  }

  function StepSaveUrl(cfg: Config, s: Core, now: Time, g: Snapshot): Core {
    match UpdateRow(s.row, now, Changes(gatewayUrl := Some(UrlOf(cfg, g)), gatewayReadyAt := Some(Stamp(now)),
                                        phase := Some(SubmittingSafactoryRJob)))
    case Err(e) => s.(pc := RaiseStoreError(e))
    case Ok(row) =>
      s.(row := row, pc := if row.status == Closing then Idle else Log(GatewayReady, CheckBeforeController(g)))
  }

  /** The gateway check that follows controller submission. */
  function EnterController(row: ControlJob, g: Snapshot): PC {
    if g.state != RJobRunning || !g.ready then FailRead(GatewayLostDuringRun, InBody)
    else if row.controllerId.None? then Raise(Unexpected)
    else PollController(row.controllerId.value, row.episodes, g)
  }

  function StepCheckBeforeController(s: Core, g: Snapshot): Core {
    s.(pc := if s.row.status == Closing then Idle
             else if s.row.controllerId.Some? then EnterController(s.row, g)
             else if s.row.gatewayUrl.None? then Raise(Unexpected)
             else CreateController(s.row.startedAt, g))
  }

  function StepCreateController(s: Core, now: Time, startedAt: Option<Time>, g: Snapshot, a: CreateAnswer): Core {
    var issued := Then(s.ops, CreateIssued(Controller));
    match a
    case CreateRaises(e, None) => s.(ops := issued, pc := Raise(e))
    case CreateRaises(e, Some(id)) => s.(ops := Then(issued, Created(Controller, id)), pc := Raise(e))
    case CreateReturns(id) =>
      s.(ops := Then(issued, Created(Controller, id)), pc := SaveController(startedAt, g, id, now))
  }

  function FirstStart(startedAt: Option<Time>, at: Time): Option<Time> {
    if startedAt.Some? then startedAt else Some(Stamp(at))
  }

  function AfterController(s: Core, row: ControlJob, g: Snapshot, id: RJobId): Core {
    s.(row := row, ops := Then(s.ops, Recorded(Controller, id)),
       pc := Log(ControllerSubmitted, if row.status == Closing then Idle else EnterController(row, g)))
  }

  function StepSaveController(s: Core, startedAt: Option<Time>, g: Snapshot, id: RJobId, at: Time): Core {
    match UpdateRow(s.row, at, Changes(controllerId := Some(id), controllerStatus := Some(RJobPending),
                                       status := Some(Running), phase := Some(RunningSafactory),
                                       startedAt := FirstStart(startedAt, at)))
    case Err(e) =>
      s.(pc := if e == JobStateConflict then SaveControllerWhileClosing(startedAt, g, id, at) else RaiseStoreError(e))
    case Ok(row) => AfterController(s, row, g, id)
  }

  function StepSaveControllerWhileClosing(s: Core, startedAt: Option<Time>, g: Snapshot, id: RJobId, at: Time): Core {
    match UpdateRow(s.row, at, Changes(controllerId := Some(id), controllerStatus := Some(RJobPending),
                                       startedAt := FirstStart(startedAt, at)))
    case Err(e) => s.(pc := RaiseStoreError(e))
    case Ok(row) => AfterController(s, row, g, id)
  }

  function StepPollController(s: Core, id: RJobId, episodes: Episodes, g: Snapshot, a: PollAnswer): Core {
    match a
    case PollRaises(e) => s.(pc := Raise(e))
    case PollReturns(c) => s.(seen := s.seen + [SawController(id, c)], pc := SaveControllerStatus(episodes, g, c))
  }

  function AfterControllerStatus(cfg: Config, row: ControlJob, now: Time, g: Snapshot, c: Snapshot): PC {
    if row.status == Closing then Idle
    else if c.state == RJobSucceeded then
      if row.binding.Some? && ResultsComplete(row.binding.value, c) then Succeed(g, c)
      else FailRead(EpisodeResultsIncomplete, InBody)
    else if c.state == RJobFailed || c.state == RJobCancelled then FailRead(SafactoryRJobFailed, InBody)
    else if ControllerTimedOut(cfg, row, now) then FailRead(SafactoryRJobTimeout, InBody)
    else Log(ReconciliationCompleted, Idle)
  }

  function StepSaveControllerStatus(cfg: Config, s: Core, now: Time, episodes: Episodes, g: Snapshot,
                                    c: Snapshot): Core {
    match UpdateRow(s.row, now, Changes(controllerStatus := Some(c.state),
                                        episodes := Some(MergeCounts(episodes, c.summary))))
    case Err(e) => s.(pc := RaiseStoreError(e))
    case Ok(row) => s.(row := row, pc := AfterControllerStatus(cfg, row, now, g, c))
  }

  function StepSucceed(s: Core, now: Time): Core {
    match UpdateRow(s.row, now, Changes(status := Some(Succeeded), phase := Some(Completed),
                                        completedAt := Some(Stamp(now)), cleanup := Some(true)))
    case Err(e) => s.(pc := RaiseStoreError(e))
    case Ok(row) => s.(row := row, pc := Log(JobSucceeded, Idle))
  }

  function StepOnDependencyError(cfg: Config, s: Core, now: Time): Core {
    s.(pc := if (s.row.controllerId.Some? && ControllerTimedOut(cfg, s.row, now))
                || (s.row.controllerId.None? && TimedOut(cfg, s.row, now))
             then FailRead(UnavailableDependency, InHandler)
             else Idle)
  }

  function StepFailRead(s: Core, why: FailureReason, caller: Caller): Core {
    var status := s.row.status;
    s.(pc := if status == Succeeded || status == Closing || status == Closed then Return(caller)
             else if status != Failed then FailWrite(why, caller)
             else CleanRead(caller))
  }

  function StepFailWrite(s: Core, now: Time, why: FailureReason, caller: Caller): Core {
    match UpdateRow(s.row, now, Changes(status := Some(Failed), phase := Some(CleaningRJobs), reason := Some(Some(why)),
                                        completedAt := Some(Stamp(now)), cleanup := Some(true)))
    case Err(e) => s.(pc := if e == JobStateConflict then Return(caller) else RaiseFrom(caller))
    case Ok(row) => s.(row := row, pc := Log(JobFailed, CleanRead(caller)))
  }

  function EnterStopGateway(gateway: Option<RJobId>, closing: bool, caller: Caller): PC {
    if gateway.Some? then StopGateway(gateway.value, closing, caller) else CleanWrite(closing, caller)
  }

  function StepCleanRead(cfg: Config, s: Core, caller: Caller): Core {
    var job := s.row;
    var closing := job.status == Closing;
    if cfg.keepRJobs && !closing then s.(pc := CleanSkip(caller))
    else
      s.(ops := Then(s.ops, CleanupBegan(job.gatewayId, job.controllerId)),
         pc := if job.controllerId.Some?
               then Log(EpisodeCleanupRequested, StopController(job.controllerId.value, job.gatewayId, closing, caller))
               else EnterStopGateway(job.gatewayId, closing, caller))
  }

  function StepCleanSkip(s: Core, now: Time, caller: Caller): Core {
    match UpdateRow(s.row, now, Changes(cleanup := Some(false)))
    case Err(e) => s.(pc := RaiseStoreErrorFrom(e, caller))
    case Ok(row) => s.(row := row, pc := Log(CleanupSkipped, Return(caller)))
  }

  function AfterRaisingStop(e: Exn, caller: Caller): PC {
    if e == Dependency then Return(caller) else RaiseFrom(caller)
  }

  function StepStopController(s: Core, id: RJobId, gateway: Option<RJobId>, closing: bool, caller: Caller,
                              a: StopAnswer): Core {
    var issued := Then(s.ops, StopIssued(Controller, id));
    match a
    case StopRaises(e) => s.(ops := Then(issued, StopRaised(Controller, id)), pc := AfterRaisingStop(e, caller))
    case StopReturns =>
      s.(ops := Then(issued, Stopped(Controller, id)),
         pc := Log(ControllerDeleted, EnterStopGateway(gateway, closing, caller)))
  }

  function StepStopGateway(s: Core, id: RJobId, closing: bool, caller: Caller, a: StopAnswer): Core {
    var issued := Then(s.ops, StopIssued(Gateway, id));
    match a
    case StopRaises(e) => s.(ops := Then(issued, StopRaised(Gateway, id)), pc := AfterRaisingStop(e, caller))
    case StopReturns => s.(ops := Then(issued, Stopped(Gateway, id)), pc := Log(GatewayDeleted, CleanWrite(closing, caller)))
  }

  function CleanChanges(closing: bool, now: Time): Changes {
    if closing
    then Changes(cleanup := Some(false), status := Some(Closed), phase := Some(Completed),
                 completedAt := Some(Stamp(now)), reason := Some(None))
    else Changes(cleanup := Some(false))
  }

  function StepCleanWrite(s: Core, now: Time, closing: bool, caller: Caller): Core {
    match UpdateRow(s.row, now, CleanChanges(closing, now))
    case Err(e) => s.(pc := RaiseStoreErrorFrom(e, caller))
    case Ok(row) =>
      s.(row := row, pc := Log(CleanupCompleted, if closing then Log(JobClosed, Return(caller)) else Return(caller)))
  }

  /** The await the coroutine stands at, other than an event append. */
  function StepCore(cfg: Config, s: Core, now: Time, a: Answer): Core {
    match s.pc
    case Idle => s
    case Escaped => s
    case Log(_, next) => s.(pc := next)
    case BumpAttempt(attempt) => StepBumpAttempt(s, now, attempt)
    case MarkPreparing => StepMarkPreparing(s, now)
    case BindFiles => StepBindFiles(s, a.bind)
    case AfterBindFailure => StepAfterBindFailure(s)
    case SaveBinding(binding) => StepSaveBinding(s, now, binding)
    case CheckBeforeGateway => StepCheckBeforeGateway(s)
    case CreateGateway => StepCreateGateway(s, a.create)
    case SaveGateway(id) => StepSaveGateway(s, now, id)
    case PollGateway(id) => StepPollGateway(s, id, a.poll)
    case SaveGatewayStatus(g) => StepSaveGatewayStatus(cfg, s, now, g)
    case CheckHealth(g) => StepCheckHealth(cfg, s, g, a.ready)
    case CheckAfterHealth(g, ok) => StepCheckAfterHealth(cfg, s, g, ok)
    case SaveHealthPhase => StepSaveHealthPhase(cfg, s, now)
    case SaveUrl(g) => StepSaveUrl(cfg, s, now, g)
    case CheckBeforeController(g) => StepCheckBeforeController(s, g)
    case CreateController(startedAt, g) => StepCreateController(s, now, startedAt, g, a.create)
    case SaveController(startedAt, g, id, at) => StepSaveController(s, startedAt, g, id, at)
    case SaveControllerWhileClosing(startedAt, g, id, at) => StepSaveControllerWhileClosing(s, startedAt, g, id, at)
    case PollController(id, episodes, g) => StepPollController(s, id, episodes, g, a.poll)
    case SaveControllerStatus(episodes, g, c) => StepSaveControllerStatus(cfg, s, now, episodes, g, c)
    case Succeed(_, _) => StepSucceed(s, now)
    case OnDependencyError => StepOnDependencyError(cfg, s, now)
    case FailRead(why, caller) => StepFailRead(s, why, caller)
    case FailWrite(why, caller) => StepFailWrite(s, now, why, caller)
    case CleanRead(caller) => StepCleanRead(cfg, s, caller)
    case CleanSkip(caller) => StepCleanSkip(s, now, caller)
    case StopController(id, gateway, closing, caller) => StepStopController(s, id, gateway, closing, caller, a.stop)
    case StopGateway(id, closing, caller) => StepStopGateway(s, id, closing, caller, a.stop)
    case CleanWrite(closing, caller) => StepCleanWrite(s, now, closing, caller)
  }

  /** The status history grows exactly when a write changes the status. */
  function Extend(hist: seq<JobStatus>, before: JobStatus, after: JobStatus): seq<JobStatus> {
    if before == after then hist else hist + [after]
  }

  function StepAwait(cfg: Config, s: JobState, a: Answer): JobState {
    var core := StepCore(cfg, s.core, s.now, a);
    s.(core := core,
       log := if s.core.pc.Log? then s.log + [s.core.pc.kind] else s.log,
       hist := Extend(s.hist, s.core.row.status, core.row.status))
  }

  // --- The environment's moves -------------------------------------------------------------

  function StepClose(s: JobState): JobState {
    var (row, moved) := CloseRow(s.core.row, s.now);
    s.(core := s.core.(row := row),
       hist := Extend(s.hist, s.core.row.status, row.status),
       closeLogPending := s.closeLogPending || moved)
  }

  /** The process dies; a binding may have been published by the dying bind call. */
  function StepCrash(s: JobState, published: BindAnswer): JobState {
    var disk := if s.core.pc.BindFiles? then Published(s.core.row, s.core.disk, published) else s.core.disk;
    s.(core := s.core.(pc := Idle, seen := [], disk := disk),
       listed := None, swept := false, closeLogPending := false)
  }

  function Next(cfg: Config, s: JobState, i: Input): JobState {
    match i
    case Tick(d) => s.(now := s.now + d)
    case CloseRequest => StepClose(s)
    case CloseHandlerLogs =>
      if s.closeLogPending then s.(log := s.log + [JobCloseRequested], closeLogPending := false) else s
    case ListActive =>
      if s.core.pc.Idle? then s.(listed := if Active(s.core.row.status) then Some(s.core.row) else None, swept := false)
      else s
    case ListCleanup => if s.core.pc.Idle? then s.(swept := s.core.row.cleanup, listed := None) else s
    case BeginTurn =>
      if s.core.pc.Idle? && s.listed.Some?
      then s.(core := s.core.(pc := BumpAttempt(s.listed.value.attempt), seen := []), listed := None, swept := false)
      else s
    case BeginSweep =>
      if s.core.pc.Idle? && s.swept then s.(core := s.core.(pc := CleanRead(InSweep)), listed := None, swept := false)
      else s
    case Advance(a) => StepAwait(cfg, s, a)
    case Crash(published) => StepCrash(s, published)
  }

  /** Inputs that do not interrupt or restart the coroutine. */
  predicate Uninterrupted(i: Input) {
    i.Tick? || i.CloseRequest? || i.CloseHandlerLogs? || i.Advance?
  }

  function Run(cfg: Config, s: JobState, inputs: seq<Input>): JobState
    decreases |inputs|
  {
    if inputs == [] then s else Run(cfg, Next(cfg, s, inputs[0]), inputs[1..])
  }

  lemma {:induction false} RunSplits(cfg: Config, s: JobState, inputs: seq<Input>, last: Input)
    ensures Run(cfg, s, inputs + [last]) == Next(cfg, Run(cfg, s, inputs), last)
    decreases |inputs|
  {
    if inputs == [] {
      assert inputs + [last] == [last];
      assert Run(cfg, s, [last]) == Run(cfg, Next(cfg, s, last), []);
    } else {
      assert (inputs + [last])[1..] == inputs[1..] + [last];
      RunSplits(cfg, Next(cfg, s, inputs[0]), inputs[1..], last);
    }
  }

  ghost predicate Reaches(cfg: Config, s: JobState, t: JobState) {
    exists inputs :: Run(cfg, s, inputs) == t
  }

  /** A stretch of a run that nothing interrupts. */
  ghost predicate Went(cfg: Config, s: JobState, t: JobState) {
    exists inputs :: Run(cfg, s, inputs) == t && forall i :: i in inputs ==> Uninterrupted(i)
  }

  lemma WentNext(cfg: Config, s: JobState, t: JobState, i: Input)
    requires Went(cfg, s, t) && Uninterrupted(i)
    ensures Went(cfg, s, Next(cfg, t, i))
  {
    var inputs :| Run(cfg, s, inputs) == t && forall x :: x in inputs ==> Uninterrupted(x);
    RunSplits(cfg, s, inputs, i);
    assert Run(cfg, s, inputs + [i]) == Next(cfg, t, i);
  }

  lemma WentNowhere(cfg: Config, s: JobState)
    ensures Went(cfg, s, s)
  {
    assert Run(cfg, s, []) == s;
  }

  lemma ReachesItself(cfg: Config, s: JobState)
    ensures Reaches(cfg, s, s)
  {
    assert Run(cfg, s, []) == s;
  }

  lemma ReachesNext(cfg: Config, s: JobState, t: JobState, i: Input) returns (next: JobState)
    requires Reaches(cfg, s, t)
    ensures next == Next(cfg, t, i) && Reaches(cfg, s, next)
  {
    var inputs :| Run(cfg, s, inputs) == t;
    RunSplits(cfg, s, inputs, i);
    next := Next(cfg, t, i);
  }
}
