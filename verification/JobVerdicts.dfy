/**
 What a turn sees of its gateway and its controller decides what becomes of the job.

 Reached reads a verdict off the observations of a turn; the theorems say that a turn acts on
 the verdict it reaches, and that it fails or completes a job on no other ground.
 */
module JobVerdicts {
  import opened Wrappers
  import opened ControlStore
  import opened Platform
  import opened JobMachine
  import opened JobInvariant
  import opened JobTraces
  import opened JobTheorems
  import opened JobCleanup
  import opened JobLifetime

  datatype Verdict =
    | Undecided                       // the turn has not seen enough
    | AwaitsRoute                     // no controller yet, and no way to the gateway
    | AwaitsHealth                    // no controller yet, and the gateway does not answer
    | AwaitsEnd                       // the controller goes on
    | FailsWith(why: FailureReason)
    | Succeeds

  predicate Dead(state: RJobState) {
    state == RJobFailed || state == RJobCancelled
  }

  function OfController(row: ControlJob, c: Snapshot): Verdict {
    if Dead(c.state) then FailsWith(SafactoryRJobFailed)
    else if c.state != RJobSucceeded then AwaitsEnd
    else if row.binding.Some? && ResultsComplete(row.binding.value, c) then Succeeds
    else FailsWith(EpisodeResultsIncomplete)
  }

  function OfHealth(row: ControlJob, url: string, ok: bool): Verdict {
    if !ok then if row.controllerId.Some? then FailsWith(GatewayLostDuringRun) else AwaitsHealth
    else if row.gatewayUrl.Some? && row.gatewayUrl.value != url then FailsWith(GatewayAddressChanged)
    else Undecided
  }

  function OfGateway(cfg: Config, row: ControlJob, g: Snapshot): Verdict {
    if Dead(g.state) || g.state == RJobSucceeded then FailsWith(GatewayRJobFailed)
    else if GatewayHasRoute(cfg, g) then Undecided
    else if row.controllerId.Some? then FailsWith(GatewayLostDuringRun) else AwaitsRoute
  }

  /** The verdict of one observation on a job with this row. */
  function Of(cfg: Config, row: ControlJob, o: Observation): Verdict {
    match o
    case SawGateway(_, g) => OfGateway(cfg, row, g)
    case SawHealth(url, ok) => OfHealth(row, url, ok)
    case SawController(_, c) => OfController(row, c)
  }

  /** The verdict of a turn is that of its last observation. */
  function Reached(cfg: Config, row: ControlJob, seen: seq<Observation>): Verdict {
    if seen == [] then Undecided else Of(cfg, row, seen[|seen| - 1])
  }

  predicate Decisive(v: Verdict) {
    v.FailsWith? || v.Succeeds?
  }

  /** The row says what the verdict demands. */
  predicate Carried(row: ControlJob, v: Verdict) {
    if v.FailsWith? then row.status == Failed && row.reason == Some(v.why) else row.status == Succeeded
  }

  /** The coroutine is about to judge what it has just seen. */
  predicate Weighing(pc: PC) {
    pc.SaveGatewayStatus? || pc.CheckAfterHealth? || pc.SaveControllerStatus?
  }

  /** The coroutine is about to carry the verdict into the row. */
  predicate Executing(pc: PC, v: Verdict) {
    if v.FailsWith? then pc == FailRead(v.why, InBody) || pc == FailWrite(v.why, InBody) else pc.Succeed?
  }

  predicate ClosedOff(row: ControlJob) {
    row.status == Closing || row.status == Closed
  }

  /** No decisive verdict is forgotten. */
  ghost predicate ActedOn(cfg: Config, s: Core) {
    (var v := Reached(cfg, s.row, s.seen);
     Decisive(v) ==> Carried(s.row, v) || ClosedOff(s.row) || Weighing(s.pc) || Executing(s.pc, v)) == true
  }

  /** A turn looks at its gateway, then at its health, then at the controller, while nothing seen is decisive. */
  ghost predicate InOrder(cfg: Config, row: ControlJob, seen: seq<Observation>) {
    && |seen| <= 3
    && (|seen| > 0 ==> seen[0].SawGateway? && row.gatewayId == Some(seen[0].id))
    && (|seen| > 1 ==> seen[1].SawHealth? && GatewayHasRoute(cfg, seen[0].g) && seen[1].url == UrlOf(cfg, seen[0].g))
    && (|seen| > 2 ==> seen[2].SawController? && row.controllerId == Some(seen[2].id)
                       && seen[1].ok && row.gatewayUrl == Some(seen[1].url))
  }

  predicate Told(summary: map<string, int>, key: string, stored: int) {
    key in summary ==> summary[key] == stored
  }

  /** Every count a report names is stored under that name. */
  predicate CountsStored(row: ControlJob, summary: map<string, int>) {
    && Told(summary, "total", row.episodes.total)
    && Told(summary, "running", row.episodes.running)
    && Told(summary, "succeeded", row.episodes.succeeded)
    && Told(summary, "failed", row.episodes.failed)
    && Told(summary, "collected", row.episodes.collected)
  }

  /** The row keeps what the turn has seen of its gateway and its controller. */
  ghost predicate Stored(s: Core) {
    && (|s.seen| > 0 && s.seen[0].SawGateway? && !s.pc.SaveGatewayStatus? ==>
          s.row.gatewayStatus == Some(s.seen[0].g.state))
    && (|s.seen| > 2 && s.seen[2].SawController? && !s.pc.SaveControllerStatus? ==>
          s.row.controllerStatus == Some(s.seen[2].c.state) && CountsStored(s.row, s.seen[2].c.summary))
  }

  ghost predicate Heard(cfg: Config, s: Core) {
    (InOrder(cfg, s.row, s.seen) && Stored(s) && ActedOn(cfg, s)
     && (s.pc.SaveHealthPhase? ==> Reached(cfg, s.row, s.seen) == AwaitsHealth)
     && (s.pc.Log? ==> !After(s.pc).SaveHealthPhase?)) == true
  }

  /** The verdict a turn must have reached when it fails a job for this reason. */
  predicate Fits(v: Verdict, why: FailureReason) {
    match why
    case FileBindingFailed => v == Undecided
    case GatewayReadyTimeout => v == AwaitsRoute
    case GatewayHealthTimeout => v == AwaitsHealth
    case SafactoryRJobTimeout => v == AwaitsEnd
    case UnavailableDependency => v == Undecided
    case InternalOrchestrationError => v == Undecided
    case _ => v == FailsWith(why)
  }

  /** A turn that fails or completes its job does so on the verdict it has reached. */
  ghost predicate Grounded(cfg: Config, s: Core) {
    (var v := Reached(cfg, s.row, s.seen);
     && (s.row.status == Failed ==> s.row.reason.Some? && Fits(v, s.row.reason.value))
     && (s.row.status == Succeeded ==> v == Verdict.Succeeds)
     && ((s.pc.FailRead? || s.pc.FailWrite?) && s.row.status != Failed ==> Fits(v, s.pc.why))
     && (s.pc.Succeed? ==> v == Verdict.Succeeds)
     && (s.pc.OnDependencyError? ==> v == Undecided)
     && (s.pc.Log? ==> !After(s.pc).FailRead? && !After(s.pc).FailWrite? && !After(s.pc).Succeed?
                       && !After(s.pc).OnDependencyError?)) == true
  }

  /** One step keeps what is known of all runs, and what is known inside a turn. */
  ghost predicate Keeps(cfg: Config, s: Core, r: Core) {
    (Heard(cfg, r) && (Grounded(cfg, s) ==> Grounded(cfg, r))) == true
  }

  /** Before the gateway is polled nothing has been seen. */
  predicate Early(pc: PC) {
    pc.BumpAttempt? || pc.MarkPreparing? || pc.BindFiles? || pc.SaveBinding? || pc.CheckBeforeGateway?
    || pc.CreateGateway? || pc.SaveGateway?
  }

  ghost predicate SeesNothing(r: Core) {
    (&& r.seen == [] && r.row.status != Failed && r.row.status != Succeeded
     && !r.pc.SaveHealthPhase? && !r.pc.Succeed?
     && (r.pc.FailRead? ==> r.pc.why == FileBindingFailed || r.pc.why == InternalOrchestrationError)
     && !r.pc.FailWrite?
     && (r.pc.Log? ==> r.pc.next.Idle? || r.pc.next.MarkPreparing? || r.pc.next.CheckBeforeGateway?
                       || r.pc.next.PollGateway?)) == true
  }

  lemma NothingSeenKeeps(cfg: Config, s: Core, r: Core)
    requires SeesNothing(r)
    ensures Keeps(cfg, s, r)
  {
    assert r.pc.Log? ==> After(r.pc) == r.pc.next;
  }

  lemma BumpSeesNothing(cfg: Config, s: Core, now: Time, a: Answer)
    requires CoreInv(cfg, s, now) && (s.pc.BumpAttempt? || s.pc.MarkPreparing?)
    ensures SeesNothing(StepCore(cfg, s, now, a))
  {
  }

  lemma BindSeesNothing(cfg: Config, s: Core, now: Time, a: Answer)
    requires CoreInv(cfg, s, now) && (s.pc.BindFiles? || s.pc.SaveBinding?)
    ensures SeesNothing(StepCore(cfg, s, now, a))
  {
  }

  lemma GatewaySeesNothing(cfg: Config, s: Core, now: Time, a: Answer)
    requires CoreInv(cfg, s, now) && (s.pc.CheckBeforeGateway? || s.pc.CreateGateway? || s.pc.SaveGateway?)
    ensures SeesNothing(StepCore(cfg, s, now, a))
  {
  }

  /** The columns a verdict rests on, and those that keep what was seen. */
  ghost predicate SameCase(a: ControlJob, b: ControlJob) {
    && a.binding == b.binding && a.gatewayId == b.gatewayId && a.gatewayUrl == b.gatewayUrl
    && a.controllerId == b.controllerId && a.gatewayStatus == b.gatewayStatus
    && a.controllerStatus == b.controllerStatus && a.episodes == b.episodes
  }

  /** A step that sees nothing, after everything seen was judged, and asks for no failure. */
  ghost predicate Settles(s: Core, r: Core) {
    (&& r.seen == s.seen && SameCase(s.row, r.row)
     && ((r.row.status == s.row.status && r.row.reason == s.row.reason) || ClosedOff(r.row))
     && !Weighing(s.pc) && !s.pc.FailRead? && !s.pc.FailWrite? && !s.pc.Succeed?
     && !r.pc.SaveHealthPhase? && !r.pc.Succeed? && !r.pc.OnDependencyError? && !r.pc.FailWrite?
     && (r.pc.FailRead? ==> r.row.status == Failed)
     && (r.pc.Log? ==> After(r.pc).Idle? || After(r.pc).AfterBindFailure? || CleaningUp(After(r.pc)))) == true
  }

  lemma SettlingKeeps(cfg: Config, s: Core, r: Core)
    requires Settles(s, r) && Heard(cfg, s)
    ensures Keeps(cfg, s, r)
  {
  }

  /** A step that sees nothing and writes nothing, where nothing was decided yet. */
  ghost predicate Undone(cfg: Config, s: Core, r: Core) {
    (&& r.seen == s.seen && r.row == s.row && s.row.status != Failed && s.row.status != Succeeded
     && !s.pc.SaveGatewayStatus? && !s.pc.SaveControllerStatus?
     && !r.pc.SaveHealthPhase? && !r.pc.Succeed? && !r.pc.FailWrite? && !r.pc.Log?
     && (r.pc.FailRead? ==> r.pc.why == InternalOrchestrationError)
     && Reached(cfg, s.row, s.seen) == Undecided) == true
  }

  lemma UndecidedKeeps(cfg: Config, s: Core, r: Core)
    requires Undone(cfg, s, r) && Heard(cfg, s)
    ensures Keeps(cfg, s, r)
  {
  }

  lemma HealthyIsUndecided(cfg: Config, s: Core, g: Snapshot)
    requires Healthy(cfg, s, g) && s.row.gatewayUrl == Some(UrlOf(cfg, g))
    ensures Reached(cfg, s.row, s.seen) == Undecided
  {
  }

  lemma PollGatewayKeeps(cfg: Config, s: Core, now: Time, a: Answer)
    requires CoreInv(cfg, s, now) && s.pc.PollGateway?
    ensures Keeps(cfg, s, StepCore(cfg, s, now, a))
  {
  }

  /** The control point after a judgement carries the verdict on. */
  ghost predicate Follows(pc: PC, v: Verdict) {
    (&& (Decisive(v) ==> Executing(pc, v))
     && (pc.FailRead? ==> Fits(v, pc.why))
     && (pc.Succeed? ==> v == Verdict.Succeeds)
     && (pc.SaveHealthPhase? ==> v == AwaitsHealth)
     && !pc.FailWrite? && !pc.OnDependencyError? && (pc.Log? ==> pc == Log(ReconciliationCompleted, Idle))) == true
  }

  /** A step that judges the last observation and stores what belongs to it. */
  ghost predicate Judges(s: Core, r: Core) {
    (&& r.seen == s.seen && s.seen != [] && r.row.binding == s.row.binding && r.row.gatewayId == s.row.gatewayId
     && r.row.gatewayUrl == s.row.gatewayUrl && r.row.controllerId == s.row.controllerId
     && r.row.status != Failed && r.row.status != Succeeded && Stored(r)) == true
  }

  lemma JudgedKeeps(cfg: Config, s: Core, r: Core)
    requires Heard(cfg, s) && Judges(s, r) && Follows(r.pc, Reached(cfg, r.row, r.seen))
    ensures Keeps(cfg, s, r)
  {
    assert InOrder(cfg, r.row, r.seen);
    assert r.pc.Log? ==> After(r.pc) == Idle;
  }

  lemma ClosingKeeps(cfg: Config, s: Core, r: Core)
    requires Heard(cfg, s) && Judges(s, r) && r.row.status == Closing && r.pc.Idle?
    ensures Keeps(cfg, s, r)
  {
    assert InOrder(cfg, r.row, r.seen);
  }

  lemma GatewayJudgement(cfg: Config, row: ControlJob, now: Time, g: Snapshot)
    requires row.status != Closing
    ensures Follows(AfterGatewayStatus(cfg, row, now, g), OfGateway(cfg, row, g))
  {
  }

  lemma GatewayStatusKeeps(cfg: Config, s: Core, now: Time, a: Answer)
    requires CoreInv(cfg, s, now) && s.pc.SaveGatewayStatus? && Heard(cfg, s)
    ensures Keeps(cfg, s, StepCore(cfg, s, now, a))
  {
    var r := StepCore(cfg, s, now, a);
    assert Judges(s, r) && r.pc == AfterGatewayStatus(cfg, r.row, now, s.pc.g);
    if r.row.status == Closing {
      ClosingKeeps(cfg, s, r);
    } else {
      GatewayJudgement(cfg, r.row, now, s.pc.g);
      JudgedKeeps(cfg, s, r);
    }
  }

  lemma CheckHealthKeeps(cfg: Config, s: Core, now: Time, a: Answer)
    requires CoreInv(cfg, s, now) && s.pc.CheckHealth? && Heard(cfg, s)
    ensures Keeps(cfg, s, StepCore(cfg, s, now, a))
  {
  }

  lemma HealthJudgement(cfg: Config, s: Core, g: Snapshot, ok: bool)
    requires s.row.status != Closing
    ensures Follows(StepCheckAfterHealth(cfg, s, g, ok).pc, OfHealth(s.row, UrlOf(cfg, g), ok))
  {
  }

  lemma AfterHealthKeeps(cfg: Config, s: Core, now: Time, a: Answer)
    requires CoreInv(cfg, s, now) && s.pc.CheckAfterHealth? && Heard(cfg, s)
    ensures Keeps(cfg, s, StepCore(cfg, s, now, a))
  {
    var r := StepCore(cfg, s, now, a);
    assert Judges(s, r);
    if r.row.status == Closing {
      ClosingKeeps(cfg, s, r);
    } else {
      HealthJudgement(cfg, s, s.pc.g, s.pc.ok);
      JudgedKeeps(cfg, s, r);
    }
  }

  lemma HealthPhaseKeeps(cfg: Config, s: Core, now: Time, a: Answer)
    requires CoreInv(cfg, s, now) && s.pc.SaveHealthPhase? && Heard(cfg, s)
    ensures Keeps(cfg, s, StepCore(cfg, s, now, a))
  {
  }

  lemma UrlKeeps(cfg: Config, s: Core, now: Time, a: Answer)
    requires CoreInv(cfg, s, now) && s.pc.SaveUrl? && Heard(cfg, s)
    ensures Keeps(cfg, s, StepCore(cfg, s, now, a))
  {
    UrlStep(cfg, s, now, s.pc.g);
    StoredUrlKeeps(cfg, s, StepSaveUrl(cfg, s, now, s.pc.g), s.pc.g);
  }

  /** A step of a turn that has seen a healthy gateway, up to the moment it looks at the controller. */
  ghost predicate Advances(cfg: Config, s: Core, r: Core, g: Snapshot) {
    (&& r.seen == s.seen && r.row.gatewayId == s.row.gatewayId && r.row.gatewayStatus == s.row.gatewayStatus
     && r.row.gatewayUrl == Some(UrlOf(cfg, g)) && r.row.status != Failed && r.row.status != Succeeded
     && (r.pc.Idle? || r.pc.SaveControllerWhileClosing?
         || (r.pc.Log? && (r.pc.next.Idle? || r.pc.next.CheckBeforeController? || r.pc.next.PollController?)))) == true
  }

  lemma UrlStep(cfg: Config, s: Core, now: Time, g: Snapshot)
    requires s.pc == SaveUrl(g) && InTurn(s.row) && s.row.gatewayUrl.None?
    ensures Advances(cfg, s, StepSaveUrl(cfg, s, now, g), g)
  {
  }

  lemma StoredUrlKeeps(cfg: Config, s: Core, r: Core, g: Snapshot)
    requires Heard(cfg, s) && Healthy(cfg, s, g) && Advances(cfg, s, r, g) && !s.pc.SaveGatewayStatus?
    ensures Keeps(cfg, s, r)
  {
    assert r.pc.Log? ==> After(r.pc) == r.pc.next;
    assert Reached(cfg, r.row, r.seen) == Undecided;
  }

  lemma CheckKeeps(cfg: Config, s: Core, now: Time, a: Answer)
    requires CoreInv(cfg, s, now) && s.pc.CheckBeforeController? && Heard(cfg, s)
    ensures Keeps(cfg, s, StepCore(cfg, s, now, a))
  {
    HealthyIsUndecided(cfg, s, s.pc.g);
    UndecidedKeeps(cfg, s, StepCore(cfg, s, now, a));
  }

  lemma CreateControllerKeeps(cfg: Config, s: Core, now: Time, a: Answer)
    requires CoreInv(cfg, s, now) && s.pc.CreateController? && Heard(cfg, s)
    ensures Keeps(cfg, s, StepCore(cfg, s, now, a))
  {
    HealthyIsUndecided(cfg, s, s.pc.g);
    UndecidedKeeps(cfg, s, StepCore(cfg, s, now, a));
  }

  lemma SaveControllerAdvances(cfg: Config, s: Core, now: Time, a: Answer)
    requires CoreInv(cfg, s, now) && s.pc.SaveController?
    ensures Advances(cfg, s, StepCore(cfg, s, now, a), s.pc.g)
  {
  }

  lemma SaveWhileClosingAdvances(cfg: Config, s: Core, now: Time, a: Answer)
    requires CoreInv(cfg, s, now) && s.pc.SaveControllerWhileClosing?
    ensures Advances(cfg, s, StepCore(cfg, s, now, a), s.pc.g)
  {
  }

  lemma SaveControllerKeeps(cfg: Config, s: Core, now: Time, a: Answer)
    requires CoreInv(cfg, s, now) && (s.pc.SaveController? || s.pc.SaveControllerWhileClosing?) && Heard(cfg, s)
    ensures Keeps(cfg, s, StepCore(cfg, s, now, a))
  {
    if s.pc.SaveController? {
      SaveControllerAdvances(cfg, s, now, a);
    } else {
      SaveWhileClosingAdvances(cfg, s, now, a);
    }
    StoredUrlKeeps(cfg, s, StepCore(cfg, s, now, a), s.pc.g);
  }

  lemma PollControllerKeeps(cfg: Config, s: Core, now: Time, a: Answer)
    requires CoreInv(cfg, s, now) && s.pc.PollController? && Heard(cfg, s)
    ensures Keeps(cfg, s, StepCore(cfg, s, now, a))
  {
    if a.poll.PollRaises? {
      HealthyIsUndecided(cfg, s, s.pc.g);
      UndecidedKeeps(cfg, s, StepCore(cfg, s, now, a));
    } else {
      SeenControllerKeeps(cfg, s, s.pc.id, s.pc.episodes, s.pc.g, a.poll.snapshot);
    }
  }

  lemma SeenControllerKeeps(cfg: Config, s: Core, id: RJobId, episodes: Episodes, g: Snapshot, c: Snapshot)
    requires s.pc == PollController(id, episodes, g) && InTurn(s.row) && Healthy(cfg, s, g) && Heard(cfg, s)
    requires s.row.gatewayUrl == Some(UrlOf(cfg, g)) && s.row.controllerId == Some(id)
    ensures Keeps(cfg, s, s.(seen := s.seen + [SawController(id, c)], pc := SaveControllerStatus(episodes, g, c)))
  {
  }

  lemma CountsAreStored(row: ControlJob, before: Episodes, summary: map<string, int>)
    requires row.episodes == MergeCounts(before, summary)
    ensures CountsStored(row, summary)
  {
  }

  lemma StatusWhileClosingKeeps(cfg: Config, s: Core, now: Time, a: Answer)
    requires CoreInv(cfg, s, now) && s.pc.SaveControllerStatus? && s.row.status == Closing && Heard(cfg, s)
    ensures Keeps(cfg, s, StepCore(cfg, s, now, a))
  {
    var r := StepCore(cfg, s, now, a);
    CountsAreStored(r.row, s.pc.episodes, s.pc.c.summary);
    assert r.pc == Idle && Judges(s, r);
    ClosingKeeps(cfg, s, r);
  }

  lemma StatusOpenKeeps(cfg: Config, s: Core, now: Time, a: Answer)
    requires CoreInv(cfg, s, now) && s.pc.SaveControllerStatus? && s.row.status != Closing && Heard(cfg, s)
    ensures Keeps(cfg, s, StepCore(cfg, s, now, a))
  {
    StatusStep(cfg, s, now, a);
    var r := StepCore(cfg, s, now, a);
    var row := WithReport(s, now);
    assert r.pc == AfterControllerStatus(cfg, row, now, s.pc.g, s.pc.c);
    CountsAreStored(row, s.pc.episodes, s.pc.c.summary);
    ControllerJudgement(cfg, row, now, s.pc.g, s.pc.c);
    assert Judges(s, r);
    JudgedKeeps(cfg, s, r);
  }

  /** What the judgement of a controller leads to, put against the verdict. */
  lemma ControllerJudgement(cfg: Config, row: ControlJob, now: Time, g: Snapshot, c: Snapshot)
    requires row.status != Closing
    ensures Follows(AfterControllerStatus(cfg, row, now, g, c), OfController(row, c))
    ensures After(AfterControllerStatus(cfg, row, now, g, c)) == Behind(AfterControllerStatus(cfg, row, now, g, c))
  {
  }

  lemma ControllerStatusKeeps(cfg: Config, s: Core, now: Time, a: Answer)
    requires CoreInv(cfg, s, now) && s.pc.SaveControllerStatus? && Heard(cfg, s)
    ensures Keeps(cfg, s, StepCore(cfg, s, now, a))
  {
    if s.row.status == Closing {
      StatusWhileClosingKeeps(cfg, s, now, a);
    } else {
      StatusOpenKeeps(cfg, s, now, a);
    }
  }

  lemma SucceedKeeps(cfg: Config, s: Core, now: Time, a: Answer)
    requires CoreInv(cfg, s, now) && s.pc.Succeed? && Heard(cfg, s)
    ensures Keeps(cfg, s, StepCore(cfg, s, now, a))
  {
    SuccessWriteKeeps(cfg, s, now);
  }

  lemma SuccessWriteKeeps(cfg: Config, s: Core, now: Time)
    requires s.pc.Succeed? && InTurn(s.row) && Heard(cfg, s)
    ensures Keeps(cfg, s, StepSucceed(s, now))
  {
    var r := StepSucceed(s, now);
    assert if s.row.status == Closing then r == s.(pc := Idle)
           else r.row.status == Succeeded && r.pc == Log(JobSucceeded, Idle);
    assert r.pc.Log? ==> After(r.pc) == Idle;
  }

  lemma FailReadKeeps(cfg: Config, s: Core, now: Time, a: Answer)
    requires CoreInv(cfg, s, now) && s.pc.FailRead? && Heard(cfg, s)
    ensures Keeps(cfg, s, StepCore(cfg, s, now, a))
  {
  }

  lemma AfterBindFailureKeeps(cfg: Config, s: Core, now: Time, a: Answer)
    requires CoreInv(cfg, s, now) && s.pc.AfterBindFailure? && Heard(cfg, s)
    ensures Keeps(cfg, s, StepCore(cfg, s, now, a))
  {
    SettlingKeeps(cfg, s, StepCore(cfg, s, now, a));
  }

  lemma DependencyErrorKeeps(cfg: Config, s: Core, now: Time, a: Answer)
    requires CoreInv(cfg, s, now) && s.pc.OnDependencyError? && Heard(cfg, s)
    ensures Keeps(cfg, s, StepCore(cfg, s, now, a))
  {
    assert StepCore(cfg, s, now, a).row == s.row;
  }

  /** The failure write names the reason the verdict demands. */
  lemma FailedRowKeeps(cfg: Config, s: Core, now: Time, r: Core)
    requires s.pc.FailWrite? && Heard(cfg, s) && InTurn(s.row) && s.row.status != Closing
    requires r == s.(row := s.row.(status := Failed, phase := CleaningRJobs, reason := Some(s.pc.why),
                                   cleanup := true, completedAt := Some(Stamp(now)), updatedAt := Stamp(now),
                                   version := s.row.version + 1),
                     pc := Log(JobFailed, CleanRead(s.pc.caller)))
    ensures Keeps(cfg, s, r)
  {
    assert After(r.pc) == r.pc.next;
  }

  lemma FailWriteKeeps(cfg: Config, s: Core, now: Time, a: Answer)
    requires CoreInv(cfg, s, now) && s.pc.FailWrite? && Heard(cfg, s)
    ensures Keeps(cfg, s, StepCore(cfg, s, now, a))
  {
    FailureWriteKeeps(cfg, s, now);
  }

  lemma FailureWriteKeeps(cfg: Config, s: Core, now: Time)
    requires s.pc.FailWrite? && InTurn(s.row) && Heard(cfg, s)
    ensures Keeps(cfg, s, StepFailWrite(s, now, s.pc.why, s.pc.caller))
  {
    var r := StepFailWrite(s, now, s.pc.why, s.pc.caller);
    if s.row.status == Closing {
      assert r == s.(pc := Return(s.pc.caller));
    } else {
      FailedRowKeeps(cfg, s, now, r);
    }
  }

  lemma CleanReadKeeps(cfg: Config, s: Core, now: Time, a: Answer)
    requires CoreInv(cfg, s, now) && s.pc.CleanRead? && Heard(cfg, s)
    ensures Keeps(cfg, s, StepCore(cfg, s, now, a))
  {
    var r := StepCore(cfg, s, now, a);
    assert r.pc.Log? ==> After(r.pc) == r.pc.next;
    SettlingKeeps(cfg, s, r);
  }

  lemma StopKeeps(cfg: Config, s: Core, now: Time, a: Answer)
    requires CoreInv(cfg, s, now) && (s.pc.StopController? || s.pc.StopGateway?) && Heard(cfg, s)
    ensures Keeps(cfg, s, StepCore(cfg, s, now, a))
  {
    if a.stop.StopReturns? {
      StoppedSettles(cfg, s, now, a);
    } else {
      StopRaisedSettles(cfg, s, now, a);
    }
    SettlingKeeps(cfg, s, StepCore(cfg, s, now, a));
  }

  lemma StoppedSettles(cfg: Config, s: Core, now: Time, a: Answer)
    requires CoreInv(cfg, s, now) && (s.pc.StopController? || s.pc.StopGateway?) && a.stop.StopReturns?
    ensures Settles(s, StepCore(cfg, s, now, a))
  {
    var r := StepCore(cfg, s, now, a);
    assert r.pc.Log? && After(r.pc) == r.pc.next && CleaningUp(r.pc.next);
  }

  lemma StopRaisedSettles(cfg: Config, s: Core, now: Time, a: Answer)
    requires CoreInv(cfg, s, now) && (s.pc.StopController? || s.pc.StopGateway?) && a.stop.StopRaises?
    ensures Settles(s, StepCore(cfg, s, now, a))
  {
    var r := StepCore(cfg, s, now, a);
    assert r.pc == AfterRaisingStop(a.stop.e, s.pc.caller) && Stopping(cfg, s.row, s.pc.closing, s.pc.caller);
  }

  lemma CleanSkipKeeps(cfg: Config, s: Core, now: Time, a: Answer)
    requires CoreInv(cfg, s, now) && s.pc.CleanSkip? && Heard(cfg, s)
    ensures Keeps(cfg, s, StepCore(cfg, s, now, a))
  {
    var r := StepCore(cfg, s, now, a);
    assert r.pc.Log? ==> After(r.pc) == r.pc.next;
    SettlingKeeps(cfg, s, r);
  }

  lemma CleanWriteKeeps(cfg: Config, s: Core, now: Time, a: Answer)
    requires CoreInv(cfg, s, now) && s.pc.CleanWrite? && Heard(cfg, s)
    ensures Keeps(cfg, s, StepCore(cfg, s, now, a))
  {
    CleanWriteSettles(s, now, s.pc.closing, s.pc.caller);
    SettlingKeeps(cfg, s, StepCore(cfg, s, now, a));
  }

  lemma CleanWriteSettles(s: Core, now: Time, closing: bool, caller: Caller)
    requires s.pc == CleanWrite(closing, caller) && closing == (s.row.status == Closing) && s.row.status != Closed
    ensures Settles(s, StepCleanWrite(s, now, closing, caller))
  {
    var r := StepCleanWrite(s, now, closing, caller);
    assert r.pc == Log(CleanupCompleted, if closing then Log(JobClosed, Return(caller)) else Return(caller));
    assert After(r.pc) == After(r.pc.next) == Return(caller);
  }

  lemma LogKeeps(cfg: Config, s: Core, r: Core)
    requires s.pc.Log? && r == s.(pc := s.pc.next) && Heard(cfg, s)
    ensures Keeps(cfg, s, r)
  {
    assert After(s.pc) == After(s.pc.next);
  }

  lemma EarlyKeeps(cfg: Config, s: Core, now: Time, a: Answer)
    requires CoreInv(cfg, s, now) && Early(s.pc)
    ensures Keeps(cfg, s, StepCore(cfg, s, now, a))
  {
    if s.pc.BumpAttempt? || s.pc.MarkPreparing? {
      BumpSeesNothing(cfg, s, now, a);
    } else if s.pc.BindFiles? || s.pc.SaveBinding? {
      BindSeesNothing(cfg, s, now, a);
    } else {
      GatewaySeesNothing(cfg, s, now, a);
    }
    NothingSeenKeeps(cfg, s, StepCore(cfg, s, now, a));
  }

  predicate Looking(pc: PC) {
    || pc.PollGateway? || pc.SaveGatewayStatus? || pc.CheckHealth? || pc.CheckAfterHealth? || pc.SaveHealthPhase?
    || pc.SaveUrl?
  }

  lemma LookingKeeps(cfg: Config, s: Core, now: Time, a: Answer)
    requires CoreInv(cfg, s, now) && Heard(cfg, s) && Looking(s.pc)
    ensures Keeps(cfg, s, StepCore(cfg, s, now, a))
  {
    match s.pc
    case PollGateway(_) => PollGatewayKeeps(cfg, s, now, a);
    case SaveGatewayStatus(_) => GatewayStatusKeeps(cfg, s, now, a);
    case CheckHealth(_) => CheckHealthKeeps(cfg, s, now, a);
    case CheckAfterHealth(_, _) => AfterHealthKeeps(cfg, s, now, a);
    case SaveHealthPhase => HealthPhaseKeeps(cfg, s, now, a);
    case SaveUrl(_) => UrlKeeps(cfg, s, now, a);
  }

  lemma CleaningKeeps(cfg: Config, s: Core, now: Time, a: Answer)
    requires CoreInv(cfg, s, now) && Heard(cfg, s) && CleaningUp(s.pc)
    ensures Keeps(cfg, s, StepCore(cfg, s, now, a))
  {
    match s.pc
    case CleanRead(_) => CleanReadKeeps(cfg, s, now, a);
    case CleanSkip(_) => CleanSkipKeeps(cfg, s, now, a);
    case CleanWrite(_, _) => CleanWriteKeeps(cfg, s, now, a);
    case _ => StopKeeps(cfg, s, now, a);
  }

  /** One await keeps what is known of verdicts. */
  lemma StepKeeps(cfg: Config, s: Core, now: Time, a: Answer)
    requires CoreInv(cfg, s, now) && Heard(cfg, s)
    ensures Keeps(cfg, s, StepCore(cfg, s, now, a))
  {
    if s.pc.Idle? || s.pc.Escaped? {
      assert StepCore(cfg, s, now, a) == s;
    } else if s.pc.Log? {
      LogKeeps(cfg, s, StepCore(cfg, s, now, a));
    } else if Early(s.pc) {
      EarlyKeeps(cfg, s, now, a);
    } else if Looking(s.pc) {
      LookingKeeps(cfg, s, now, a);
    } else if CleaningUp(s.pc) {
      CleaningKeeps(cfg, s, now, a);
    } else {
      match s.pc
      case CheckBeforeController(_) => CheckKeeps(cfg, s, now, a);
      case CreateController(_, _) => CreateControllerKeeps(cfg, s, now, a);
      case SaveController(_, _, _, _) => SaveControllerKeeps(cfg, s, now, a);
      case SaveControllerWhileClosing(_, _, _, _) => SaveControllerKeeps(cfg, s, now, a);
      case PollController(_, _, _) => PollControllerKeeps(cfg, s, now, a);
      case SaveControllerStatus(_, _, _) => ControllerStatusKeeps(cfg, s, now, a);
      case Succeed(_, _) => SucceedKeeps(cfg, s, now, a);
      case FailWrite(_, _) => FailWriteKeeps(cfg, s, now, a);
      case FailRead(_, _) => FailReadKeeps(cfg, s, now, a);
      case AfterBindFailure => AfterBindFailureKeeps(cfg, s, now, a);
      case OnDependencyError => DependencyErrorKeeps(cfg, s, now, a);
    }
  }

  // --- Inputs and runs ---------------------------------------------------------------------------

  lemma CloseKeeps(cfg: Config, s: Core, now: Time)
    requires Heard(cfg, s)
    ensures Keeps(cfg, s, s.(row := CloseRow(s.row, now).0))
  {
    var row := CloseRow(s.row, now).0;
    assert SameCase(s.row, row) && (row.status == Closing || row == s.row);
    assert InOrder(cfg, row, s.seen);
  }

  lemma UnseenIsHeard(cfg: Config, s: Core)
    requires s.seen == [] && (s.pc.Idle? || s.pc.BumpAttempt?)
    ensures Heard(cfg, s)
  {
  }

  lemma SweepIsHeard(cfg: Config, s: Core)
    requires s.pc.Idle? && Heard(cfg, s)
    ensures Heard(cfg, s.(pc := CleanRead(InSweep)))
  {
  }

  lemma OtherInputsKeep(cfg: Config, s: JobState, i: Input)
    requires Heard(cfg, s.core) && !i.Advance?
    ensures Heard(cfg, Next(cfg, s, i).core)
    ensures Uninterrupted(i) && Grounded(cfg, s.core) ==> Grounded(cfg, Next(cfg, s, i).core)
  {
    match i
    case CloseRequest => CloseKeeps(cfg, s.core, s.now);
    case Crash(_) => UnseenIsHeard(cfg, Next(cfg, s, i).core);
    case BeginTurn =>
      if s.core.pc.Idle? && s.listed.Some? {
        UnseenIsHeard(cfg, Next(cfg, s, i).core);
      }
    case BeginSweep =>
      if s.core.pc.Idle? && s.swept {
        SweepIsHeard(cfg, s.core);
      }
    case _ =>
  }

  lemma NextHears(cfg: Config, s: JobState, i: Input)
    requires AllInv(cfg, s) && Heard(cfg, s.core)
    ensures Heard(cfg, Next(cfg, s, i).core)
    ensures Uninterrupted(i) && Grounded(cfg, s.core) ==> Grounded(cfg, Next(cfg, s, i).core)
  {
    if i.Advance? {
      assert CoreInv(cfg, s.core, s.now);
      StepKeeps(cfg, s.core, s.now, i.a);
    } else {
      OtherInputsKeep(cfg, s, i);
    }
  }

  lemma {:induction false} RunHears(cfg: Config, s: JobState, inputs: seq<Input>)
    requires AllInv(cfg, s) && Heard(cfg, s.core)
    ensures Heard(cfg, Run(cfg, s, inputs).core)
    ensures (forall i :: i in inputs ==> Uninterrupted(i)) && Grounded(cfg, s.core) ==>
              Grounded(cfg, Run(cfg, s, inputs).core)
    decreases |inputs|
  {
    if inputs != [] {
      NextKeepsAll(cfg, s, inputs[0]);
      NextHears(cfg, s, inputs[0]);
      RunHears(cfg, Next(cfg, s, inputs[0]), inputs[1..]);
    }
  }

  /** The coroutine never moves a job to closing. */
  ghost predicate StaysOpen(s: Core, r: Core) {
    (r.row.status == Closing ==> s.row.status == Closing) == true
  }

  lemma BindingStaysOpen(cfg: Config, s: Core, now: Time, a: Answer)
    requires BindingFiles(s.pc)
    ensures StaysOpen(s, StepCore(cfg, s, now, a))
  {
  }

  lemma ProbingStaysOpen(cfg: Config, s: Core, now: Time, a: Answer)
    requires ProbingGateway(s.pc)
    ensures StaysOpen(s, StepCore(cfg, s, now, a))
  {
  }

  lemma DealingStaysOpen(cfg: Config, s: Core, now: Time, a: Answer)
    requires Dealing(s.pc)
    ensures StaysOpen(s, StepCore(cfg, s, now, a))
  {
  }

  lemma RestStaysOpen(cfg: Config, s: Core, now: Time, a: Answer)
    requires !BindingFiles(s.pc) && !ProbingGateway(s.pc) && !Dealing(s.pc)
    ensures StaysOpen(s, StepCore(cfg, s, now, a))
  {
  }

  lemma NextStaysOpen(cfg: Config, s: JobState, i: Input)
    requires AllInv(cfg, s) && !ClosedOff(s.core.row) && !i.CloseRequest?
    ensures !ClosedOff(Next(cfg, s, i).core.row)
  {
    NextKeepsAll(cfg, s, i);
    if i.Advance? {
      if BindingFiles(s.core.pc) {
        BindingStaysOpen(cfg, s.core, s.now, i.a);
      } else if ProbingGateway(s.core.pc) {
        ProbingStaysOpen(cfg, s.core, s.now, i.a);
      } else if Dealing(s.core.pc) {
        DealingStaysOpen(cfg, s.core, s.now, i.a);
      } else {
        RestStaysOpen(cfg, s.core, s.now, i.a);
      }
    }
  }

  /** Without a close request a job is never closed. */
  lemma {:induction false} UncontestedRunsStayOpen(cfg: Config, s: JobState, inputs: seq<Input>)
    requires AllInv(cfg, s) && !ClosedOff(s.core.row) && CloseRequest !in inputs
    ensures !ClosedOff(Run(cfg, s, inputs).core.row)
    decreases |inputs|
  {
    if inputs != [] {
      NextKeepsAll(cfg, s, inputs[0]);
      NextStaysOpen(cfg, s, inputs[0]);
      UncontestedRunsStayOpen(cfg, Next(cfg, s, inputs[0]), inputs[1..]);
    }
  }

  // --- The theorems ------------------------------------------------------------------------------

  /**
   No verdict is forgotten: whenever a run is between turns, a decisive verdict of the last turn has been
   carried into the row, unless the job is being closed.
   */
  lemma VerdictsAreCarriedOut(cfg: Config, jobId: string, rangeId: string, now: Time, inputs: seq<Input>)
    ensures var end := Run(cfg, Init(jobId, rangeId, now), inputs).core;
            var v := Reached(cfg, end.row, end.seen);
            Over(end.pc) && Decisive(v) ==> Carried(end.row, v) || end.row.status == Closing || end.row.status == Closed
  {
    var s := Init(jobId, rangeId, now);
    InitHoldsAll(cfg, jobId, rangeId, now);
    RunHears(cfg, s, inputs);
    assert ActedOn(cfg, Run(cfg, s, inputs).core);
  }

  /** The row holds what was observed. */
  predicate Bears(row: ControlJob, o: Observation) {
    match o
    case SawGateway(id, g) => row.gatewayId == Some(id) && row.gatewayStatus == Some(g.state)
    case SawController(id, c) =>
      row.controllerId == Some(id) && row.controllerStatus == Some(c.state) && CountsStored(row, c.summary)
    case SawHealth(_, _) => true
  }

  predicate Remembered(r: Core) {
    forall o :: o in r.seen ==> Bears(r.row, o)
  }

  /** Between turns the row keeps the states and the counts that the last turn has seen. */
  lemma ObservationsAreStored(cfg: Config, jobId: string, rangeId: string, now: Time, inputs: seq<Input>)
    ensures var end := Run(cfg, Init(jobId, rangeId, now), inputs).core;
            Over(end.pc) ==> Remembered(end)
  {
    var s := Init(jobId, rangeId, now);
    InitHoldsAll(cfg, jobId, rangeId, now);
    UnseenIsHeard(cfg, s.core);
    RunHears(cfg, s, inputs);
    SeenIsStored(cfg, Run(cfg, s, inputs).core);
  }

  lemma SeenIsStored(cfg: Config, r: Core)
    requires Heard(cfg, r)
    ensures Over(r.pc) ==> Remembered(r)
  {
    var seen := r.seen;
    if Over(r.pc) {
      assert InOrder(cfg, r.row, seen) && Stored(r);
      assert |seen| > 0 ==> Bears(r.row, seen[0]);
      assert |seen| > 1 ==> Bears(r.row, seen[1]);
      assert |seen| > 2 ==> Bears(r.row, seen[2]);
    }
  }

  /** What a finished turn has made of its verdict. */
  ghost predicate TurnFollows(cfg: Config, r: Core, contested: bool) {
    var v := Reached(cfg, r.row, r.seen);
    && (r.row.status == Failed ==> r.row.reason.Some? && Fits(v, r.row.reason.value))
    && (r.row.status == Succeeded ==> v == Verdict.Succeeds)
    && (Decisive(v) ==> !Active(r.row.status))
    && (Decisive(v) && !contested ==> Carried(r.row, v))
  }

  /**
   A turn follows its verdict: a turn of an active job that runs to its end fails the job for a reason or completes it
   only if its observations say so, and always if they say so and no close request comes between.
   */
  lemma TurnsFollowTheirVerdict(cfg: Config, jobId: string, rangeId: string, now: Time,
                                before: seq<Input>, turn: seq<Input>)
    requires forall i :: i in turn ==> Uninterrupted(i)
    ensures var s := Run(cfg, Init(jobId, rangeId, now), before);
            var r := Run(cfg, s, turn).core;
            s.core.pc.BumpAttempt? && Active(s.core.row.status) && Over(r.pc) ==>
              TurnFollows(cfg, r, CloseRequest in turn)
  {
    InitHoldsAll(cfg, jobId, rangeId, now);
    RunKeepsAll(cfg, Init(jobId, rangeId, now), before);
    RunHears(cfg, Init(jobId, rangeId, now), before);
    var s := Run(cfg, Init(jobId, rangeId, now), before);
    if s.core.pc.BumpAttempt? && Active(s.core.row.status) && Over(Run(cfg, s, turn).core.pc) {
      TurnFollowsItsVerdict(cfg, s, turn);
    }
  }

  lemma TurnFollowsItsVerdict(cfg: Config, s: JobState, turn: seq<Input>)
    requires AllInv(cfg, s) && Heard(cfg, s.core) && s.core.pc.BumpAttempt? && Active(s.core.row.status)
    requires (forall i :: i in turn ==> Uninterrupted(i)) && Over(Run(cfg, s, turn).core.pc)
    ensures TurnFollows(cfg, Run(cfg, s, turn).core, CloseRequest in turn)
  {
    assert Grounded(cfg, s.core);
    RunHears(cfg, s, turn);
    if CloseRequest !in turn {
      UncontestedRunsStayOpen(cfg, s, turn);
    }
    FollowsAtTheEnd(cfg, Run(cfg, s, turn).core, CloseRequest in turn);
  }

  lemma FollowsAtTheEnd(cfg: Config, r: Core, contested: bool)
    requires Heard(cfg, r) && Grounded(cfg, r) && Over(r.pc) && (!contested ==> !ClosedOff(r.row))
    ensures TurnFollows(cfg, r, contested)
  {
    assert ActedOn(cfg, r);
  }

  /** Failed for this reason, or overtaken by a close request. */
  predicate FailedFor(row: ControlJob, why: FailureReason, contested: bool) {
    && !Active(row.status)
    && (!contested ==> row.status == Failed && row.reason == Some(why))
  }

  /** What an observation makes of the job. */
  ghost predicate Decides(cfg: Config, row: ControlJob, o: Observation, contested: bool) {
    match o
    case SawGateway(_, g) =>
      && (g.state == RJobFailed || g.state == RJobCancelled || g.state == RJobSucceeded ==>
            FailedFor(row, GatewayRJobFailed, contested))
      && (g.state == RJobPending || g.state == RJobRunning || g.state == RJobUnknown ==>
            !GatewayHasRoute(cfg, g) && row.controllerId.Some? ==> FailedFor(row, GatewayLostDuringRun, contested))
    case SawHealth(url, ok) =>
      && (!ok && row.controllerId.Some? ==> FailedFor(row, GatewayLostDuringRun, contested))
      && (ok && row.gatewayUrl.Some? && row.gatewayUrl.value != url ==>
            FailedFor(row, GatewayAddressChanged, contested))
    case SawController(_, c) =>
      && (c.state == RJobFailed || c.state == RJobCancelled ==> FailedFor(row, SafactoryRJobFailed, contested))
      && (c.state == RJobSucceeded && row.binding.Some? ==>
            if ResultsComplete(row.binding.value, c)
            then !Active(row.status) && (!contested ==> row.status == Succeeded)
            else FailedFor(row, EpisodeResultsIncomplete, contested))
  }

  /**
   Observations decide: a full turn of an active job that sees its gateway or controller dead, its gateway out of reach
   under a running controller, its address changed or its controller succeeded ends with the job inactive, and, without
   a close request in that turn, failed for just that reason or successful.
   */
  lemma ObservationsDecide(cfg: Config, jobId: string, rangeId: string, now: Time, before: seq<Input>, turn: seq<Input>,
                           o: Observation)
    ensures var s := Run(cfg, Init(jobId, rangeId, now), before);
            var r := Run(cfg, s, turn).core;
            FullTurn(s, turn) && Active(s.core.row.status) && o in r.seen ==>
              Decides(cfg, r.row, o, CloseRequest in turn)
  {
    var s := Run(cfg, Init(jobId, rangeId, now), before);
    var r := Run(cfg, s, turn).core;
    if FullTurn(s, turn) && Active(s.core.row.status) && o in r.seen {
      InitHoldsAll(cfg, jobId, rangeId, now);
      UnseenIsHeard(cfg, Init(jobId, rangeId, now).core);
      RunKeepsAll(cfg, Init(jobId, rangeId, now), before);
      RunHears(cfg, Init(jobId, rangeId, now), before);
      TurnsEnd(cfg, s, turn);
      TurnFollowsItsVerdict(cfg, s, turn);
      RunHears(cfg, s, turn);
      SeenDecides(cfg, r, o, CloseRequest in turn);
    }
  }

  lemma SeenDecides(cfg: Config, r: Core, o: Observation, contested: bool)
    requires Heard(cfg, r) && TurnFollows(cfg, r, contested) && o in r.seen
    ensures Decides(cfg, r.row, o, contested)
  {
    var seen := r.seen;
    assert InOrder(cfg, r.row, seen);
    if o == seen[|seen| - 1] {
      assert Reached(cfg, r.row, seen) == Of(cfg, r.row, o);
    } else if o == seen[0] {
      assert GatewayHasRoute(cfg, o.g);
    } else {
      assert o == seen[1];
    }
  }

  /**
   Deadlines decide: a full turn that begins after a deadline, counted in microseconds, and still waits for what was
   due by then fails the job for that deadline.
   */
  lemma DeadlinesDecide(cfg: Config, jobId: string, rangeId: string, now: Time, before: seq<Input>, turn: seq<Input>)
    ensures var s := Run(cfg, Init(jobId, rangeId, now), before);
            var r := Run(cfg, s, turn).core;
            var v := Reached(cfg, r.row, r.seen);
            FullTurn(s, turn) && Active(s.core.row.status) && CloseRequest !in turn ==>
              && (s.core.row.createdAt + cfg.gatewayReadyTimeout * 1_000_000 < s.now ==>
                    && (v == AwaitsRoute ==> FailedFor(r.row, GatewayReadyTimeout, false))
                    && (v == AwaitsHealth ==> FailedFor(r.row, GatewayHealthTimeout, false)))
              && (v == AwaitsEnd && s.core.row.startedAt.Some? ==>
                    s.core.row.startedAt.value + cfg.controllerTimeout * 1_000_000 < s.now ==>
                      FailedFor(r.row, SafactoryRJobTimeout, false))
  {
    var s := Run(cfg, Init(jobId, rangeId, now), before);
    if FullTurn(s, turn) && Active(s.core.row.status) && CloseRequest !in turn {
      InitHoldsAll(cfg, jobId, rangeId, now);
      UnseenIsHeard(cfg, Init(jobId, rangeId, now).core);
      RunKeepsAll(cfg, Init(jobId, rangeId, now), before);
      RunHears(cfg, Init(jobId, rangeId, now), before);
      DeadlinesEndTurns(cfg, s, turn);
    }
  }

  lemma DeadlinesEndTurns(cfg: Config, s: JobState, turn: seq<Input>)
    requires AllInv(cfg, s) && Heard(cfg, s.core) && FullTurn(s, turn) && Active(s.core.row.status)
    requires CloseRequest !in turn
    ensures var r := Run(cfg, s, turn).core;
            var v := Reached(cfg, r.row, r.seen);
            && (TimedOut(cfg, s.core.row, s.now) && v == AwaitsRoute ==> FailedFor(r.row, GatewayReadyTimeout, false))
            && (TimedOut(cfg, s.core.row, s.now) && v == AwaitsHealth ==> FailedFor(r.row, GatewayHealthTimeout, false))
            && (ControllerTimedOut(cfg, s.core.row, s.now) && v == AwaitsEnd ==>
                  FailedFor(r.row, SafactoryRJobTimeout, false))
  {
    TurnsEnd(cfg, s, turn);
    TurnFollowsItsVerdict(cfg, s, turn);
    UncontestedRunsStayOpen(cfg, s, turn);
    var r := Run(cfg, s, turn).core;
    if TimedOut(cfg, s.core.row, s.now) {
      LateTurnsMoveOn(cfg, s, turn);
    }
    if ControllerTimedOut(cfg, s.core.row, s.now) {
      OverdueTurnsFinish(cfg, s, turn);
    }
    StillWaiting(cfg, r);
  }

  /** A turn that ends a job while it still waits names the deadline of what it waits for. */
  lemma StillWaiting(cfg: Config, r: Core)
    requires TurnFollows(cfg, r, false) && !ClosedOff(r.row)
    ensures var v := Reached(cfg, r.row, r.seen);
            && (v == AwaitsRoute || v == AwaitsHealth ==> r.row.controllerId.None?)
            && (v == AwaitsRoute && !Active(r.row.status) ==> FailedFor(r.row, GatewayReadyTimeout, false))
            && (v == AwaitsHealth && !Active(r.row.status) ==> FailedFor(r.row, GatewayHealthTimeout, false))
            && (v == AwaitsEnd && !Active(r.row.status) ==> FailedFor(r.row, SafactoryRJobTimeout, false))
  {
  }
}
