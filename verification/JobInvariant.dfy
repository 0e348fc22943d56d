/**
 The inductive invariant of one job: what its row always satisfies, what every control
 point knows about the row, what the event log and the status history look like.
 */
module JobInvariant {
  import opened Wrappers
  import opened ControlStore
  import opened Platform
  import opened JobMachine

  /** How the columns of a row determine one another. */
  ghost predicate RowInv(r: ControlJob) {
    && (r.controllerId.Some? <==> r.startedAt.Some?)
    && (r.controllerId.Some? ==> r.gatewayUrl.Some?)
    && (r.gatewayUrl.Some? ==> r.gatewayId.Some?)
    && (r.gatewayId.Some? ==> r.binding.Some?)
    && (r.status == Queued ==> r.binding.None?)
    && (r.status == Preparing ==> r.controllerId.None?)
    && (r.status == Running || r.status == Succeeded ==> r.controllerId.Some?)
    && (r.completedAt.Some? <==> Terminal(r.status))
    && (r.status == Closing ==> r.cleanup)
    && (r.cleanup ==> r.status == Closing || r.status == Failed || r.status == Succeeded)
    && (r.status == Closing || r.status == Failed <==> r.phase == CleaningRJobs)
    && (r.status == Closed || r.status == Succeeded <==> r.phase == Completed)
    && (r.status == Failed ==> r.reason.Some?)
  }

  /** The turn still runs: the row is active, or a close has overtaken the turn. */
  ghost predicate Open(r: ControlJob) {
    Active(r.status) || r.status == Closing
  }

  /** As Open, after the turn has moved the job out of the queue. */
  ghost predicate InTurn(r: ControlJob) {
    r.status == Preparing || r.status == Running || r.status == Closing
  }

  /** The turn has seen its gateway running, ready, routable and healthy. */
  ghost predicate Healthy(cfg: Config, s: Core, g: Snapshot) {
    && GatewayHasRoute(cfg, g)
    && s.row.gatewayId.Some?
    && s.seen == [SawGateway(s.row.gatewayId.value, g), SawHealth(UrlOf(cfg, g), true)]
  }

  /** The evidence a job needs to be declared successful. */
  ghost predicate Justified(cfg: Config, s: Core, g: Snapshot, c: Snapshot) {
    && GatewayHasRoute(cfg, g)
    && s.row.gatewayId.Some? && s.row.controllerId.Some? && s.row.binding.Some?
    && s.row.gatewayUrl == Some(UrlOf(cfg, g))
    && s.seen == [SawGateway(s.row.gatewayId.value, g), SawHealth(UrlOf(cfg, g), true),
                  SawController(s.row.controllerId.value, c)]
    && c.state == RJobSucceeded
    && ResultsComplete(s.row.binding.value, c)
    && (c.summary != map[] ==>
          var total := s.row.binding.value.totalEpisodes;
          s.row.episodes.total == total && s.row.episodes.succeeded == total && s.row.episodes.collected == total)
  }

  /** What the row looks like while the cleanup procedure works on it. */
  ghost predicate Cleaning(r: ControlJob, caller: Caller) {
    && r.cleanup
    && (!caller.InSweep? ==> r.status == Failed)
  }

  ghost predicate Stopping(cfg: Config, r: ControlJob, closing: bool, caller: Caller) {
    && Cleaning(r, caller)
    && closing == (r.status == Closing)
    && (cfg.keepRJobs ==> closing)
  }

  /** What the coroutine knows when it stands at a control point other than an event append. */
  ghost predicate At(cfg: Config, s: Core, now: Time, pc: PC) {
    match pc
    case Idle => true
    case Escaped => true
    case Log(_, _) => false
    case BumpAttempt(attempt) => Open(s.row) && attempt == s.row.attempt && s.seen == []
    case MarkPreparing => Open(s.row) && s.row.binding.None? && s.seen == []
    case BindFiles => InTurn(s.row) && s.row.binding.None? && s.seen == []
    case AfterBindFailure => Halted(s.row)
    case SaveBinding(binding) => InTurn(s.row) && s.row.binding.None? && s.disk == Some(binding) && s.seen == []
    case CheckBeforeGateway => InTurn(s.row) && s.row.binding.Some? && s.seen == []
    case CreateGateway => InTurn(s.row) && s.row.binding.Some? && s.row.gatewayId.None? && s.seen == []
    case SaveGateway(_) => InTurn(s.row) && s.row.binding.Some? && s.row.gatewayId.None? && s.seen == []
    case PollGateway(id) => InTurn(s.row) && s.row.gatewayId == Some(id) && s.seen == []
    case SaveGatewayStatus(g) =>
      InTurn(s.row) && s.row.gatewayId.Some? && s.seen == [SawGateway(s.row.gatewayId.value, g)]
    case CheckHealth(g) =>
      InTurn(s.row) && GatewayHasRoute(cfg, g)
      && s.row.gatewayId.Some? && s.seen == [SawGateway(s.row.gatewayId.value, g)]
    case CheckAfterHealth(g, ok) =>
      InTurn(s.row) && GatewayHasRoute(cfg, g) && s.row.gatewayId.Some?
      && s.seen == [SawGateway(s.row.gatewayId.value, g), SawHealth(UrlOf(cfg, g), ok)]
    case SaveHealthPhase => InTurn(s.row) && s.row.gatewayId.Some? && s.row.controllerId.None?
    case SaveUrl(g) => InTurn(s.row) && Healthy(cfg, s, g) && s.row.gatewayUrl.None?
    case CheckBeforeController(g) =>
      InTurn(s.row) && Healthy(cfg, s, g) && s.row.gatewayUrl == Some(UrlOf(cfg, g))
    case CreateController(startedAt, g) =>
      InTurn(s.row) && Healthy(cfg, s, g) && s.row.gatewayUrl == Some(UrlOf(cfg, g))
      && s.row.controllerId.None? && startedAt.None?
    case SaveController(startedAt, g, _, at) =>
      InTurn(s.row) && Healthy(cfg, s, g) && s.row.gatewayUrl == Some(UrlOf(cfg, g))
      && s.row.controllerId.None? && startedAt.None? && at <= now
    case SaveControllerWhileClosing(startedAt, g, _, at) =>
      s.row.status == Closing && Healthy(cfg, s, g) && s.row.gatewayUrl == Some(UrlOf(cfg, g))
      && s.row.controllerId.None? && startedAt.None? && at <= now
    case PollController(id, episodes, g) =>
      InTurn(s.row) && Healthy(cfg, s, g) && s.row.gatewayUrl == Some(UrlOf(cfg, g))
      && s.row.controllerId == Some(id) && episodes == s.row.episodes
    case SaveControllerStatus(episodes, g, c) =>
      InTurn(s.row) && GatewayHasRoute(cfg, g) && s.row.gatewayUrl == Some(UrlOf(cfg, g))
      && s.row.gatewayId.Some? && s.row.controllerId.Some? && episodes == s.row.episodes
      && s.seen == [SawGateway(s.row.gatewayId.value, g), SawHealth(UrlOf(cfg, g), true),
                    SawController(s.row.controllerId.value, c)]
    case Succeed(g, c) => InTurn(s.row) && Justified(cfg, s, g, c)
    case OnDependencyError => InTurn(s.row)
    case FailRead(_, caller) =>
      !caller.InSweep? && (InTurn(s.row) || (caller.InHandler? && s.row.status == Failed && s.row.cleanup))
    case FailWrite(_, caller) => !caller.InSweep? && InTurn(s.row)
    case CleanRead(caller) => Cleaning(s.row, caller)
    case CleanSkip(caller) => Cleaning(s.row, caller) && cfg.keepRJobs && s.row.status != Closing
    case StopController(id, gateway, closing, caller) =>
      Stopping(cfg, s.row, closing, caller) && s.row.controllerId == Some(id) && s.row.gatewayId == gateway
    case StopGateway(id, closing, caller) => Stopping(cfg, s.row, closing, caller) && s.row.gatewayId == Some(id)
    case CleanWrite(closing, caller) => Stopping(cfg, s.row, closing, caller)
  }

  /** The control point reached once the pending events are appended. */
  function After(pc: PC): PC {
    if pc.Log? then After(pc.next) else pc
  }

  /** The lifecycle: which status may follow which. */
  predicate Edge(a: JobStatus, b: JobStatus) {
    match a
    case Queued => b == Preparing || b == Closing
    case Preparing => b == Running || b == Failed || b == Closing
    case Running => b == Succeeded || b == Failed || b == Closing
    case Closing => b == Closed
    case _ => false
  }

  ghost predicate DiskInv(s: Core) {
    && (s.disk.Some? ==> s.disk.value.jobId == s.row.jobId && s.disk.value.rangeId == s.row.rangeId)
    && (s.row.binding.Some? ==> s.row.binding == s.disk)
  }

  /** Stated as one equation, so that proofs hand the invariant on as a single fact. */
  ghost predicate CoreInv(cfg: Config, s: Core, now: Time) {
    (RowInv(s.row) && At(cfg, s, now, After(s.pc)) && DiskInv(s)) == true
  }

  /** Columns that keep their first value. */
  predicate Kept<T(==)>(before: Option<T>, after: Option<T>) {
    before.Some? ==> before == after
  }

  ghost predicate WriteOnce(a: ControlJob, b: ControlJob) {
    && a.jobId == b.jobId && a.rangeId == b.rangeId && a.createdAt == b.createdAt
    && Kept(a.binding, b.binding)
    && Kept(a.gatewayId, b.gatewayId)
    && Kept(a.gatewayUrl, b.gatewayUrl)
    && Kept(a.controllerId, b.controllerId)
    && Kept(a.startedAt, b.startedAt)
    && Kept(a.completedAt, b.completedAt)
  }

  /** What one write may do to a row. */
  ghost predicate Lawful(a: ControlJob, b: ControlJob) {
    (WriteOnce(a, b) && (a.status == b.status || Edge(a.status, b.status))) == true
  }

  /** One step of the coroutine keeps the invariant, writes lawfully, and starts controllers in the past. */
  ghost predicate Sound(cfg: Config, s: Core, now: Time, r: Core) {
    (&& CoreInv(cfg, r, now)
     && Lawful(s.row, r.row)
     && (r.row.startedAt != s.row.startedAt ==> r.row.startedAt.Some? && r.row.startedAt.value <= now)) == true
  }

  ghost predicate Arrives(cfg: Config, s: Core, now: Time, r: Core) {
    (r.row == s.row && r.disk == s.disk && At(cfg, r, now, After(r.pc))) == true
  }

  /** Steps that leave the row and the disk alone have only to arrive at what their control point knows. */
  lemma RowStaysSound(cfg: Config, s: Core, now: Time, r: Core)
    requires CoreInv(cfg, s, now) && Arrives(cfg, s, now, r)
    ensures Sound(cfg, s, now, r)
  {
  }

  lemma BumpAttemptKeeps(cfg: Config, s: Core, now: Time, a: Answer)
    requires s.pc.BumpAttempt? && CoreInv(cfg, s, now)
    ensures Sound(cfg, s, now, StepCore(cfg, s, now, a))
  {
  }

  lemma MarkPreparingKeeps(cfg: Config, s: Core, now: Time, a: Answer)
    requires s.pc.MarkPreparing? && CoreInv(cfg, s, now)
    ensures Sound(cfg, s, now, StepCore(cfg, s, now, a))
  {
  }

  lemma BindFilesKeeps(cfg: Config, s: Core, now: Time, a: Answer)
    requires s.pc.BindFiles? && CoreInv(cfg, s, now)
    ensures Sound(cfg, s, now, StepCore(cfg, s, now, a))
  {
  }

  lemma AfterBindFailureKeeps(cfg: Config, s: Core, now: Time, a: Answer)
    requires s.pc.AfterBindFailure? && CoreInv(cfg, s, now)
    ensures Sound(cfg, s, now, StepCore(cfg, s, now, a))
  {
    RowStaysSound(cfg, s, now, StepCore(cfg, s, now, a));
  }

  lemma SaveBindingKeeps(cfg: Config, s: Core, now: Time, a: Answer)
    requires s.pc.SaveBinding? && CoreInv(cfg, s, now)
    ensures Sound(cfg, s, now, StepCore(cfg, s, now, a))
  {
  }

  lemma CheckBeforeGatewayKeeps(cfg: Config, s: Core, now: Time, a: Answer)
    requires s.pc.CheckBeforeGateway? && CoreInv(cfg, s, now)
    ensures Sound(cfg, s, now, StepCore(cfg, s, now, a))
  {
    RowStaysSound(cfg, s, now, StepCore(cfg, s, now, a));
  }

  lemma CreateGatewayKeeps(cfg: Config, s: Core, now: Time, a: Answer)
    requires s.pc.CreateGateway? && CoreInv(cfg, s, now)
    ensures Sound(cfg, s, now, StepCore(cfg, s, now, a))
  {
    RowStaysSound(cfg, s, now, StepCore(cfg, s, now, a));
  }

  lemma SaveGatewayKeeps(cfg: Config, s: Core, now: Time, a: Answer)
    requires s.pc.SaveGateway? && CoreInv(cfg, s, now)
    ensures Sound(cfg, s, now, StepCore(cfg, s, now, a))
  {
    var r := StepCore(cfg, s, now, a);
    assert r.pc.Log? ==> After(r.pc) == r.pc.next;
  }

  lemma PollGatewayKeeps(cfg: Config, s: Core, now: Time, a: Answer)
    requires s.pc.PollGateway? && CoreInv(cfg, s, now)
    ensures Sound(cfg, s, now, StepCore(cfg, s, now, a))
  {
    RowStaysSound(cfg, s, now, StepCore(cfg, s, now, a));
  }

  lemma SaveGatewayStatusKeeps(cfg: Config, s: Core, now: Time, a: Answer)
    requires s.pc.SaveGatewayStatus? && CoreInv(cfg, s, now)
    ensures Sound(cfg, s, now, StepCore(cfg, s, now, a))
  {
  }

  lemma CheckHealthKeeps(cfg: Config, s: Core, now: Time, a: Answer)
    requires s.pc.CheckHealth? && CoreInv(cfg, s, now)
    ensures Sound(cfg, s, now, StepCore(cfg, s, now, a))
  {
    RowStaysSound(cfg, s, now, StepCore(cfg, s, now, a));
  }

  lemma CheckAfterHealthKeeps(cfg: Config, s: Core, now: Time, a: Answer)
    requires s.pc.CheckAfterHealth? && CoreInv(cfg, s, now)
    ensures Sound(cfg, s, now, StepCore(cfg, s, now, a))
  {
    RowStaysSound(cfg, s, now, StepCore(cfg, s, now, a));
  }

  lemma SaveHealthPhaseKeeps(cfg: Config, s: Core, now: Time, a: Answer)
    requires s.pc.SaveHealthPhase? && CoreInv(cfg, s, now)
    ensures Sound(cfg, s, now, StepCore(cfg, s, now, a))
  {
  }

  lemma SaveUrlKeeps(cfg: Config, s: Core, now: Time, a: Answer)
    requires s.pc.SaveUrl? && CoreInv(cfg, s, now)
    ensures Sound(cfg, s, now, StepCore(cfg, s, now, a))
  {
    var r := StepCore(cfg, s, now, a);
    if s.row.status != Closing {
      assert After(r.pc) == CheckBeforeController(s.pc.g);
    }
  }

  lemma CheckBeforeControllerKeeps(cfg: Config, s: Core, now: Time, a: Answer)
    requires s.pc.CheckBeforeController? && CoreInv(cfg, s, now)
    ensures Sound(cfg, s, now, StepCore(cfg, s, now, a))
  {
    RowStaysSound(cfg, s, now, StepCore(cfg, s, now, a));
  }

  lemma CreateControllerKeeps(cfg: Config, s: Core, now: Time, a: Answer)
    requires s.pc.CreateController? && CoreInv(cfg, s, now)
    ensures Sound(cfg, s, now, StepCore(cfg, s, now, a))
  {
    RowStaysSound(cfg, s, now, StepCore(cfg, s, now, a));
  }

  /** The row once the controller is recorded. */
  lemma ControllerIsRecorded(row: ControlJob, startedAt: Option<Time>, id: RJobId, at: Time, now: Time)
    requires RowInv(row) && InTurn(row) && row.status != Closing && row.gatewayUrl.Some?
    requires row.controllerId.None? && startedAt.None? && at <= now
    ensures var r := UpdateRow(row, at, Changes(controllerId := Some(id), controllerStatus := Some(RJobPending),
                                                status := Some(Running), phase := Some(RunningSafactory),
                                                startedAt := FirstStart(startedAt, at)));
            && r.Ok? && r.value.status == Running && r.value.controllerId == Some(id) && r.value.binding == row.binding
            && r.value.gatewayId == row.gatewayId && r.value.gatewayUrl == row.gatewayUrl && r.value.jobId == row.jobId
            && r.value.rangeId == row.rangeId && RecordedSoundly(row, r.value, now)
  {
  }

  ghost predicate RecordedSoundly(before: ControlJob, after: ControlJob, now: Time) {
    (&& RowInv(after) && Lawful(before, after)
     && (after.startedAt != before.startedAt ==> after.startedAt.Some? && after.startedAt.value <= now)) == true
  }

  lemma SaveControllerRecords(cfg: Config, s: Core, now: Time, a: Answer)
    requires s.pc.SaveController? && s.row.status != Closing && CoreInv(cfg, s, now)
    ensures Sound(cfg, s, now, StepCore(cfg, s, now, a))
  {
    var r := StepCore(cfg, s, now, a);
    ControllerIsRecorded(s.row, s.pc.startedAt, s.pc.id, s.pc.at, now);
    assert After(r.pc) == r.pc.next == PollController(s.pc.id, r.row.episodes, s.pc.g);
  }

  lemma SaveControllerConflicts(cfg: Config, s: Core, now: Time, a: Answer)
    requires s.pc.SaveController? && s.row.status == Closing && CoreInv(cfg, s, now)
    ensures Sound(cfg, s, now, StepCore(cfg, s, now, a))
  {
  }

  lemma SaveControllerKeeps(cfg: Config, s: Core, now: Time, a: Answer)
    requires s.pc.SaveController? && CoreInv(cfg, s, now)
    ensures Sound(cfg, s, now, StepCore(cfg, s, now, a))
  {
    if s.row.status == Closing {
      SaveControllerConflicts(cfg, s, now, a);
    } else {
      SaveControllerRecords(cfg, s, now, a);
    }
  }

  lemma SaveControllerWhileClosingKeeps(cfg: Config, s: Core, now: Time, a: Answer)
    requires s.pc.SaveControllerWhileClosing? && CoreInv(cfg, s, now)
    ensures Sound(cfg, s, now, StepCore(cfg, s, now, a))
  {
  }

  lemma PollControllerKeeps(cfg: Config, s: Core, now: Time, a: Answer)
    requires s.pc.PollController? && CoreInv(cfg, s, now)
    ensures Sound(cfg, s, now, StepCore(cfg, s, now, a))
  {
    var r := StepCore(cfg, s, now, a);
    assert !r.pc.Log?;
    RowStaysSound(cfg, s, now, r);
  }

  lemma StatusWhileClosingKeeps(cfg: Config, s: Core, now: Time, a: Answer)
    requires s.pc.SaveControllerStatus? && CoreInv(cfg, s, now) && s.row.status == Closing
    ensures Sound(cfg, s, now, StepCore(cfg, s, now, a))
  {
    assert StepCore(cfg, s, now, a).pc == Idle;
  }

  lemma SuccessIsJustifiedBy(cfg: Config, r: Core, g: Snapshot, c: Snapshot, before: Episodes)
    requires GatewayHasRoute(cfg, g) && r.row.gatewayId.Some? && r.row.controllerId.Some? && r.row.binding.Some?
    requires r.row.gatewayUrl == Some(UrlOf(cfg, g)) && c.state == RJobSucceeded && ResultsComplete(r.row.binding.value, c)
    requires r.seen == [SawGateway(r.row.gatewayId.value, g), SawHealth(UrlOf(cfg, g), true),
                        SawController(r.row.controllerId.value, c)]
    requires r.row.episodes == MergeCounts(before, c.summary)
    ensures Justified(cfg, r, g, c)
  {
  }

  lemma SuccessStatusKeeps(cfg: Config, s: Core, now: Time, a: Answer)
    requires s.pc.SaveControllerStatus? && CoreInv(cfg, s, now) && s.row.status != Closing
    requires StepCore(cfg, s, now, a).pc.Succeed?
    ensures Sound(cfg, s, now, StepCore(cfg, s, now, a))
  {
    StatusStep(cfg, s, now, a);
    SuccessHasEvidence(cfg, s, now, a);
    SuccessKeeps(cfg, s, now, StepCore(cfg, s, now, a));
  }

  lemma OtherStatusKeeps(cfg: Config, s: Core, now: Time, a: Answer)
    requires s.pc.SaveControllerStatus? && CoreInv(cfg, s, now) && s.row.status != Closing
    requires !StepCore(cfg, s, now, a).pc.Succeed?
    ensures Sound(cfg, s, now, StepCore(cfg, s, now, a))
  {
    StatusStep(cfg, s, now, a);
    var r := StepCore(cfg, s, now, a);
    if r.pc.Log? {
      UnfinishedKeeps(cfg, s, now, r);
    } else {
      FailingKeeps(cfg, s, now, r, r.pc.why);
    }
  }

  /** The row with the status and the counts of a controller report. */
  function WithReport(s: Core, now: Time): ControlJob
    requires s.pc.SaveControllerStatus?
  {
    s.row.(controllerStatus := Some(s.pc.c.state), episodes := MergeCounts(s.pc.episodes, s.pc.c.summary),
           updatedAt := Stamp(now), version := s.row.version + 1)
  }

  lemma StatusStep(cfg: Config, s: Core, now: Time, a: Answer)
    requires s.pc.SaveControllerStatus? && CoreInv(cfg, s, now) && s.row.status != Closing
    ensures var r := StepCore(cfg, s, now, a);
            && r == s.(row := WithReport(s, now), pc := r.pc)
            && (|| r.pc == PC.Succeed(s.pc.g, s.pc.c) || r.pc == Log(ReconciliationCompleted, Idle)
                || (r.pc.FailRead? && r.pc == FailRead(r.pc.why, InBody)))
  {
  }

  lemma UnfinishedKeeps(cfg: Config, s: Core, now: Time, r: Core)
    requires s.pc.SaveControllerStatus? && CoreInv(cfg, s, now) && s.row.status != Closing
    requires r == s.(row := WithReport(s, now), pc := Log(ReconciliationCompleted, Idle))
    ensures Sound(cfg, s, now, r)
  {
    assert After(r.pc) == Idle;
  }

  lemma FailingKeeps(cfg: Config, s: Core, now: Time, r: Core, why: FailureReason)
    requires s.pc.SaveControllerStatus? && CoreInv(cfg, s, now) && s.row.status != Closing
    requires r == s.(row := WithReport(s, now), pc := FailRead(why, InBody))
    ensures Sound(cfg, s, now, r)
  {
  }

  lemma SuccessKeeps(cfg: Config, s: Core, now: Time, r: Core)
    requires s.pc.SaveControllerStatus? && CoreInv(cfg, s, now) && s.row.status != Closing
    requires r == s.(row := WithReport(s, now), pc := PC.Succeed(s.pc.g, s.pc.c)) && Justified(cfg, r, s.pc.g, s.pc.c)
    ensures Sound(cfg, s, now, r)
  {
  }

  lemma SuccessHasEvidence(cfg: Config, s: Core, now: Time, a: Answer)
    requires s.pc.SaveControllerStatus? && CoreInv(cfg, s, now) && s.row.status != Closing
    requires StepCore(cfg, s, now, a).pc.Succeed?
    ensures Justified(cfg, StepCore(cfg, s, now, a), s.pc.g, s.pc.c)
  {
    StatusStep(cfg, s, now, a);
    SuccessIsJustifiedBy(cfg, StepCore(cfg, s, now, a), s.pc.g, s.pc.c, s.pc.episodes);
  }

  lemma SaveControllerStatusKeeps(cfg: Config, s: Core, now: Time, a: Answer)
    requires s.pc.SaveControllerStatus? && CoreInv(cfg, s, now)
    ensures Sound(cfg, s, now, StepCore(cfg, s, now, a))
  {
    if s.row.status == Closing {
      StatusWhileClosingKeeps(cfg, s, now, a);
    } else if StepCore(cfg, s, now, a).pc.Succeed? {
      SuccessStatusKeeps(cfg, s, now, a);
    } else {
      OtherStatusKeeps(cfg, s, now, a);
    }
  }

  lemma SucceedKeeps(cfg: Config, s: Core, now: Time, a: Answer)
    requires s.pc.Succeed? && CoreInv(cfg, s, now)
    ensures Sound(cfg, s, now, StepCore(cfg, s, now, a))
  {
  }

  lemma OnDependencyErrorKeeps(cfg: Config, s: Core, now: Time, a: Answer)
    requires s.pc.OnDependencyError? && CoreInv(cfg, s, now)
    ensures Sound(cfg, s, now, StepCore(cfg, s, now, a))
  {
    RowStaysSound(cfg, s, now, StepCore(cfg, s, now, a));
  }

  lemma FailReadKeeps(cfg: Config, s: Core, now: Time, a: Answer)
    requires s.pc.FailRead? && CoreInv(cfg, s, now)
    ensures Sound(cfg, s, now, StepCore(cfg, s, now, a))
  {
    RowStaysSound(cfg, s, now, StepCore(cfg, s, now, a));
  }

  lemma FailedRowKeeps(cfg: Config, s: Core, now: Time, r: Core)
    requires CoreInv(cfg, s, now) && s.pc.FailWrite? && s.row.status != Closing
    requires r == s.(row := s.row.(status := Failed, phase := CleaningRJobs, reason := Some(s.pc.why), cleanup := true,
                                   completedAt := Some(Stamp(now)), updatedAt := Stamp(now), version := s.row.version + 1),
                     pc := Log(JobFailed, CleanRead(s.pc.caller)))
    ensures Sound(cfg, s, now, r)
  {
    assert After(r.pc) == r.pc.next;
  }

  lemma FailWriteKeeps(cfg: Config, s: Core, now: Time, a: Answer)
    requires s.pc.FailWrite? && CoreInv(cfg, s, now)
    ensures Sound(cfg, s, now, StepCore(cfg, s, now, a))
  {
    var r := StepCore(cfg, s, now, a);
    if s.row.status == Closing {
      assert r == s.(pc := Return(s.pc.caller));
    } else {
      FailedRowKeeps(cfg, s, now, r);
    }
  }

  lemma CleanReadKeeps(cfg: Config, s: Core, now: Time, a: Answer)
    requires s.pc.CleanRead? && CoreInv(cfg, s, now)
    ensures Sound(cfg, s, now, StepCore(cfg, s, now, a))
  {
    var r := StepCore(cfg, s, now, a);
    assert r.pc.Log? ==> After(r.pc) == r.pc.next;
    RowStaysSound(cfg, s, now, r);
  }

  lemma CleanSkipKeeps(cfg: Config, s: Core, now: Time, a: Answer)
    requires s.pc.CleanSkip? && CoreInv(cfg, s, now)
    ensures Sound(cfg, s, now, StepCore(cfg, s, now, a))
  {
  }

  lemma StopControllerKeeps(cfg: Config, s: Core, now: Time, a: Answer)
    requires s.pc.StopController? && CoreInv(cfg, s, now)
    ensures Sound(cfg, s, now, StepCore(cfg, s, now, a))
  {
    var r := StepCore(cfg, s, now, a);
    if a.stop.StopReturns? {
      assert After(r.pc) == r.pc.next;
    } else {
      assert After(r.pc) == r.pc == AfterRaisingStop(a.stop.e, s.pc.caller);
    }
    RowStaysSound(cfg, s, now, r);
  }

  lemma StopGatewayKeeps(cfg: Config, s: Core, now: Time, a: Answer)
    requires s.pc.StopGateway? && CoreInv(cfg, s, now)
    ensures Sound(cfg, s, now, StepCore(cfg, s, now, a))
  {
    var r := StepCore(cfg, s, now, a);
    if a.stop.StopReturns? {
      assert After(r.pc) == r.pc.next;
    } else {
      assert After(r.pc) == r.pc == AfterRaisingStop(a.stop.e, s.pc.caller);
    }
    RowStaysSound(cfg, s, now, r);
  }

  lemma CleanWriteKeeps(cfg: Config, s: Core, now: Time, a: Answer)
    requires s.pc.CleanWrite? && CoreInv(cfg, s, now)
    ensures Sound(cfg, s, now, StepCore(cfg, s, now, a))
  {
  }

  /** One await of the coroutine is sound, whatever the environment answers. */
  lemma StepCoreKeeps(cfg: Config, s: Core, now: Time, a: Answer)
    requires CoreInv(cfg, s, now)
    ensures Sound(cfg, s, now, StepCore(cfg, s, now, a))
  {
    match s.pc
    case Idle =>
    case Escaped =>
    case Log(_, next) => assert After(s.pc) == After(next);
    case BumpAttempt(_) => BumpAttemptKeeps(cfg, s, now, a);
    case MarkPreparing => MarkPreparingKeeps(cfg, s, now, a);
    case BindFiles => BindFilesKeeps(cfg, s, now, a);
    case AfterBindFailure => AfterBindFailureKeeps(cfg, s, now, a);
    case SaveBinding(_) => SaveBindingKeeps(cfg, s, now, a);
    case CheckBeforeGateway => CheckBeforeGatewayKeeps(cfg, s, now, a);
    case CreateGateway => CreateGatewayKeeps(cfg, s, now, a);
    case SaveGateway(_) => SaveGatewayKeeps(cfg, s, now, a);
    case PollGateway(_) => PollGatewayKeeps(cfg, s, now, a);
    case SaveGatewayStatus(_) => SaveGatewayStatusKeeps(cfg, s, now, a);
    case CheckHealth(_) => CheckHealthKeeps(cfg, s, now, a);
    case CheckAfterHealth(_, _) => CheckAfterHealthKeeps(cfg, s, now, a);
    case SaveHealthPhase => SaveHealthPhaseKeeps(cfg, s, now, a);
    case SaveUrl(_) => SaveUrlKeeps(cfg, s, now, a);
    case CheckBeforeController(_) => CheckBeforeControllerKeeps(cfg, s, now, a);
    case CreateController(_, _) => CreateControllerKeeps(cfg, s, now, a);
    case SaveController(_, _, _, _) => SaveControllerKeeps(cfg, s, now, a);
    case SaveControllerWhileClosing(_, _, _, _) => SaveControllerWhileClosingKeeps(cfg, s, now, a);
    case PollController(_, _, _) => PollControllerKeeps(cfg, s, now, a);
    case SaveControllerStatus(_, _, _) => SaveControllerStatusKeeps(cfg, s, now, a);
    case Succeed(_, _) => SucceedKeeps(cfg, s, now, a);
    case OnDependencyError => OnDependencyErrorKeeps(cfg, s, now, a);
    case FailRead(_, _) => FailReadKeeps(cfg, s, now, a);
    case FailWrite(_, _) => FailWriteKeeps(cfg, s, now, a);
    case CleanRead(_) => CleanReadKeeps(cfg, s, now, a);
    case CleanSkip(_) => CleanSkipKeeps(cfg, s, now, a);
    case StopController(_, _, _, _) => StopControllerKeeps(cfg, s, now, a);
    case StopGateway(_, _, _) => StopGatewayKeeps(cfg, s, now, a);
    case CleanWrite(_, _) => CleanWriteKeeps(cfg, s, now, a);
  }

  // --- The whole state -------------------------------------------------------------------

  /** An event that must appear at most once. */
  predicate Unique(kind: EventKind) {
    kind == JobSucceeded || kind == JobFailed || kind == JobClosed || kind == JobCloseRequested
  }

  /** The statuses under which an event may stand in the log. */
  predicate Announces(kind: EventKind, status: JobStatus) {
    match kind
    case JobSucceeded => status == Succeeded
    case JobFailed => status == Failed
    case JobClosed => status == Closed
    case JobCloseRequested => status == Closing || status == Closed
    case _ => true
  }

  /** The coroutine is about to append this event. */
  predicate Owes(pc: PC, kind: EventKind) {
    pc.Log? && (pc.kind == kind || Owes(pc.next, kind))
  }

  /** Pending events are true announcements, not yet made and owed once. */
  ghost predicate OwedOk(log: seq<EventKind>, status: JobStatus, pc: PC) {
    pc.Log? ==>
      && pc.kind != JobCloseRequested
      && Announces(pc.kind, status)
      && (Unique(pc.kind) ==> pc.kind !in log && !Owes(pc.next, pc.kind))
      && OwedOk(log, status, pc.next)
  }

  ghost predicate LogInv(s: JobState) {
    (&& (forall i, j :: 0 <= i < j < |s.log| && s.log[i] == s.log[j] ==> !Unique(s.log[i]))
     && (forall k :: k in s.log ==> Announces(k, s.core.row.status))
     && (s.closeLogPending ==> JobCloseRequested !in s.log && Announces(JobCloseRequested, s.core.row.status))
     && OwedOk(s.log, s.core.row.status, s.core.pc)) == true
  }

  ghost predicate IsPath(h: seq<JobStatus>) {
    && h != []
    && h[0] == Queued
    && forall i :: 0 <= i < |h| - 1 ==> Edge(h[i], h[i + 1])
  }

  ghost predicate HistInv(s: JobState) {
    (IsPath(s.hist) && s.hist[|s.hist| - 1] == s.core.row.status) == true
  }

  ghost predicate ClockInv(s: JobState) {
    (s.core.row.createdAt <= s.now && (s.core.row.startedAt.Some? ==> s.core.row.startedAt.value <= s.now)) == true
  }

  /** What the pass knows about a job it has listed but not yet visited. */
  ghost predicate ListedInv(s: JobState) {
    (&& (s.listed.Some? ==> s.core.pc.Idle? && Open(s.core.row) && s.listed.value.attempt == s.core.row.attempt)
     && (s.swept ==> s.core.pc.Idle? && s.core.row.cleanup)) == true
  }

  ghost predicate Inv(cfg: Config, s: JobState) {
    (CoreInv(cfg, s.core, s.now) && LogInv(s) && HistInv(s) && ClockInv(s) && ListedInv(s)) == true
  }

  lemma InitHolds(cfg: Config, jobId: string, rangeId: string, now: Time)
    ensures Inv(cfg, Init(jobId, rangeId, now))
  {
  }

  lemma ExtendPath(hist: seq<JobStatus>, before: JobStatus, after: JobStatus)
    requires IsPath(hist) && hist[|hist| - 1] == before
    requires before == after || Edge(before, after)
    ensures IsPath(Extend(hist, before, after)) && Extend(hist, before, after)[|Extend(hist, before, after)| - 1] == after
  {
  }

  lemma CloseKeepsCore(cfg: Config, s: Core, now: Time)
    requires CoreInv(cfg, s, now)
    ensures CoreInv(cfg, s.(row := CloseRow(s.row, now).0), now)
    ensures Lawful(s.row, CloseRow(s.row, now).0)
  {
  }

  lemma TickKeepsCore(cfg: Config, s: Core, now: Time, later: Time)
    requires CoreInv(cfg, s, now) && now <= later
    ensures CoreInv(cfg, s, later)
  {
  }

  /** A step owes a unique event only together with the status change that the event announces. */
  ghost predicate OwesFresh(before: JobStatus, after: JobStatus, pc: PC) {
    (OwedOk([], after, pc) && (forall k :: Unique(k) && Owes(pc, k) ==> !Announces(k, before))) == true
  }

  /** The three steps that announce the end of a job. */
  predicate Announcing(pc: PC) {
    pc.Succeed? || pc.FailWrite? || pc.CleanWrite?
  }

  predicate Quiet(pc: PC) {
    pc.Log? ==> !Unique(pc.kind) && !pc.next.Log?
  }

  lemma EarlyStepsAreQuiet(cfg: Config, s: Core, now: Time, a: Answer)
    requires s.pc.BumpAttempt? || s.pc.MarkPreparing? || s.pc.BindFiles? || s.pc.AfterBindFailure? || s.pc.SaveBinding?
             || s.pc.CheckBeforeGateway? || s.pc.CreateGateway? || s.pc.SaveGateway? || s.pc.PollGateway?
             || s.pc.SaveGatewayStatus? || s.pc.CheckHealth? || s.pc.CheckAfterHealth? || s.pc.SaveHealthPhase?
             || s.pc.SaveUrl?
    ensures Quiet(StepCore(cfg, s, now, a).pc)
  {
  }

  lemma LateStepsAreQuiet(cfg: Config, s: Core, now: Time, a: Answer)
    requires s.pc.CheckBeforeController? || s.pc.CreateController? || s.pc.SaveController?
             || s.pc.SaveControllerWhileClosing? || s.pc.PollController? || s.pc.SaveControllerStatus?
    ensures Quiet(StepCore(cfg, s, now, a).pc)
  {
  }

  lemma CleaningStepsAreQuiet(cfg: Config, s: Core, now: Time, a: Answer)
    requires s.pc.OnDependencyError? || s.pc.FailRead? || s.pc.CleanRead? || s.pc.CleanSkip? || s.pc.StopController?
             || s.pc.StopGateway? || s.pc.Idle? || s.pc.Escaped?
    ensures Quiet(StepCore(cfg, s, now, a).pc)
  {
  }

  lemma OtherStepsAreQuiet(cfg: Config, s: Core, now: Time, a: Answer)
    requires !s.pc.Log? && !Announcing(s.pc)
    ensures Quiet(StepCore(cfg, s, now, a).pc)
  {
    if s.pc.CheckBeforeController? || s.pc.CreateController? || s.pc.SaveController?
       || s.pc.SaveControllerWhileClosing? || s.pc.PollController? || s.pc.SaveControllerStatus? {
      LateStepsAreQuiet(cfg, s, now, a);
    } else if s.pc.OnDependencyError? || s.pc.FailRead? || s.pc.CleanRead? || s.pc.CleanSkip? || s.pc.StopController?
              || s.pc.StopGateway? || s.pc.Idle? || s.pc.Escaped? {
      CleaningStepsAreQuiet(cfg, s, now, a);
    } else {
      EarlyStepsAreQuiet(cfg, s, now, a);
    }
  }

  lemma SuccessIsFresh(s: Core, now: Time)
    requires s.pc.Succeed? && InTurn(s.row)
    ensures var r := StepSucceed(s, now); OwesFresh(s.row.status, r.row.status, r.pc)
  {
    var r := StepSucceed(s, now);
    assert r.pc == Idle || (r.pc == Log(JobSucceeded, Idle) && r.row.status == Succeeded);
  }

  lemma FailureIsFresh(s: Core, now: Time)
    requires s.pc.FailWrite? && InTurn(s.row)
    ensures var r := StepFailWrite(s, now, s.pc.why, s.pc.caller); OwesFresh(s.row.status, r.row.status, r.pc)
  {
    var r := StepFailWrite(s, now, s.pc.why, s.pc.caller);
    if s.row.status == Closing {
      assert r.pc == Return(s.pc.caller);
    } else {
      assert r.pc == Log(JobFailed, CleanRead(s.pc.caller)) && r.row.status == Failed;
      assert !r.pc.next.Log?;
      assert OwedOk([], Failed, r.pc.next);
      assert forall k :: Owes(r.pc, k) ==> k == JobFailed;
      assert OwedOk([], Failed, r.pc);
    }
  }

  lemma ClosureIsFresh(s: Core, now: Time)
    requires s.pc.CleanWrite? && s.pc.closing == (s.row.status == Closing)
    ensures var r := StepCleanWrite(s, now, s.pc.closing, s.pc.caller); OwesFresh(s.row.status, r.row.status, r.pc)
  {
    var r := StepCleanWrite(s, now, s.pc.closing, s.pc.caller);
    var back := Return(s.pc.caller);
    if s.pc.closing {
      assert r.pc == Log(CleanupCompleted, Log(JobClosed, back)) && r.row.status == Closed;
    } else {
      assert r.pc == Log(CleanupCompleted, back);
    }
  }

  lemma QuietIsFresh(before: JobStatus, after: JobStatus, pc: PC)
    requires Quiet(pc) && (pc.Log? ==> Announces(pc.kind, after))
    ensures OwesFresh(before, after, pc)
  {
    assert pc.Log? ==> OwedOk([], after, pc.next);
  }

  lemma SuccessOwesFresh(cfg: Config, s: Core, now: Time, a: Answer)
    requires CoreInv(cfg, s, now) && s.pc.Succeed?
    ensures var r := StepCore(cfg, s, now, a); OwesFresh(s.row.status, r.row.status, r.pc)
  {
    SuccessIsFresh(s, now);
  }

  lemma FailureOwesFresh(cfg: Config, s: Core, now: Time, a: Answer)
    requires CoreInv(cfg, s, now) && s.pc.FailWrite?
    ensures var r := StepCore(cfg, s, now, a); OwesFresh(s.row.status, r.row.status, r.pc)
  {
    FailureIsFresh(s, now);
  }

  lemma ClosureOwesFresh(cfg: Config, s: Core, now: Time, a: Answer)
    requires CoreInv(cfg, s, now) && s.pc.CleanWrite?
    ensures var r := StepCore(cfg, s, now, a); OwesFresh(s.row.status, r.row.status, r.pc)
  {
    ClosureIsFresh(s, now);
  }

  lemma StepCoreOwesFresh(cfg: Config, s: Core, now: Time, a: Answer)
    requires CoreInv(cfg, s, now) && !s.pc.Log?
    ensures var r := StepCore(cfg, s, now, a); OwesFresh(s.row.status, r.row.status, r.pc)
  {
    if s.pc.Succeed? {
      SuccessOwesFresh(cfg, s, now, a);
    } else if s.pc.FailWrite? {
      FailureOwesFresh(cfg, s, now, a);
    } else if s.pc.CleanWrite? {
      ClosureOwesFresh(cfg, s, now, a);
    } else {
      QuietStepsOweNothing(cfg, s, now, a);
    }
  }

  lemma QuietStepsOweNothing(cfg: Config, s: Core, now: Time, a: Answer)
    requires CoreInv(cfg, s, now) && !s.pc.Log? && !Announcing(s.pc)
    ensures var r := StepCore(cfg, s, now, a); OwesFresh(s.row.status, r.row.status, r.pc)
  {
    OtherStepsAreQuiet(cfg, s, now, a);
    var r := StepCore(cfg, s, now, a);
    QuietIsFresh(s.row.status, r.row.status, r.pc);
  }

  lemma {:induction false} OwedAfterAppend(log: seq<EventKind>, status: JobStatus, kind: EventKind, pc: PC)
    requires OwedOk(log, status, pc) && (Unique(kind) ==> !Owes(pc, kind))
    ensures OwedOk(log + [kind], status, pc)
    decreases pc
  {
    if pc.Log? {
      OwedAfterAppend(log, status, kind, pc.next);
    }
  }

  lemma {:induction false} OwedFromFresh(log: seq<EventKind>, before: JobStatus, after: JobStatus, pc: PC)
    requires OwesFresh(before, after, pc)
    requires forall k :: k in log ==> Announces(k, before)
    ensures OwedOk(log, after, pc)
    decreases pc
  {
    if pc.Log? {
      assert forall k :: Unique(k) && Owes(pc.next, k) ==> Owes(pc, k);
      OwedFromFresh(log, before, after, pc.next);
    }
  }

  lemma AwaitKeepsLog(cfg: Config, s: JobState, a: Answer)
    requires CoreInv(cfg, s.core, s.now) && LogInv(s)
    ensures LogInv(StepAwait(cfg, s, a))
  {
    var r := StepAwait(cfg, s, a);
    if s.core.pc.Log? {
      OwedAfterAppend(s.log, s.core.row.status, s.core.pc.kind, s.core.pc.next);
    } else {
      StepCoreKeeps(cfg, s.core, s.now, a);
      StepCoreOwesFresh(cfg, s.core, s.now, a);
      OwedFromFresh(s.log, s.core.row.status, r.core.row.status, r.core.pc);
    }
  }

  lemma {:induction false} OwedUnderClose(log: seq<EventKind>, before: JobStatus, after: JobStatus, pc: PC)
    requires OwedOk(log, before, pc)
    requires before == after || Edge(before, after)
    ensures OwedOk(log, after, pc)
    decreases pc
  {
    if pc.Log? {
      OwedUnderClose(log, before, after, pc.next);
    }
  }

  lemma CloseKeepsLog(cfg: Config, s: JobState)
    requires CoreInv(cfg, s.core, s.now) && LogInv(s)
    ensures LogInv(StepClose(s))
  {
    CloseKeepsCore(cfg, s.core, s.now);
    OwedUnderClose(s.log, s.core.row.status, StepClose(s).core.row.status, s.core.pc);
  }

  lemma {:induction false} OwedAfterCloseEvent(log: seq<EventKind>, status: JobStatus, pc: PC)
    requires OwedOk(log, status, pc)
    ensures OwedOk(log + [JobCloseRequested], status, pc)
    decreases pc
  {
    if pc.Log? {
      OwedAfterCloseEvent(log, status, pc.next);
    }
  }

  lemma AwaitKeepsClock(cfg: Config, s: JobState, a: Answer)
    requires CoreInv(cfg, s.core, s.now) && ClockInv(s)
    ensures ClockInv(StepAwait(cfg, s, a))
  {
    StepCoreKeeps(cfg, s.core, s.now, a);
    assert Lawful(s.core.row, StepCore(cfg, s.core, s.now, a).row);
  }

  lemma AwaitKeepsListed(cfg: Config, s: JobState, a: Answer)
    requires ListedInv(s)
    ensures ListedInv(StepAwait(cfg, s, a))
  {
    if s.core.pc.Idle? {
      assert StepCore(cfg, s.core, s.now, a) == s.core;
    }
  }

  lemma AwaitKeepsInv(cfg: Config, s: JobState, a: Answer)
    requires Inv(cfg, s)
    ensures Inv(cfg, StepAwait(cfg, s, a)) && Lawful(s.core.row, StepAwait(cfg, s, a).core.row)
  {
    var core := StepCore(cfg, s.core, s.now, a);
    StepCoreKeeps(cfg, s.core, s.now, a);
    assert CoreInv(cfg, core, s.now) && Lawful(s.core.row, core.row);
    AwaitKeepsLog(cfg, s, a);
    AwaitKeepsClock(cfg, s, a);
    AwaitKeepsListed(cfg, s, a);
    ExtendPath(s.hist, s.core.row.status, core.row.status);
  }

  lemma CloseKeepsInv(cfg: Config, s: JobState)
    requires Inv(cfg, s)
    ensures Inv(cfg, StepClose(s)) && Lawful(s.core.row, StepClose(s).core.row)
  {
    CloseKeepsCore(cfg, s.core, s.now);
    CloseKeepsLog(cfg, s);
    ExtendPath(s.hist, s.core.row.status, StepClose(s).core.row.status);
  }

  lemma CrashKeepsInv(cfg: Config, s: JobState, published: BindAnswer)
    requires Inv(cfg, s)
    ensures Inv(cfg, Next(cfg, s, Crash(published)))
  {
  }

  lemma CloseEventKeepsInv(cfg: Config, s: JobState)
    requires Inv(cfg, s) && s.closeLogPending
    ensures Inv(cfg, Next(cfg, s, CloseHandlerLogs))
  {
    OwedAfterCloseEvent(s.log, s.core.row.status, s.core.pc);
    assert LogInv(Next(cfg, s, CloseHandlerLogs));
  }

  lemma TickKeepsInv(cfg: Config, s: JobState, d: nat)
    requires Inv(cfg, s)
    ensures Inv(cfg, Next(cfg, s, Tick(d)))
  {
    TickKeepsCore(cfg, s.core, s.now, s.now + d);
  }

  lemma ListingKeepsInv(cfg: Config, s: JobState, i: Input)
    requires Inv(cfg, s) && (i.ListActive? || i.ListCleanup?)
    ensures Inv(cfg, Next(cfg, s, i))
  {
  }

  lemma BeginningKeepsInv(cfg: Config, s: JobState, i: Input)
    requires Inv(cfg, s) && (i.BeginTurn? || i.BeginSweep?)
    ensures Inv(cfg, Next(cfg, s, i))
  {
  }

  /** Inputs other than awaits and closes leave the row alone. */
  lemma RowStays(cfg: Config, s: JobState, i: Input)
    requires !i.Advance? && !i.CloseRequest?
    ensures Lawful(s.core.row, Next(cfg, s, i).core.row)
  {
    assert Next(cfg, s, i).core.row == s.core.row;
  }

  /** Every input keeps the invariant, and changes the row only lawfully. */
  lemma NextKeepsInv(cfg: Config, s: JobState, i: Input)
    requires Inv(cfg, s)
    ensures Inv(cfg, Next(cfg, s, i)) && Lawful(s.core.row, Next(cfg, s, i).core.row)
  {
    if !i.Advance? && !i.CloseRequest? {
      RowStays(cfg, s, i);
    }
    match i
    case Tick(d) => TickKeepsInv(cfg, s, d);
    case CloseRequest => CloseKeepsInv(cfg, s);
    case CloseHandlerLogs =>
      if s.closeLogPending {
        CloseEventKeepsInv(cfg, s);
      } else {
        assert Next(cfg, s, i) == s;
      }
    case ListActive => ListingKeepsInv(cfg, s, i);
    case ListCleanup => ListingKeepsInv(cfg, s, i);
    case BeginTurn => BeginningKeepsInv(cfg, s, i);
    case BeginSweep => BeginningKeepsInv(cfg, s, i);
    case Advance(a) => AwaitKeepsInv(cfg, s, a);
    case Crash(published) => CrashKeepsInv(cfg, s, published);
  }
}
